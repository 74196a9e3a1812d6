/** The neighbourhood view: all nodes within some hops, cut short when they are too many. */
module Ego {
  import opened Adjacency
  import opened Paths

  const EGO_CAP: nat := 6000

  // ---- the order in which nodes are found ----

  function BlockOf(es: seq<int>, et: seq<int>, u: int): seq<Slot>
    requires |es| == |et|
  {
    Block(es, et, 2 * |es|, u)
  }

  /** The nodes found once the first `q` slots of a block have been followed. */
  function Follow(block: seq<Slot>, q: nat, found: seq<int>): seq<int>
    requires q <= |block|
  {
    if q == 0 then found
    else
      var before := Follow(block, q - 1, found);
      if block[q - 1].nb in before then before else before + [block[q - 1].nb]
  }

  /** The nodes found from `a`, in order, once the first `k` of them have been scanned. */
  function Found(es: seq<int>, et: seq<int>, a: int, k: nat): seq<int>
    requires |es| == |et|
  {
    if k == 0 then [a]
    else
      var before := Found(es, et, a, k - 1);
      if k - 1 < |before| then Follow(BlockOf(es, et, before[k - 1]), |BlockOf(es, et, before[k - 1])|, before) else before
  }

  function Elements(s: seq<int>): set<int> {
    set v | v in s
  }

  predicate NoRepeats(s: seq<int>) {
    forall i, j :: 0 <= i < j < |s| ==> s[i] != s[j]
  }

  lemma {:induction false} Counted(s: seq<int>)
    requires NoRepeats(s)
    ensures |Elements(s)| == |s|
  {
    if s != [] {
      var last := |s| - 1;
      Counted(s[..last]);
      assert Elements(s) == Elements(s[..last]) + {s[last]};
    }
  }

  lemma {:induction false} FollowMeans(block: seq<Slot>, q: nat, found: seq<int>)
    requires q <= |block| && NoRepeats(found)
    ensures found <= Follow(block, q, found) && NoRepeats(Follow(block, q, found))
    ensures forall v :: v in Follow(block, q, found) <==> v in found || exists i :: 0 <= i < q && block[i].nb == v
  {
    if q > 0 { FollowMeans(block, q - 1, found); }
  }

  /** The block of a node leads to its neighbours and nowhere else. */
  lemma BlockMeans(es: seq<int>, et: seq<int>, u: int, v: int)
    requires |es| == |et|
    ensures Adjacent(es, et, u, v) <==> exists i :: 0 <= i < |BlockOf(es, et, u)| && BlockOf(es, et, u)[i].nb == v
  {
    var block := BlockOf(es, et, u);
    if i :| 0 <= i < |block| && block[i].nb == v { BlockSound(es, et, 2 * |es|, u, i); }
    if Adjacent(es, et, u, v) {
      var e :| Incident(es, et, e, u, v);
      BlockComplete(es, et, 2 * |es|, u, if es[e] == u && et[e] == v then 2 * e else 2 * e + 1);
    }
  }

  /** `a` and the neighbours of these nodes. */
  ghost predicate IsReach(es: seq<int>, et: seq<int>, a: int, scanned: seq<int>, found: set<int>)
    requires |es| == |et|
  {
    forall v :: v in found <==> v == a || NextTo(es, et, scanned, v)
  }

  ghost predicate NextTo(es: seq<int>, et: seq<int>, scanned: seq<int>, v: int)
    requires |es| == |et|
  {
    exists i :: 0 <= i < |scanned| && Adjacent(es, et, scanned[i], v)
  }

  lemma NextToMore(es: seq<int>, et: seq<int>, scanned: seq<int>, u: int, v: int)
    requires |es| == |et|
    ensures NextTo(es, et, scanned + [u], v) <==> NextTo(es, et, scanned, v) || Adjacent(es, et, u, v)
  {
    var more := scanned + [u];
    if i :| 0 <= i < |scanned| && Adjacent(es, et, scanned[i], v) { assert more[i] == scanned[i]; }
    assert more[|scanned|] == u;
  }

  /** Found after `k` scans: no node twice, and exactly the start and the neighbours of the scanned. */
  lemma {:induction false} FoundMeans(es: seq<int>, et: seq<int>, a: int, k: nat)
    requires |es| == |et|
    ensures NoRepeats(Found(es, et, a, k)) && |Found(es, et, a, k)| > 0
    ensures k <= |Found(es, et, a, k)| ==> IsReach(es, et, a, Found(es, et, a, k)[..k], Elements(Found(es, et, a, k)))
  {
    if k > 0 {
      var last := k - 1;
      var before, found := Found(es, et, a, last), Found(es, et, a, k);
      FoundMeans(es, et, a, last);
      if last < |before| { ScanMeans(es, et, a, before, last, found); }
    }
  }

  lemma ScanMeans(es: seq<int>, et: seq<int>, a: int, before: seq<int>, last: nat, found: seq<int>)
    requires |es| == |et| && last < |before| && NoRepeats(before)
    requires IsReach(es, et, a, before[..last], Elements(before))
    requires found == Follow(BlockOf(es, et, before[last]), |BlockOf(es, et, before[last])|, before)
    ensures before <= found && NoRepeats(found) && IsReach(es, et, a, found[..last + 1], Elements(found))
  {
    var u, block := before[last], BlockOf(es, et, before[last]);
    FollowMeans(block, |block|, before);
    assert found[..last + 1] == before[..last] + [u];
    forall v ensures v in Elements(found) <==> v == a || NextTo(es, et, found[..last + 1], v) {
      BlockMeans(es, et, u, v);
      NextToMore(es, et, before[..last], u, v);
      assert v in Elements(before) <==> v == a || NextTo(es, et, before[..last], v);
    }
  }

  lemma {:induction false} FoundGrows(es: seq<int>, et: seq<int>, a: int, j: nat, k: nat)
    requires |es| == |et| && j <= k
    ensures Found(es, et, a, j) <= Found(es, et, a, k)
    decreases k
  {
    if j < k {
      var last := k - 1;
      FoundGrows(es, et, a, j, last);
      var before := Found(es, et, a, last);
      FoundMeans(es, et, a, last);
      if last < |before| { FollowMeans(BlockOf(es, et, before[last]), |BlockOf(es, et, before[last])|, before); }
    }
  }

  // ---- rings ----

  /** Scanning `m` nodes, exactly those of `inner`, finds exactly those of `outer`. */
  ghost predicate RingDone(es: seq<int>, et: seq<int>, a: int, inner: set<int>, m: nat, outer: set<int>)
    requires |es| == |et|
  {
    && m == |inner| && m <= |Found(es, et, a, m)|
    && Elements(Found(es, et, a, m)[..m]) == inner && Elements(Found(es, et, a, m)) == outer
  }

  lemma ReachIsBall(n: nat, es: seq<int>, et: seq<int>, a: int, h: nat, scanned: seq<int>, found: set<int>)
    requires ValidEdges(n, es, et) && 0 <= a < n && Elements(scanned) == Ball(n, es, et, a, h)
    requires IsReach(es, et, a, scanned, found)
    ensures found == Ball(n, es, et, a, h + 1) || !(Elements(scanned) <= found)
  {
    var inner := Ball(n, es, et, a, h);
    BallGrows(n, es, et, a, 0, h);
    forall v ensures NextTo(es, et, scanned, v) <==> 0 <= v < n && Touches(es, et, inner, v) {
      if i :| 0 <= i < |scanned| && Adjacent(es, et, scanned[i], v) { assert scanned[i] in Elements(scanned); }
      if u :| u in inner && Adjacent(es, et, u, v) {
        assert u in scanned;
        var i :| 0 <= i < |scanned| && scanned[i] == u;
      }
    }
  }

  lemma RingEnds(n: nat, es: seq<int>, et: seq<int>, a: int, h: nat, m: nat)
    requires ValidEdges(n, es, et) && 0 <= a < n && m == |Ball(n, es, et, a, h)| && m <= |Found(es, et, a, m)|
    requires Elements(Found(es, et, a, m)[..m]) == Ball(n, es, et, a, h)
    ensures RingDone(es, et, a, Ball(n, es, et, a, h), m, Ball(n, es, et, a, h + 1))
  {
    var found := Found(es, et, a, m);
    FoundMeans(es, et, a, m);
    assert Elements(found[..m]) <= Elements(found);
    ReachIsBall(n, es, et, a, h, found[..m], Elements(found));
  }

  lemma FirstRing(n: nat, es: seq<int>, et: seq<int>, a: int)
    requires |es| == |et|
    ensures |Ball(n, es, et, a, 0)| == 1 <= |Found(es, et, a, 1)| && Elements(Found(es, et, a, 1)[..1]) == Ball(n, es, et, a, 0)
  {
    FoundGrows(es, et, a, 0, 1);
    assert Found(es, et, a, 1)[0] == Found(es, et, a, 0)[0] == a;
  }

  lemma NextRing(es: seq<int>, et: seq<int>, a: int, inner: set<int>, k: nat, outer: set<int>, m: nat)
    requires |es| == |et| && RingDone(es, et, a, inner, k, outer) && m == |outer| && inner <= outer
    ensures k <= m <= |Found(es, et, a, m)| && Found(es, et, a, m)[..m] == Found(es, et, a, k)
  {
    FoundMeans(es, et, a, k);
    Counted(Found(es, et, a, k));
    FoundGrows(es, et, a, k, m);
  }

  /** Scanning the nodes within `h` hops, in the order found, finds the nodes within one hop more. */
  lemma {:induction false} RingsDone(n: nat, es: seq<int>, et: seq<int>, a: int, h: nat)
    requires ValidEdges(n, es, et) && 0 <= a < n
    ensures RingDone(es, et, a, Ball(n, es, et, a, h), |Ball(n, es, et, a, h)|, Ball(n, es, et, a, h + 1))
  {
    var inner := Ball(n, es, et, a, h);
    if h == 0 {
      FirstRing(n, es, et, a);
    } else {
      var g := h - 1;
      RingsDone(n, es, et, a, g);
      BallGrows(n, es, et, a, g, h);
      NextRing(es, et, a, Ball(n, es, et, a, g), |Ball(n, es, et, a, g)|, inner, |inner|);
    }
    RingEnds(n, es, et, a, h, |inner|);
  }

  lemma SubsetSize(small: set<int>, large: set<int>)
    requires small <= large
    ensures |small| <= |large|
  {
    assert large == small + (large - small);
  }

  // ---- what the view shows ----

  /** How many nodes a search of `hops` levels scans when nothing stops it. */
  ghost function Scans(n: nat, es: seq<int>, et: seq<int>, a: int, hops: int): nat
    requires |es| == |et|
  {
    if hops <= 0 then 0 else |Ball(n, es, et, a, hops - 1)|
  }

  ghost function BallOf(n: nat, es: seq<int>, et: seq<int>, a: int, hops: int): set<int>
    requires |es| == |et|
  {
    Ball(n, es, et, a, if hops > 0 then hops else 0)
  }

  /** After `k` scans the cap has not been passed. */
  predicate UnderCap(es: seq<int>, et: seq<int>, a: int, k: nat)
    requires |es| == |et|
  {
    |Found(es, et, a, k)| <= 6000
  }

  /** The search stops after `k` scans: the first that leaves more than 6000 nodes found, or the last. */
  ghost predicate StopsAfter(n: nat, es: seq<int>, et: seq<int>, a: int, hops: int, k: nat)
    requires |es| == |et|
  {
    && k <= Scans(n, es, et, a, hops)
    && (forall j :: 0 <= j < k ==> UnderCap(es, et, a, j))
    && (k < Scans(n, es, et, a, hops) ==> !UnderCap(es, et, a, k))
  }

  /** What is shown is what a number of scans found, and the search stops after that many. */
  ghost predicate IsEgo(n: nat, es: seq<int>, et: seq<int>, a: int, hops: int, k: nat, out: set<int>)
    requires |es| == |et|
  {
    StopsAfter(n, es, et, a, hops, k) && out == Elements(Found(es, et, a, k))
  }

  lemma UncutRing(es: seq<int>, et: seq<int>, a: int, inner: set<int>, m: nat, outer: set<int>)
    requires |es| == |et| && RingDone(es, et, a, inner, m, outer)
    ensures Elements(Found(es, et, a, m)) == outer && |Found(es, et, a, m)| == |outer|
  {
    FoundMeans(es, et, a, m);
    Counted(Found(es, et, a, m));
  }

  /** An uncut search finds the whole ball. */
  lemma AllScansFindBall(n: nat, es: seq<int>, et: seq<int>, a: int, hops: int)
    requires ValidEdges(n, es, et) && 0 <= a < n
    ensures Elements(Found(es, et, a, Scans(n, es, et, a, hops))) == BallOf(n, es, et, a, hops)
    ensures |Found(es, et, a, Scans(n, es, et, a, hops))| == |BallOf(n, es, et, a, hops)|
  {
    if hops > 0 {
      var h := hops - 1;
      RingsDone(n, es, et, a, h);
      UncutRing(es, et, a, Ball(n, es, et, a, h), Scans(n, es, et, a, hops), Ball(n, es, et, a, h + 1));
    } else {
      assert Found(es, et, a, 0) == [a];
      Counted([a]);
    }
  }

  /** No scan that leaves more than 6000 nodes found leaves any node of the ball unfound. */
  ghost predicate CapIsHarmless(n: nat, es: seq<int>, et: seq<int>, a: int, hops: int)
    requires |es| == |et|
  {
    forall k :: 0 <= k <= Scans(n, es, et, a, hops) ==> UnderCap(es, et, a, k) || |Found(es, et, a, k)| == |BallOf(n, es, et, a, hops)|
  }

  lemma PrefixIsAll(s: seq<int>, t: seq<int>)
    requires s <= t && NoRepeats(t)
    ensures Elements(s) <= Elements(t) && (Elements(s) == Elements(t) <==> |s| == |t|)
  {
    if Elements(s) == Elements(t) { Counted(t); Counted(s); }
  }

  lemma EgoIsPart(n: nat, es: seq<int>, et: seq<int>, a: int, hops: int, k: nat)
    requires ValidEdges(n, es, et) && 0 <= a < n && k <= Scans(n, es, et, a, hops)
    ensures a in Elements(Found(es, et, a, k)) && Elements(Found(es, et, a, k)) <= BallOf(n, es, et, a, hops)
    ensures Elements(Found(es, et, a, k)) == BallOf(n, es, et, a, hops)
            <==> |Found(es, et, a, k)| == |BallOf(n, es, et, a, hops)|
  {
    var all := Scans(n, es, et, a, hops);
    AllScansFindBall(n, es, et, a, hops);
    FoundGrows(es, et, a, k, all);
    FoundMeans(es, et, a, all);
    FoundGrows(es, et, a, 0, k);
    assert Found(es, et, a, k)[0] == a;
    PrefixIsAll(Found(es, et, a, k), Found(es, et, a, all));
  }

  lemma LaterIsAll(n: nat, es: seq<int>, et: seq<int>, a: int, hops: int, k: nat, j: nat)
    requires ValidEdges(n, es, et) && 0 <= a < n && k <= j <= Scans(n, es, et, a, hops)
    requires |Found(es, et, a, k)| == |BallOf(n, es, et, a, hops)|
    ensures |Found(es, et, a, j)| == |BallOf(n, es, et, a, hops)|
  {
    AllScansFindBall(n, es, et, a, hops);
    FoundGrows(es, et, a, k, j);
    FoundGrows(es, et, a, j, Scans(n, es, et, a, hops));
  }

  /** The view shows the whole ball if and only if the cap is harmless. */
  lemma ExactIff(n: nat, es: seq<int>, et: seq<int>, a: int, hops: int, k: nat, out: set<int>)
    requires ValidEdges(n, es, et) && 0 <= a < n && IsEgo(n, es, et, a, hops, k, out)
    ensures a in out && out <= BallOf(n, es, et, a, hops)
    ensures out == BallOf(n, es, et, a, hops) <==> CapIsHarmless(n, es, et, a, hops)
  {
    EgoIsPart(n, es, et, a, hops, k);
    if out == BallOf(n, es, et, a, hops) {
      forall j | 0 <= j <= Scans(n, es, et, a, hops) && !UnderCap(es, et, a, j)
        ensures |Found(es, et, a, j)| == |BallOf(n, es, et, a, hops)|
      {
        LaterIsAll(n, es, et, a, hops, k, j);
      }
    } else if k == Scans(n, es, et, a, hops) {
      AllScansFindBall(n, es, et, a, hops);
    }
  }

  /** Up to 6000 nodes the cap is harmless, and within one hop whatever the size. */
  lemma SmallIsHarmless(n: nat, es: seq<int>, et: seq<int>, a: int, hops: int)
    requires ValidEdges(n, es, et) && 0 <= a < n
    ensures |BallOf(n, es, et, a, hops)| <= 6000 || hops <= 1 ==> CapIsHarmless(n, es, et, a, hops)
  {
    var all := Scans(n, es, et, a, hops);
    AllScansFindBall(n, es, et, a, hops);
    forall k | 0 <= k <= all && !UnderCap(es, et, a, k) && (|BallOf(n, es, et, a, hops)| <= 6000 || hops <= 1)
      ensures |Found(es, et, a, k)| == |BallOf(n, es, et, a, hops)|
    {
      FoundGrows(es, et, a, k, all);
    }
  }

  lemma CutInRing(es: seq<int>, et: seq<int>, a: int, inner: set<int>, m: nat, outer: set<int>, k: nat)
    requires |es| == |et| && RingDone(es, et, a, inner, m, outer) && k <= m && inner <= Elements(Found(es, et, a, k))
    ensures k <= |Found(es, et, a, k)| && Elements(Found(es, et, a, k)[..k]) <= inner
    ensures Elements(Found(es, et, a, k)) <= outer
    ensures IsReach(es, et, a, Found(es, et, a, k)[..k], Elements(Found(es, et, a, k)))
  {
    var found, all := Found(es, et, a, k), Found(es, et, a, m);
    FoundGrows(es, et, a, k, m);
    FoundMeans(es, et, a, k);
    Counted(found);
    SubsetSize(inner, Elements(found));
    assert found[..k] == all[..m][..k];
  }

  /** A search cut in ring `h` shows all nodes within `h` hops and the neighbours of the first
      nodes of the ring, in the order they were found. */
  lemma CutMeans(n: nat, es: seq<int>, et: seq<int>, a: int, h: nat, k: nat)
    requires ValidEdges(n, es, et) && 0 <= a < n
    requires Scans(n, es, et, a, h) <= k <= |Ball(n, es, et, a, h)|
    ensures k <= |Found(es, et, a, k)| && Elements(Found(es, et, a, k)[..k]) <= Ball(n, es, et, a, h)
    ensures Ball(n, es, et, a, h) <= Elements(Found(es, et, a, k)) <= Ball(n, es, et, a, h + 1)
    ensures IsReach(es, et, a, Found(es, et, a, k)[..k], Elements(Found(es, et, a, k)))
  {
    AllScansFindBall(n, es, et, a, h);
    FoundGrows(es, et, a, Scans(n, es, et, a, h), k);
    RingsDone(n, es, et, a, h);
    CutInRing(es, et, a, Ball(n, es, et, a, h), |Ball(n, es, et, a, h)|, Ball(n, es, et, a, h + 1), k);
  }

  // ---- the search ----

  lemma SlotInBlock(g: Csr, n: nat, es: seq<int>, et: seq<int>, u: int, p: int)
    requires IsIndex(g, n, es, et) && 0 <= u < n && g.off[u] <= p < g.off[u + 1]
    ensures g.off[u + 1] == g.off[u] + |BlockOf(es, et, u)|
    ensures 0 <= p < g.nb.Length && g.nb[p] == BlockOf(es, et, u)[p - g.off[u]].nb && 0 <= g.nb[p] < n
  {
    SlotIsIncident(g, n, es, et, u, p);
    var q := p - g.off[u];
    assert BlockPlaced(g.nb[..], g.eid[..], g.dir[..], es, et, 2 * |es|, u);
    assert SlotAt(g.nb[..], g.eid[..], g.dir[..], g.off[u] + q, BlockOf(es, et, u)[q]);
  }

  lemma BlockEnds(g: Csr, n: nat, es: seq<int>, et: seq<int>, u: int)
    requires IsIndex(g, n, es, et) && 0 <= u < n
    ensures g.off[u + 1] == g.off[u] + |BlockOf(es, et, u)|
  {
  }

  lemma ElementsNext(s: seq<int>, v: int)
    ensures Elements(s + [v]) == Elements(s) + {v}
  {
  }

  /** Scans the block of one node: what is new is shown, and waits to be scanned. */
  method EgoScan(g: Csr, n: nat, ghost es: seq<int>, ghost et: seq<int>, out: set<int>, u: int, next: seq<int>, ghost found: seq<int>)
    returns (out': set<int>, next': seq<int>, ghost found': seq<int>)
    requires IsIndex(g, n, es, et) && 0 <= u < n && out == Elements(found)
    requires forall v :: v in out ==> 0 <= v < n
    ensures found' == Follow(BlockOf(es, et, u), |BlockOf(es, et, u)|, found) && found <= found'
    ensures out' == Elements(found') && next' == next + found'[|found|..] && forall v :: v in out' ==> 0 <= v < n
  {
    out', next', found' := out, next, found;
    BlockEnds(g, n, es, et, u);
    var p := g.off[u];
    while p < g.off[u + 1]
      invariant g.off[u] <= p <= g.off[u + 1]
      invariant found' == Follow(BlockOf(es, et, u), p - g.off[u], found) && found <= found'
      invariant out' == Elements(found') && next' == next + found'[|found|..] && forall v :: v in out' ==> 0 <= v < n
    {
      SlotInBlock(g, n, es, et, u, p);
      var v := g.nb[p];
      if v !in out' {
        ElementsNext(found', v);
        out', next', found' := out' + {v}, next' + [v], found' + [v];
      }
      p := p + 1;
    }
  }

  /** So far: `c` nodes scanned, and the nodes waiting are those found and not scanned. */
  ghost predicate Searching(n: nat, es: seq<int>, et: seq<int>, a: int, c: nat, out: set<int>, waiting: seq<int>)
    requires |es| == |et|
  {
    && c <= |Found(es, et, a, c)| && waiting == Found(es, et, a, c)[c..]
    && out == Elements(Found(es, et, a, c)) && forall v :: v in out ==> 0 <= v < n
  }

  lemma SearchNext(n: nat, es: seq<int>, et: seq<int>, a: int, c: nat, out: set<int>, u: int, rest: seq<int>,
                   found: seq<int>, out': set<int>, added: seq<int>)
    requires |es| == |et| && Searching(n, es, et, a, c, out, [u] + rest)
    requires found == Follow(BlockOf(es, et, u), |BlockOf(es, et, u)|, Found(es, et, a, c)) && Found(es, et, a, c) <= found
    requires out' == Elements(found) && added == found[|Found(es, et, a, c)|..] && forall v :: v in out' ==> 0 <= v < n
    ensures Searching(n, es, et, a, c + 1, out', rest + added)
  {
    var before := Found(es, et, a, c);
    assert before[c] == ([u] + rest)[0] == u;
    assert Found(es, et, a, c + 1) == found;
    assert found == before + added;
    assert before[c..] == [u] + rest;
    assert found[c + 1..] == before[c + 1..] + added;
    assert before[c + 1..] == before[c..][1..];
  }

  lemma StillWithin(n: nat, es: seq<int>, et: seq<int>, a: int, c: nat, out: set<int>, waiting: seq<int>)
    requires |es| == |et| && Searching(n, es, et, a, c, out, waiting)
    ensures |out| == |Found(es, et, a, c)|
    ensures |out| <= EGO_CAP ==> forall j :: 0 <= j <= c ==> UnderCap(es, et, a, j)
  {
    FoundMeans(es, et, a, c);
    Counted(Found(es, et, a, c));
    forall j | 0 <= j <= c && |out| <= EGO_CAP ensures UnderCap(es, et, a, j) { FoundGrows(es, et, a, j, c); }
  }

  /** When a level has been scanned, as many nodes have been scanned as the level before had found. */
  lemma LevelCount(n: nat, es: seq<int>, et: seq<int>, a: int, h: nat, out: set<int>, frontier: seq<int>)
    requires ValidEdges(n, es, et) && 0 <= a < n && Searching(n, es, et, a, Scans(n, es, et, a, h), out, frontier)
    ensures Scans(n, es, et, a, h) + |frontier| == Scans(n, es, et, a, h + 1)
  {
    AllScansFindBall(n, es, et, a, h);
  }

  lemma NothingNew(n: nat, es: seq<int>, et: seq<int>, a: int, h: nat, c: nat)
    requires ValidEdges(n, es, et) && 0 <= a < n && c == |Ball(n, es, et, a, h)|
    requires Elements(Found(es, et, a, c)) == Ball(n, es, et, a, h)
    ensures Ball(n, es, et, a, h) == Ball(n, es, et, a, h + 1)
  {
    RingsDone(n, es, et, a, h);
    UncutRing(es, et, a, Ball(n, es, et, a, h), c, Ball(n, es, et, a, h + 1));
  }

  lemma NothingWaits(n: nat, es: seq<int>, et: seq<int>, a: int, h: nat, c: nat, out: set<int>)
    requires ValidEdges(n, es, et) && 0 <= a < n && c == Scans(n, es, et, a, h) && Searching(n, es, et, a, c, out, [])
    ensures c == |Ball(n, es, et, a, h)| && Elements(Found(es, et, a, c)) == Ball(n, es, et, a, h)
  {
    AllScansFindBall(n, es, et, a, h);
  }

  lemma SameSize(n: nat, es: seq<int>, et: seq<int>, a: int, h: nat, k: nat)
    requires |es| == |et| && h <= k && Ball(n, es, et, a, h) == Ball(n, es, et, a, h + 1)
    ensures |Ball(n, es, et, a, k)| == |Ball(n, es, et, a, h)|
  {
    BallStops(n, es, et, a, h, k);
  }

  lemma ScansOf(n: nat, es: seq<int>, et: seq<int>, a: int, k: nat, size: nat)
    requires |es| == |et| && size == |Ball(n, es, et, a, k)|
    ensures Scans(n, es, et, a, k + 1) == size
  {
  }

  lemma NothingMore(n: nat, es: seq<int>, et: seq<int>, a: int, h: nat, c: nat, k: nat)
    requires ValidEdges(n, es, et) && 0 <= a < n && c == |Ball(n, es, et, a, h)| && h <= k
    requires Elements(Found(es, et, a, c)) == Ball(n, es, et, a, h)
    ensures Scans(n, es, et, a, k + 1) == c
  {
    NothingNew(n, es, et, a, h, c);
    SameSize(n, es, et, a, h, k);
    ScansOf(n, es, et, a, k, c);
  }

  /** Nothing waiting: later levels scan nothing more. */
  lemma LevelStops(n: nat, es: seq<int>, et: seq<int>, a: int, h: nat, c: nat, out: set<int>, hops: int)
    requires ValidEdges(n, es, et) && 0 <= a < n && c == Scans(n, es, et, a, h) && Searching(n, es, et, a, c, out, []) && h < hops
    ensures Scans(n, es, et, a, hops) == c
  {
    NothingWaits(n, es, et, a, h, c, out);
    NothingMore(n, es, et, a, h, c, hops - 1);
  }

  method ScanOne(g: Csr, n: nat, ghost es: seq<int>, ghost et: seq<int>, ghost a: int, out: set<int>,
                 frontier: seq<int>, f: nat, next: seq<int>, ghost k: nat)
    returns (out': set<int>, next': seq<int>)
    requires IsIndex(g, n, es, et) && f < |frontier| && Searching(n, es, et, a, k, out, frontier[f..] + next)
    ensures Searching(n, es, et, a, k + 1, out', frontier[f + 1..] + next')
  {
    var u := frontier[f];
    ghost var found := Found(es, et, a, k);
    assert frontier[f..] + next == [u] + (frontier[f + 1..] + next);
    assert found[k] == (frontier[f..] + next)[0] == u;
    assert u in out;
    ghost var found';
    out', next', found' := EgoScan(g, n, es, et, out, u, next, found);
    ghost var added := found'[|found|..];
    SearchNext(n, es, et, a, k, out, u, frontier[f + 1..] + next, found', out', added);
    assert frontier[f + 1..] + next + added == frontier[f + 1..] + next';
  }

  lemma MoreHopsMoreScans(n: nat, es: seq<int>, et: seq<int>, a: int, h: nat, hops: int)
    requires |es| == |et| && h <= hops
    ensures Scans(n, es, et, a, h) <= Scans(n, es, et, a, hops)
  {
    if h > 0 {
      BallGrows(n, es, et, a, h - 1, hops - 1);
      SubsetSize(Ball(n, es, et, a, h - 1), Ball(n, es, et, a, hops - 1));
    }
  }

  /** This scan is the first that leaves more than 6000 nodes found. */
  ghost predicate CutAt(es: seq<int>, et: seq<int>, a: int, k: nat)
    requires |es| == |et|
  {
    !UnderCap(es, et, a, k) && forall j :: 0 <= j < k ==> UnderCap(es, et, a, j)
  }

  lemma CutStops(n: nat, es: seq<int>, et: seq<int>, a: int, k: nat, out: set<int>, waiting: seq<int>,
                 out': set<int>, waiting': seq<int>)
    requires |es| == |et| && Searching(n, es, et, a, k, out, waiting) && |out| <= EGO_CAP
    requires Searching(n, es, et, a, k + 1, out', waiting') && |out'| > EGO_CAP
    ensures CutAt(es, et, a, k + 1)
  {
    StillWithin(n, es, et, a, k, out, waiting);
    StillWithin(n, es, et, a, k + 1, out', waiting');
  }

  /** Scans the nodes of one level, unless more than 6000 nodes have been found before the last. */
  method ScanLevel(g: Csr, n: nat, ghost es: seq<int>, ghost et: seq<int>, ghost a: int, ghost start: nat,
                   out: set<int>, frontier: seq<int>)
    returns (out': set<int>, next: seq<int>, cut: bool, ghost k: nat)
    requires IsIndex(g, n, es, et) && |out| <= EGO_CAP && Searching(n, es, et, a, start, out, frontier)
    ensures k <= start + |frontier|
    ensures cut ==> CutAt(es, et, a, k) && out' == Elements(Found(es, et, a, k))
    ensures !cut ==> k == start + |frontier| && |out'| <= EGO_CAP && Searching(n, es, et, a, k, out', next)
  {
    out', next, cut, k := out, [], false, start;
    var f := 0;
    assert frontier[f..] + next == frontier;
    while f < |frontier|
      invariant 0 <= f <= |frontier| && k == start + f && |out'| <= EGO_CAP
      invariant Searching(n, es, et, a, k, out', frontier[f..] + next)
    {
      ghost var before, waiting := out', frontier[f..] + next;
      out', next := ScanOne(g, n, es, et, a, out', frontier, f, next, k);
      f, k := f + 1, k + 1;
      if |out'| > EGO_CAP {
        CutStops(n, es, et, a, k - 1, before, waiting, out', frontier[f..] + next);
        cut := true;
        return;
      }
    }
    assert frontier[f..] + next == next;
  }

  lemma SearchEnds(n: nat, es: seq<int>, et: seq<int>, a: int, h: nat, hops: int, out: set<int>, frontier: seq<int>)
    requires ValidEdges(n, es, et) && 0 <= a < n && Searching(n, es, et, a, Scans(n, es, et, a, h), out, frontier)
    requires |out| <= EGO_CAP && (h == (if hops > 0 then hops else 0) || (h < hops && frontier == []))
    ensures IsEgo(n, es, et, a, hops, Scans(n, es, et, a, h), out)
  {
    StillWithin(n, es, et, a, Scans(n, es, et, a, h), out, frontier);
    if h < hops { LevelStops(n, es, et, a, h, Scans(n, es, et, a, h), out, hops); }
  }

  /** The scans of one level lie between those of the levels before and the limit. */
  lemma LevelBounds(n: nat, es: seq<int>, et: seq<int>, a: int, h: nat, hops: int, out: set<int>, frontier: seq<int>)
    returns (start: nat, stop: nat)
    requires ValidEdges(n, es, et) && 0 <= a < n && h < hops && Searching(n, es, et, a, Scans(n, es, et, a, h), out, frontier)
    ensures start == Scans(n, es, et, a, h) && stop == Scans(n, es, et, a, h + 1)
    ensures start + |frontier| == stop <= Scans(n, es, et, a, hops)
  {
    LevelCount(n, es, et, a, h, out, frontier);
    MoreHopsMoreScans(n, es, et, a, h + 1, hops);
    start, stop := Scans(n, es, et, a, h), Scans(n, es, et, a, h + 1);
  }

  lemma CutIsEgo(n: nat, es: seq<int>, et: seq<int>, a: int, hops: int, k: nat, out: set<int>)
    requires |es| == |et| && CutAt(es, et, a, k) && k <= Scans(n, es, et, a, hops) && out == Elements(Found(es, et, a, k))
    ensures IsEgo(n, es, et, a, hops, k, out)
  {
  }

  method NextLevel(g: Csr, n: nat, ghost es: seq<int>, ghost et: seq<int>, ghost a: int, ghost start: nat, ghost stop: nat,
                   ghost limit: nat, out: set<int>, frontier: seq<int>)
    returns (out': set<int>, next: seq<int>, cut: bool, ghost k: nat)
    requires IsIndex(g, n, es, et) && |out| <= EGO_CAP && start + |frontier| == stop <= limit
    requires Searching(n, es, et, a, start, out, frontier)
    ensures cut ==> CutAt(es, et, a, k) && k <= limit && out' == Elements(Found(es, et, a, k))
    ensures !cut ==> |out'| <= EGO_CAP && Searching(n, es, et, a, stop, out', next)
  {
    out', next, cut, k := ScanLevel(g, n, es, et, a, start, out, frontier);
  }

  /** All nodes within `hops` edges, the search stopping once it has found more than 6000. */
  method EgoSet(g: Csr, n: nat, ghost es: seq<int>, ghost et: seq<int>, node: int, hops: int)
    returns (out: set<int>)
    requires IsIndex(g, n, es, et) && 0 <= node < n
    ensures exists k: nat :: IsEgo(n, es, et, node, hops, k, out)
  {
    out := {node};
    var frontier := [node];
    assert Found(es, et, node, 0) == [node];
    var h := 0;
    while h < hops && |frontier| > 0
      invariant 0 <= h && (h <= hops || h == 0) && |out| <= EGO_CAP
      invariant Searching(n, es, et, node, Scans(n, es, et, node, h), out, frontier)
      decreases hops - h
    {
      var cut;
      ghost var k;
      ghost var start, stop := LevelBounds(n, es, et, node, h, hops, out, frontier);
      out, frontier, cut, k := NextLevel(g, n, es, et, node, start, stop, Scans(n, es, et, node, hops), out, frontier);
      if cut {
        CutIsEgo(n, es, et, node, hops, k, out);
        return;
      }
      h := h + 1;
    }
    SearchEnds(n, es, et, node, h, hops, out, frontier);
  }

  // ---- where the cap hides nodes ----

  /** Node 0 is linked to the hubs 1 and 2, and each hub to `m` nodes of its own. */
  function HubSources(m: nat): (s: seq<int>)
    ensures |s| == 2 + 2 * m
  {
    seq(2 + 2 * m, e requires 0 <= e < 2 + 2 * m => if e < 2 then 0 else if e < 2 + m then 1 else 2)
  }

  function HubTargets(m: nat): (t: seq<int>)
    ensures |t| == 2 + 2 * m
  {
    seq(2 + 2 * m, e => e + 1)
  }

  function HubNodes(m: nat): nat { 3 + 2 * m }

  lemma HubsValid(m: nat)
    ensures ValidEdges(HubNodes(m), HubSources(m), HubTargets(m))
  {
  }

  /** The own nodes of a hub. */
  predicate OwnedBy(m: nat, hub: int, v: int) {
    if hub == 1 then 3 <= v < 3 + m else 3 + m <= v < 3 + 2 * m
  }

  lemma RootNeighbours(m: nat, v: int)
    ensures Adjacent(HubSources(m), HubTargets(m), 0, v) <==> v == 1 || v == 2
  {
    if v == 1 || v == 2 { assert Incident(HubSources(m), HubTargets(m), v - 1, 0, v); }
  }

  lemma HubNeighbours(m: nat, hub: int, v: int)
    requires hub == 1 || hub == 2
    ensures Adjacent(HubSources(m), HubTargets(m), hub, v) <==> v == 0 || OwnedBy(m, hub, v)
  {
    if v == 0 { assert Incident(HubSources(m), HubTargets(m), hub - 1, hub, v); }
    if OwnedBy(m, hub, v) { assert Incident(HubSources(m), HubTargets(m), v - 1, hub, v); }
  }

  /** The root, the hubs and the `m` nodes from `lo` on. */
  function HubList(lo: int, m: nat): (r: seq<int>)
    ensures |r| == m + 3 && forall i :: 0 <= i < m + 3 ==> r[i] == if i < 3 then i else lo + i - 3
  {
    seq(m + 3, i => if i < 3 then i else lo + i - 3)
  }

  /** The first scan finds the two hubs. */
  lemma HubsFound(m: nat)
    ensures var found := Found(HubSources(m), HubTargets(m), 0, 1);
      |found| == 3 && found[0] == 0 && Elements(found) == {0, 1, 2}
  {
    var es, et := HubSources(m), HubTargets(m);
    var found := Found(es, et, 0, 1);
    FoundGrows(es, et, 0, 0, 1);
    FoundMeans(es, et, 0, 1);
    assert found[0] == Found(es, et, 0, 0)[0] == 0;
    forall v ensures v in Elements(found) <==> v in {0, 1, 2} {
      RootNeighbours(m, v);
      assert NextTo(es, et, found[..1], v) <==> Adjacent(es, et, 0, v) by { NextToOne(es, et, found[..1], v); }
    }
    assert Elements(found) == {0, 1, 2};
    Counted(found);
  }

  lemma NextToOne(es: seq<int>, et: seq<int>, scanned: seq<int>, v: int)
    requires |es| == |et| && |scanned| == 1
    ensures NextTo(es, et, scanned, v) <==> Adjacent(es, et, scanned[0], v)
  {
  }

  /** The second scan finds the nodes of one hub. */
  lemma OneHubFound(m: nat) returns (hub: int)
    ensures hub == 1 || hub == 2
    ensures var found := Found(HubSources(m), HubTargets(m), 0, 2);
      NoRepeats(found) && forall v :: v in found <==> v in {0, 1, 2} || OwnedBy(m, hub, v)
  {
    var es, et := HubSources(m), HubTargets(m);
    var found := Found(es, et, 0, 2);
    HubsFound(m);
    FoundGrows(es, et, 0, 1, 2);
    FoundMeans(es, et, 0, 2);
    hub := found[1];
    assert hub == Found(es, et, 0, 1)[1];
    assert found[0] == 0 && hub in Elements(Found(es, et, 0, 1)) && hub != 0 by { FoundMeans(es, et, 0, 1); }
    assert found[..2] == [0] + [hub];
    forall v ensures v in Elements(found) <==> v in {0, 1, 2} || OwnedBy(m, hub, v) {
      NextToMore(es, et, [0], hub, v);
      NextToOne(es, et, [0], v);
      RootNeighbours(m, v);
      HubNeighbours(m, hub, v);
    }
  }

  lemma HubPassesCap(m: nat, hub: int, found: seq<int>)
    requires m + 3 > 6000 && (hub == 1 || hub == 2) && NoRepeats(found)
    requires forall v :: v in found <==> v in {0, 1, 2} || OwnedBy(m, hub, v)
    ensures |found| > 6000
  {
    var lo := if hub == 1 then 3 else 3 + m;
    var list := HubList(lo, m);
    forall v ensures v in Elements(found) <==> v in Elements(list) {
      if OwnedBy(m, hub, v) { assert list[v - lo + 3] == v; }
      assert list[0] == 0 && list[1] == 1 && list[2] == 2;
    }
    assert Elements(found) == Elements(list);
    Counted(found);
    Counted(list);
  }

  lemma HubsWithinTwo(m: nat, hub: int, v: int)
    requires (hub == 1 || hub == 2) && OwnedBy(m, hub, v)
    ensures v in BallOf(HubNodes(m), HubSources(m), HubTargets(m), 0, 2)
    ensures Scans(HubNodes(m), HubSources(m), HubTargets(m), 0, 2) == 3
  {
    var n, es, et := HubNodes(m), HubSources(m), HubTargets(m);
    HubsValid(m);
    HubsFound(m);
    AllScansFindBall(n, es, et, 0, 1);
    assert Ball(n, es, et, 0, 0) == {0};
    assert Ball(n, es, et, 0, 1) == {0, 1, 2};
    HubNeighbours(m, hub, v);
    assert Touches(es, et, Ball(n, es, et, 0, 1), v);
  }

  /** With two hubs of 5998 nodes or more, two hops from the root, the cap hides the nodes of one hub. */
  lemma CapHidesNodes(m: nat, k: nat, out: set<int>)
    requires m + 3 > 6000 && IsEgo(HubNodes(m), HubSources(m), HubTargets(m), 0, 2, k, out)
    ensures out != BallOf(HubNodes(m), HubSources(m), HubTargets(m), 0, 2)
    ensures !CapIsHarmless(HubNodes(m), HubSources(m), HubTargets(m), 0, 2)
  {
    var n, es, et := HubNodes(m), HubSources(m), HubTargets(m);
    HubsValid(m);
    var hub := OneHubFound(m);
    var found := Found(es, et, 0, 2);
    HubPassesCap(m, hub, found);
    var other := if hub == 1 then 2 else 1;
    var hidden := if other == 1 then 3 else 3 + m;
    HubsWithinTwo(m, other, hidden);
    AllScansFindBall(n, es, et, 0, 2);
    FoundGrows(es, et, 0, 2, 3);
    FoundMeans(es, et, 0, 3);
    PrefixIsAll(found, Found(es, et, 0, 3));
    assert hidden !in found && !UnderCap(es, et, 0, 2);
    ExactIff(n, es, et, 0, 2, k, out);
  }
}
