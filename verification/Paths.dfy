/** Bounded breadth-first search over the explorer's adjacency index. */
module Paths {
  import opened Common
  import opened Adjacency

  datatype Path = Path(nodes: seq<int>, edges: seq<int>)

  // ---- what a path is, without the index ----

  /** A walk: `edges[k]` joins `nodes[k]` and `nodes[k + 1]`, in either direction. */
  ghost predicate IsWalk(es: seq<int>, et: seq<int>, p: Path)
    requires |es| == |et|
  {
    |p.nodes| == |p.edges| + 1
    && forall k :: 0 <= k < |p.edges| ==> Incident(es, et, p.edges[k], p.nodes[k], p.nodes[k + 1])
  }

  ghost predicate Joins(es: seq<int>, et: seq<int>, p: Path, a: int, b: int)
    requires |es| == |et|
  {
    IsWalk(es, et, p) && p.nodes[0] == a && p.nodes[|p.nodes| - 1] == b
  }

  ghost predicate Adjacent(es: seq<int>, et: seq<int>, u: int, v: int)
    requires |es| == |et|
  {
    exists e :: Incident(es, et, e, u, v)
  }

  ghost predicate Touches(es: seq<int>, et: seq<int>, inner: set<int>, v: int)
    requires |es| == |et|
  {
    exists u :: u in inner && Adjacent(es, et, u, v)
  }

  /** These nodes and their neighbours. */
  ghost function Grow(n: nat, es: seq<int>, et: seq<int>, inner: set<int>): set<int>
    requires |es| == |et|
  {
    inner + (set v | 0 <= v < n && Touches(es, et, inner, v))
  }

  /** The nodes within `k` edges of `a`. */
  ghost function Ball(n: nat, es: seq<int>, et: seq<int>, a: int, k: nat): set<int>
    requires |es| == |et|
  {
    if k == 0 then {a} else Grow(n, es, et, Ball(n, es, et, a, k - 1))
  }

  lemma {:induction false} BallGrows(n: nat, es: seq<int>, et: seq<int>, a: int, j: nat, k: nat)
    requires |es| == |et| && j <= k
    ensures Ball(n, es, et, a, j) <= Ball(n, es, et, a, k)
    decreases k
  {
    if j < k { BallGrows(n, es, et, a, j, k - 1); }
  }

  /** A walk of `k` edges ends within `k` edges. */
  lemma {:induction false} WalkStaysInBall(n: nat, es: seq<int>, et: seq<int>, p: Path, a: int, b: int)
    requires ValidEdges(n, es, et) && Joins(es, et, p, a, b)
    ensures b in Ball(n, es, et, a, |p.edges|)
    decreases |p.edges|
  {
    var k := |p.edges|;
    if k > 0 {
      var q := Path(p.nodes[..k], p.edges[..k - 1]);
      WalkStaysInBall(n, es, et, q, a, p.nodes[k - 1]);
      assert Incident(es, et, p.edges[k - 1], p.nodes[k - 1], p.nodes[k]);
      assert Adjacent(es, et, p.nodes[k - 1], b);
    }
  }

  /** Once a ring is empty, the ball has stopped growing. */
  lemma {:induction false} BallStops(n: nat, es: seq<int>, et: seq<int>, a: int, h: nat, k: nat)
    requires |es| == |et| && h <= k && Ball(n, es, et, a, h) == Ball(n, es, et, a, h + 1)
    ensures Ball(n, es, et, a, k) == Ball(n, es, et, a, h)
    decreases k
  {
    if h < k {
      var last := k - 1;
      BallStops(n, es, et, a, h, last);
    }
  }

  // ---- the index lists exactly the neighbours ----

  lemma SlotIsIncident(g: Csr, n: nat, es: seq<int>, et: seq<int>, u: int, p: int)
    requires IsIndex(g, n, es, et) && 0 <= u < n && g.off[u] <= p < g.off[u + 1]
    ensures 0 <= p < g.nb.Length && 0 <= g.nb[p] < n && Incident(es, et, g.eid[p], u, g.nb[p])
  {
    var q := p - g.off[u];
    StartTotal(n, es, et, 2 * |es|);
    StartMonotone(es, et, 2 * |es|, u, u + 1);
    if u + 1 < n { StartMonotone(es, et, 2 * |es|, u + 1, n); }
    assert BlockPlaced(g.nb[..], g.eid[..], g.dir[..], es, et, 2 * |es|, u);
    var block := Block(es, et, 2 * |es|, u);
    assert SlotAt(g.nb[..], g.eid[..], g.dir[..], g.off[u] + q, block[q]);
    BlockSound(es, et, 2 * |es|, u, q);
  }

  lemma NeighbourInBlock(es: seq<int>, et: seq<int>, u: int, v: int) returns (q: nat)
    requires |es| == |et| && Adjacent(es, et, u, v)
    ensures q < |Block(es, et, 2 * |es|, u)| && Block(es, et, 2 * |es|, u)[q].nb == v
  {
    var e :| Incident(es, et, e, u, v);
    var h := if es[e] == u && et[e] == v then 2 * e else 2 * e + 1;
    BlockComplete(es, et, 2 * |es|, u, h);
    q :| 0 <= q < |Block(es, et, 2 * |es|, u)| && Block(es, et, 2 * |es|, u)[q] == SlotOf(es, et, h);
  }

  lemma BlockHasSlot(g: Csr, n: nat, es: seq<int>, et: seq<int>, u: int, q: nat)
    requires IsIndex(g, n, es, et) && 0 <= u < n && q < |Block(es, et, 2 * |es|, u)|
    ensures g.off[u] <= g.off[u] + q < g.off[u + 1] && 0 <= g.off[u] + q < g.nb.Length
    ensures g.nb[g.off[u] + q] == Block(es, et, 2 * |es|, u)[q].nb
  {
    assert BlockPlaced(g.nb[..], g.eid[..], g.dir[..], es, et, 2 * |es|, u);
    assert SlotAt(g.nb[..], g.eid[..], g.dir[..], g.off[u] + q, Block(es, et, 2 * |es|, u)[q]);
  }

  lemma NeighbourHasSlot(g: Csr, n: nat, es: seq<int>, et: seq<int>, u: int, v: int)
    requires IsIndex(g, n, es, et) && 0 <= u < n && Adjacent(es, et, u, v)
    ensures exists p :: g.off[u] <= p < g.off[u + 1] && 0 <= p < g.nb.Length && g.nb[p] == v
  {
    var q := NeighbourInBlock(es, et, u, v);
    BlockHasSlot(g, n, es, et, u, q);
  }

  // ---- the search tree ----

  predicate Reached(prev: seq<int>, v: int) {
    0 <= v < |prev| && prev[v] != -2
  }

  /** A reached node other than the start hangs one level below an incident parent. */
  predicate Linked(es: seq<int>, et: seq<int>, prev: seq<int>, prevE: seq<int>, depth: seq<nat>, v: int)
    requires |es| == |et| && |prev| == |prevE| == |depth| && 0 <= v < |prev|
  {
    && Reached(prev, prev[v]) && Incident(es, et, prevE[v], prev[v], v)
    && depth[v] == depth[prev[v]] + 1
  }

  ghost predicate IsTree(n: nat, es: seq<int>, et: seq<int>, a: int, prev: seq<int>, prevE: seq<int>, depth: seq<nat>) {
    && |es| == |et| && |prev| == |prevE| == |depth| == n && 0 <= a < n
    && prev[a] == -1 && prevE[a] == -1 && depth[a] == 0
    && forall v :: Reached(prev, v) && v != a ==> Linked(es, et, prev, prevE, depth, v)
  }

  /** Reaching one more node from a reached one keeps the tree. */
  lemma TreeGrows(n: nat, es: seq<int>, et: seq<int>, a: int, prev: seq<int>, prevE: seq<int>, depth: seq<nat>,
                  u: int, v: int, e: int)
    requires IsTree(n, es, et, a, prev, prevE, depth) && Reached(prev, u) && 0 <= v < n && prev[v] == -2
    requires Incident(es, et, e, u, v)
    ensures IsTree(n, es, et, a, prev[v := u], prevE[v := e], depth[v := depth[u] + 1])
  {
    var prev', prevE', depth' := prev[v := u], prevE[v := e], depth[v := depth[u] + 1];
    forall w | Reached(prev', w) && w != a ensures Linked(es, et, prev', prevE', depth', w) {
      if w != v { assert Reached(prev, w) && Linked(es, et, prev, prevE, depth, w); }
    }
  }

  // ---- reading a path off the tree ----

  function Reverse(s: seq<int>): (r: seq<int>)
    ensures |r| == |s|
    ensures forall k :: 0 <= k < |s| ==> r[k] == s[|s| - 1 - k]
  {
    seq(|s|, k requires 0 <= k < |s| => s[|s| - 1 - k])
  }

  lemma ReversedWalk(es: seq<int>, et: seq<int>, nodes: seq<int>, edges: seq<int>)
    requires |es| == |et| && |nodes| == |edges| + 1
    requires forall k :: 0 <= k < |edges| ==> Incident(es, et, edges[k], nodes[k + 1], nodes[k])
    ensures Joins(es, et, Path(Reverse(nodes), Reverse(edges)), nodes[|nodes| - 1], nodes[0])
  {
    var p := Path(Reverse(nodes), Reverse(edges));
    forall k | 0 <= k < |p.edges| ensures Incident(es, et, p.edges[k], p.nodes[k], p.nodes[k + 1]) {
      assert Incident(es, et, edges[|edges| - 1 - k], nodes[|edges| - 1 - k + 1], nodes[|edges| - 1 - k]);
    }
  }

  method TracePath(n: nat, ghost es: seq<int>, ghost et: seq<int>, ghost a: int, b: int,
                   prev: array<int>, prevE: array<int>, ghost depth: seq<nat>) returns (p: Path)
    requires IsTree(n, es, et, a, prev[..], prevE[..], depth) && Reached(prev[..], b)
    ensures Joins(es, et, p, a, b) && |p.edges| == depth[b]
  {
    var nodes: seq<int>, edges: seq<int> := [], [];
    var x := b;
    while x != -1
      invariant -1 <= x < n
      invariant x != -1 ==> Reached(prev[..], x) && |edges| == |nodes| && depth[x] + |nodes| == depth[b]
      invariant x != -1 && nodes == [] ==> x == b
      invariant x != -1 && nodes != [] ==> Incident(es, et, edges[|nodes| - 1], x, nodes[|nodes| - 1])
      invariant x == -1 ==> |nodes| == |edges| + 1 == depth[b] + 1 && nodes[|nodes| - 1] == a
      invariant nodes != [] ==> nodes[0] == b
      invariant forall k :: 0 <= k < |edges| && k + 1 < |nodes| ==> Incident(es, et, edges[k], nodes[k + 1], nodes[k])
      invariant |nodes| <= |edges| + 1
      decreases if x == -1 then 0 else depth[x] + 1
    {
      assert x != a ==> Linked(es, et, prev[..], prevE[..], depth, x);
      nodes := nodes + [x];
      if prevE[x] >= 0 { edges := edges + [prevE[x]]; }
      x := prev[x];
    }
    ReversedWalk(es, et, nodes, edges);
    p := Path(Reverse(nodes), Reverse(edges));
  }

  // ---- one level of the search ----

  ghost function Seen(prev: seq<int>): set<int> {
    set v | 0 <= v < |prev| && prev[v] != -2
  }

  /** All neighbours of `u` have been reached. */
  ghost predicate Expanded(n: nat, es: seq<int>, et: seq<int>, seen: set<int>, u: int)
    requires |es| == |et|
  {
    forall v :: 0 <= v < n && Adjacent(es, et, u, v) ==> v in seen
  }

  /** Between two levels: `seen` contains the ball and the fresh nodes `next`, and every
      ball node that is not waiting in `todo` is expanded. */
  ghost predicate Level(n: nat, es: seq<int>, et: seq<int>, a: int, h: nat, seen: set<int>, todo: seq<int>, next: seq<int>)
    requires |es| == |et|
  {
    var ball := Ball(n, es, et, a, h);
    && ball <= seen <= Ball(n, es, et, a, h + 1)
    && (forall v :: v in seen ==> v in ball || v in next)
    && (forall v :: v in next ==> v in seen)
    && (forall v :: v in todo ==> v in ball)
    && (forall u :: u in ball && u !in todo ==> Expanded(n, es, et, seen, u))
  }

  lemma LevelDone(n: nat, es: seq<int>, et: seq<int>, a: int, h: nat, seen: set<int>, next: seq<int>)
    requires |es| == |et| && Level(n, es, et, a, h, seen, [], next)
    ensures seen == Ball(n, es, et, a, h + 1)
    ensures Level(n, es, et, a, h + 1, seen, next, [])
  {
    var ball := Ball(n, es, et, a, h);
    forall v | v in Ball(n, es, et, a, h + 1) ensures v in seen {
      if v !in ball {
        var u :| u in ball && Adjacent(es, et, u, v);
        assert Expanded(n, es, et, seen, u);
      }
    }
    BallGrows(n, es, et, a, h + 1, h + 2);
    forall u | u in seen && u !in next ensures Expanded(n, es, et, seen, u) { assert u in ball; }
  }

  /** Nothing waiting means nothing new at this level or any later one. */
  lemma LevelEmpty(n: nat, es: seq<int>, et: seq<int>, a: int, h: nat, seen: set<int>, k: nat)
    requires |es| == |et| && Level(n, es, et, a, h, seen, [], []) && h <= k
    ensures seen == Ball(n, es, et, a, h) == Ball(n, es, et, a, k)
  {
    LevelDone(n, es, et, a, h, seen, []);
    BallStops(n, es, et, a, h, k);
  }

  lemma StartLevel(n: nat, es: seq<int>, et: seq<int>, a: int)
    requires |es| == |et|
    ensures Level(n, es, et, a, 0, {a}, [a], [])
  {
    BallGrows(n, es, et, a, 0, 1);
  }

  lemma LevelReach(n: nat, es: seq<int>, et: seq<int>, a: int, h: nat, seen: set<int>,
                   todo: seq<int>, next: seq<int>, u: int, v: int)
    requires |es| == |et| && Level(n, es, et, a, h, seen, todo, next)
    requires u in Ball(n, es, et, a, h) && 0 <= v < n && Adjacent(es, et, u, v)
    ensures Level(n, es, et, a, h, seen + {v}, todo, next + [v])
  {
    forall w | w in Ball(n, es, et, a, h) && w !in todo ensures Expanded(n, es, et, seen + {v}, w) {
      assert Expanded(n, es, et, seen, w);
    }
  }

  lemma LevelAdvance(n: nat, es: seq<int>, et: seq<int>, a: int, h: nat, seen: set<int>, todo: seq<int>, next: seq<int>)
    requires |es| == |et| && todo != [] && Level(n, es, et, a, h, seen, todo, next)
    requires Expanded(n, es, et, seen, todo[0])
    ensures Level(n, es, et, a, h, seen, todo[1..], next)
  {
    forall u | u in Ball(n, es, et, a, h) && u !in todo[1..] ensures Expanded(n, es, et, seen, u) {
      if u != todo[0] { assert u !in todo; }
    }
  }

  /** The slots of `u` below `p` lead to reached nodes. */
  ghost predicate Scanned(g: Csr, u: int, p: int, seen: set<int>)
    reads g.off, g.nb
  {
    && 0 <= u < g.off.Length
    && forall q :: 0 <= q < g.nb.Length && g.off[u] <= q < p ==> g.nb[q] in seen
  }

  lemma ScannedAll(g: Csr, n: nat, es: seq<int>, et: seq<int>, u: int, seen: set<int>)
    requires IsIndex(g, n, es, et) && 0 <= u < n && Scanned(g, u, g.off[u + 1], seen)
    ensures Expanded(n, es, et, seen, u)
  {
    forall v | 0 <= v < n && Adjacent(es, et, u, v) ensures v in seen {
      NeighbourHasSlot(g, n, es, et, u, v);
    }
  }

  lemma SeenReach(prev: seq<int>, v: int, u: int)
    requires 0 <= v < |prev| && u != -2
    ensures Seen(prev[v := u]) == Seen(prev) + {v}
  {
  }

  /** `nil` after a search of `maxHops` levels means every walk to `b` is longer. */
  ghost predicate NoShortWalk(es: seq<int>, et: seq<int>, a: int, b: int, maxHops: int)
    requires |es| == |et|
  {
    forall p :: Joins(es, et, p, a, b) ==> |p.edges| > maxHops
  }

  ghost predicate Shortest(es: seq<int>, et: seq<int>, a: int, b: int, r: Path)
    requires |es| == |et|
  {
    Joins(es, et, r, a, b) && forall p :: Joins(es, et, p, a, b) ==> |r.edges| <= |p.edges|
  }

  lemma OutsideBall(n: nat, es: seq<int>, et: seq<int>, a: int, b: int, h: nat)
    requires ValidEdges(n, es, et) && b !in Ball(n, es, et, a, h)
    ensures NoShortWalk(es, et, a, b, h)
  {
    forall p | Joins(es, et, p, a, b) ensures |p.edges| > h {
      WalkStaysInBall(n, es, et, p, a, b);
      if |p.edges| <= h { BallGrows(n, es, et, a, |p.edges|, h); }
    }
  }

  lemma OutsideAll(n: nat, es: seq<int>, et: seq<int>, a: int, b: int, h: nat, seen: set<int>, maxHops: int)
    requires ValidEdges(n, es, et) && Level(n, es, et, a, h, seen, [], []) && b !in seen
    ensures NoShortWalk(es, et, a, b, maxHops)
  {
    var k := if maxHops > h then maxHops else h;
    LevelEmpty(n, es, et, a, h, seen, k);
    OutsideBall(n, es, et, a, b, k);
  }

  /** The whole state of a search for `b` within level `h`. */
  ghost predicate Search(n: nat, es: seq<int>, et: seq<int>, a: int, b: int, h: nat,
                         prev: seq<int>, prevE: seq<int>, depth: seq<nat>, todo: seq<int>, next: seq<int>)
  {
    && IsTree(n, es, et, a, prev, prevE, depth)
    && Level(n, es, et, a, h, Seen(prev), todo, next)
    && b !in Seen(prev)
    && (forall v :: v in todo ==> Reached(prev, v) && depth[v] == h)
    && (forall v :: v in next ==> Reached(prev, v) && depth[v] == h + 1)
  }

  lemma SearchStart(n: nat, es: seq<int>, et: seq<int>, a: int, b: int, prev: seq<int>, prevE: seq<int>, depth: seq<nat>)
    requires ValidEdges(n, es, et) && |prev| == |prevE| == |depth| == n && 0 <= a < n && a != b
    requires prev[a] == -1 && prevE[a] == -1 && depth[a] == 0
    requires forall v :: 0 <= v < n && v != a ==> prev[v] == -2
    ensures Search(n, es, et, a, b, 0, prev, prevE, depth, [a], [])
  {
    assert Seen(prev) == {a};
    StartLevel(n, es, et, a);
  }

  lemma SearchVisit(n: nat, es: seq<int>, et: seq<int>, a: int, b: int, h: nat, prev: seq<int>, prevE: seq<int>,
                    depth: seq<nat>, todo: seq<int>, next: seq<int>, v: int, e: int)
    requires Search(n, es, et, a, b, h, prev, prevE, depth, todo, next)
    requires todo != [] && 0 <= todo[0] < |depth| && 0 <= v < n && prev[v] == -2 && Incident(es, et, e, todo[0], v)
    ensures var prev', prevE', depth' := prev[v := todo[0]], prevE[v := e], depth[v := depth[todo[0]] + 1];
            && IsTree(n, es, et, a, prev', prevE', depth') && depth'[v] == h + 1
            && Seen(prev') == Seen(prev) + {v}
            && (v != b ==> Search(n, es, et, a, b, h, prev', prevE', depth', todo, next + [v]))
  {
    var u := todo[0];
    assert u in todo && Reached(prev, u) && Adjacent(es, et, u, v);
    TreeGrows(n, es, et, a, prev, prevE, depth, u, v, e);
    SeenReach(prev, v, u);
    LevelReach(n, es, et, a, h, Seen(prev), todo, next, u, v);
  }

  lemma SearchAdvance(g: Csr, n: nat, es: seq<int>, et: seq<int>, a: int, b: int, h: nat, prev: seq<int>, prevE: seq<int>,
                      depth: seq<nat>, todo: seq<int>, next: seq<int>)
    requires IsIndex(g, n, es, et) && todo != [] && 0 <= todo[0] < n
    requires Scanned(g, todo[0], g.off[todo[0] + 1], Seen(prev))
    requires Search(n, es, et, a, b, h, prev, prevE, depth, todo, next)
    ensures Search(n, es, et, a, b, h, prev, prevE, depth, todo[1..], next)
  {
    ScannedAll(g, n, es, et, todo[0], Seen(prev));
    LevelAdvance(n, es, et, a, h, Seen(prev), todo, next);
  }

  lemma SearchDone(n: nat, es: seq<int>, et: seq<int>, a: int, b: int, h: nat, prev: seq<int>, prevE: seq<int>,
                   depth: seq<nat>, next: seq<int>)
    requires Search(n, es, et, a, b, h, prev, prevE, depth, [], next)
    ensures Search(n, es, et, a, b, h + 1, prev, prevE, depth, next, [])
  {
    LevelDone(n, es, et, a, h, Seen(prev), next);
  }

  /** While `b` is not reached within level `h`, every walk to it is longer than `h`. */
  lemma SearchMisses(n: nat, es: seq<int>, et: seq<int>, a: int, b: int, h: nat, prev: seq<int>, prevE: seq<int>,
                     depth: seq<nat>, todo: seq<int>, next: seq<int>, maxHops: int)
    requires ValidEdges(n, es, et) && Search(n, es, et, a, b, h, prev, prevE, depth, todo, next)
    ensures NoShortWalk(es, et, a, b, h)
    ensures todo == [] && next == [] ==> NoShortWalk(es, et, a, b, maxHops)
  {
    OutsideBall(n, es, et, a, b, h);
    if todo == [] && next == [] { OutsideAll(n, es, et, a, b, h, Seen(prev), maxHops); }
  }

  lemma ScannedNext(g: Csr, u: int, p: int, seen: set<int>)
    requires 0 <= u && u + 1 < g.off.Length && g.off[u] <= p < g.off[u + 1] && 0 <= p < g.nb.Length && Scanned(g, u, p, seen)
    ensures Scanned(g, u, p + 1, seen + {g.nb[p]})
    ensures g.nb[p] in seen ==> Scanned(g, u, p + 1, seen)
  {
  }

  method SetParent(prev: array<int>, prevE: array<int>, v: int, u: int, e: int)
    requires prev != prevE && 0 <= v < prev.Length && v < prevE.Length
    modifies prev, prevE
    ensures prev[..] == old(prev[..])[v := u] && prevE[..] == old(prevE[..])[v := e]
  {
    prev[v] := u;
    prevE[v] := e;
  }

  /** Follows one slot of the first waiting node. */
  method ScanSlot(g: Csr, n: nat, ghost es: seq<int>, ghost et: seq<int>, ghost a: int, b: int, ghost h: nat,
                  prev: array<int>, prevE: array<int>, ghost depth: seq<nat>, u: int, ghost todo: seq<int>, next: seq<int>, p: int)
    returns (next': seq<int>, ghost depth': seq<nat>, found: bool)
    requires IsIndex(g, n, es, et) && 0 <= u < n && g.off[u] <= p < g.off[u + 1]
    requires todo != [] && todo[0] == u && prev != prevE && {prev, prevE} !! {g.off, g.nb, g.eid, g.dir}
    requires Search(n, es, et, a, b, h, prev[..], prevE[..], depth, todo, next) && Scanned(g, u, p, Seen(prev[..]))
    modifies prev, prevE
    ensures found ==> IsTree(n, es, et, a, prev[..], prevE[..], depth') && Reached(prev[..], b) && depth'[b] == h + 1
    ensures !found ==> Search(n, es, et, a, b, h, prev[..], prevE[..], depth', todo, next')
    ensures !found ==> Scanned(g, u, p + 1, Seen(prev[..]))
  {
    next', depth', found := next, depth, false;
    SlotIsIncident(g, n, es, et, u, p);
    var v := g.nb[p];
    ScannedNext(g, u, p, Seen(prev[..]));
    if prev[v] == -2 {
      SearchVisit(n, es, et, a, b, h, prev[..], prevE[..], depth, todo, next, v, g.eid[p]);
      SetParent(prev, prevE, v, u, g.eid[p]);
      depth' := depth[v := depth[u] + 1];
      found := v == b;
      next' := next + [v];
    }
  }

  /** Scans the block of the first waiting node, reaching its unreached neighbours, and
      stops as soon as `b` is one of them. */
  method ScanNode(g: Csr, n: nat, ghost es: seq<int>, ghost et: seq<int>, ghost a: int, b: int, ghost h: nat,
                  prev: array<int>, prevE: array<int>, ghost depth: seq<nat>, u: int, ghost todo: seq<int>, next: seq<int>)
    returns (next': seq<int>, ghost depth': seq<nat>, found: bool)
    requires IsIndex(g, n, es, et) && 0 <= u < n && todo != [] && todo[0] == u && prev != prevE
    requires {prev, prevE} !! {g.off, g.nb, g.eid, g.dir}
    requires Search(n, es, et, a, b, h, prev[..], prevE[..], depth, todo, next)
    modifies prev, prevE
    ensures found ==> IsTree(n, es, et, a, prev[..], prevE[..], depth') && Reached(prev[..], b) && depth'[b] == h + 1
    ensures !found ==> Search(n, es, et, a, b, h, prev[..], prevE[..], depth', todo[1..], next')
  {
    next', depth', found := next, depth, false;
    var p := g.off[u];
    while p < g.off[u + 1]
      invariant g.off[u] <= p && Scanned(g, u, p, Seen(prev[..]))
      invariant Search(n, es, et, a, b, h, prev[..], prevE[..], depth', todo, next')
    {
      next', depth', found := ScanSlot(g, n, es, et, a, b, h, prev, prevE, depth', u, todo, next', p);
      if found { return; }
      p := p + 1;
    }
    SearchAdvance(g, n, es, et, a, b, h, prev[..], prevE[..], depth', todo, next');
  }

  /** Scans every node of one frontier. */
  method ExpandLevel(g: Csr, n: nat, ghost es: seq<int>, ghost et: seq<int>, ghost a: int, b: int, ghost h: nat,
                     prev: array<int>, prevE: array<int>, ghost depth: seq<nat>, frontier: seq<int>)
    returns (next: seq<int>, ghost depth': seq<nat>, found: bool)
    requires IsIndex(g, n, es, et) && prev != prevE && {prev, prevE} !! {g.off, g.nb, g.eid, g.dir}
    requires Search(n, es, et, a, b, h, prev[..], prevE[..], depth, frontier, [])
    modifies prev, prevE
    ensures found ==> IsTree(n, es, et, a, prev[..], prevE[..], depth') && Reached(prev[..], b) && depth'[b] == h + 1
    ensures !found ==> Search(n, es, et, a, b, h + 1, prev[..], prevE[..], depth', next, [])
  {
    next, depth', found := [], depth, false;
    var f := 0;
    assert frontier[f..] == frontier;
    while f < |frontier|
      invariant 0 <= f <= |frontier|
      invariant Search(n, es, et, a, b, h, prev[..], prevE[..], depth', frontier[f..], next)
    {
      var u := frontier[f];
      assert u in frontier[f..] && Reached(prev[..], u);
      next, depth', found := ScanNode(g, n, es, et, a, b, h, prev, prevE, depth', u, frontier[f..], next);
      if found { return; }
      assert frontier[f..][1..] == frontier[f + 1..];
      f := f + 1;
    }
    SearchDone(n, es, et, a, b, h, prev[..], prevE[..], depth', next);
  }

  /** One level: a shortest walk if the level reaches `b`, else the next frontier. */
  method SearchLevel(g: Csr, n: nat, ghost es: seq<int>, ghost et: seq<int>, ghost a: int, b: int, ghost h: nat,
                     prev: array<int>, prevE: array<int>, ghost depth: seq<nat>, frontier: seq<int>)
    returns (next: seq<int>, ghost depth': seq<nat>, r: Option<Path>)
    requires IsIndex(g, n, es, et) && prev != prevE && {prev, prevE} !! {g.off, g.nb, g.eid, g.dir}
    requires Search(n, es, et, a, b, h, prev[..], prevE[..], depth, frontier, [])
    modifies prev, prevE
    ensures r.Some? ==> Shortest(es, et, a, b, r.value) && |r.value.edges| == h + 1
    ensures r.None? ==> Search(n, es, et, a, b, h + 1, prev[..], prevE[..], depth', next, [])
  {
    SearchMisses(n, es, et, a, b, h, prev[..], prevE[..], depth, frontier, [], h);
    var found;
    next, depth', found := ExpandLevel(g, n, es, et, a, b, h, prev, prevE, depth, frontier);
    r := None;
    if found {
      var path := TracePath(n, es, et, a, b, prev, prevE, depth');
      r := Some(path);
    }
  }

  method SearchLevels(g: Csr, n: nat, ghost es: seq<int>, ghost et: seq<int>, ghost a: int, b: int, maxHops: int,
                      prev: array<int>, prevE: array<int>, ghost start: seq<nat>, first: seq<int>)
    returns (r: Option<Path>)
    requires IsIndex(g, n, es, et) && prev != prevE && {prev, prevE} !! {g.off, g.nb, g.eid, g.dir}
    requires Search(n, es, et, a, b, 0, prev[..], prevE[..], start, first, [])
    modifies prev, prevE
    ensures r.Some? ==> Shortest(es, et, a, b, r.value) && |r.value.edges| <= maxHops
    ensures r.None? ==> NoShortWalk(es, et, a, b, maxHops)
  {
    var frontier := first;
    ghost var depth := start;
    var h := 0;
    while h < maxHops && |frontier| > 0
      invariant 0 <= h && (h <= maxHops || h == 0)
      invariant Search(n, es, et, a, b, h, prev[..], prevE[..], depth, frontier, [])
      decreases maxHops - h
    {
      frontier, depth, r := SearchLevel(g, n, es, et, a, b, h, prev, prevE, depth, frontier);
      if r.Some? { return; }
      h := h + 1;
    }
    r := None;
    SearchMisses(n, es, et, a, b, h, prev[..], prevE[..], depth, frontier, [], maxHops);
  }

  method SearchAll(g: Csr, n: nat, ghost es: seq<int>, ghost et: seq<int>, a: int, b: int, maxHops: int)
    returns (r: Option<Path>)
    requires IsIndex(g, n, es, et) && 0 <= a < n && 0 <= b < n && a != b
    ensures r.Some? ==> Shortest(es, et, a, b, r.value) && |r.value.edges| <= maxHops
    ensures r.None? ==> NoShortWalk(es, et, a, b, maxHops)
  {
    var prev, prevE := new int[n](_ => -2), new int[n](_ => -1);
    ghost var depth: seq<nat> := seq(n, _ => 0);
    prev[a] := -1;
    SearchStart(n, es, et, a, b, prev[..], prevE[..], depth);
    r := SearchLevels(g, n, es, et, a, b, maxHops, prev, prevE, depth, [a]);
  }

  lemma FoundIsShort(es: seq<int>, et: seq<int>, a: int, b: int, p: Path, maxHops: int)
    requires |es| == |et| && Shortest(es, et, a, b, p) && |p.edges| <= maxHops
    ensures !NoShortWalk(es, et, a, b, maxHops)
  {
  }

  /** The shortest undirected path of at most `maxHops` edges, or nothing exactly when there
      is none; two equal ends are always joined by the empty path. */
  method ShortestPath(g: Csr, n: nat, ghost es: seq<int>, ghost et: seq<int>, a: int, b: int, maxHops: int)
    returns (r: Option<Path>)
    requires IsIndex(g, n, es, et) && 0 <= a < n && 0 <= b < n
    ensures r.Some? ==> Shortest(es, et, a, b, r.value) && (a == b || |r.value.edges| <= maxHops)
    ensures r.None? <==> a != b && NoShortWalk(es, et, a, b, maxHops)
  {
    if a == b {
      r := Some(Path([a], []));
      assert Joins(es, et, r.value, a, b);
      return;
    }
    r := SearchAll(g, n, es, et, a, b, maxHops);
    if r.Some? { FoundIsShort(es, et, a, b, r.value, maxHops); }
  }
}
