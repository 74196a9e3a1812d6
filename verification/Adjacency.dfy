/** The explorer's adjacency: both ends of every edge, counting-sorted by node. */
module Adjacency {

  /** One entry of a node's block: the other end, the edge, and 1 for out or 0 for in. */
  datatype Slot = Slot(nb: int, eid: int, dir: int)

  datatype Csr = Csr(off: array<int>, nb: array<int>, eid: array<int>, dir: array<int>)

  predicate ValidEdges(n: nat, es: seq<int>, et: seq<int>) {
    && |es| == |et|
    && (forall i :: 0 <= i < |es| ==> 0 <= es[i] < n)
    && (forall i :: 0 <= i < |et| ==> 0 <= et[i] < n)
  }

  // ---- the specification: half-edges in edge order, out before in ----

  function Owner(es: seq<int>, et: seq<int>, h: nat): int
    requires |es| == |et| && h < 2 * |es|
  {
    if h % 2 == 0 then es[h / 2] else et[h / 2]
  }

  function SlotOf(es: seq<int>, et: seq<int>, h: nat): Slot
    requires |es| == |et| && h < 2 * |es|
  {
    if h % 2 == 0 then Slot(et[h / 2], h / 2, 1) else Slot(es[h / 2], h / 2, 0)
  }

  /** The slots of node `v` among the first `h` half-edges, in order. */
  function Block(es: seq<int>, et: seq<int>, h: nat, v: int): seq<Slot>
    requires |es| == |et| && h <= 2 * |es|
  {
    if h == 0 then []
    else Block(es, et, h - 1, v) + (if Owner(es, et, h - 1) == v then [SlotOf(es, et, h - 1)] else [])
  }

  /** Where the block of `v` starts when the blocks of all smaller nodes precede it. */
  function Start(es: seq<int>, et: seq<int>, h: nat, v: nat): nat
    requires |es| == |et| && h <= 2 * |es|
  {
    if v == 0 then 0 else Start(es, et, h, v - 1) + |Block(es, et, h, v - 1)|
  }

  lemma {:induction false} BlockGrows(es: seq<int>, et: seq<int>, h: nat, k: nat, v: int)
    requires |es| == |et| && h <= k <= 2 * |es|
    ensures Block(es, et, h, v) <= Block(es, et, k, v)
    decreases k
  {
    if h < k { BlockGrows(es, et, h, k - 1, v); }
  }

  lemma {:induction false} StartMonotone(es: seq<int>, et: seq<int>, h: nat, v: nat, w: nat)
    requires |es| == |et| && h <= 2 * |es| && v < w
    ensures Start(es, et, h, v) + |Block(es, et, h, v)| <= Start(es, et, h, w)
    decreases w
  {
    if v < w - 1 { StartMonotone(es, et, h, v, w - 1); }
  }

  lemma {:induction false} StartStep(es: seq<int>, et: seq<int>, h: nat, v: nat)
    requires |es| == |et| && 0 < h <= 2 * |es| && Owner(es, et, h - 1) >= 0
    ensures Start(es, et, h, v) == Start(es, et, h - 1, v) + (if Owner(es, et, h - 1) < v then 1 else 0)
    decreases v
  {
    if v > 0 { StartStep(es, et, h, v - 1); }
  }

  /** All blocks together hold every half-edge once. */
  lemma {:induction false} StartTotal(n: nat, es: seq<int>, et: seq<int>, h: nat)
    requires ValidEdges(n, es, et) && h <= 2 * |es|
    ensures Start(es, et, h, n) == h
    decreases h
  {
    if h == 0 { EmptyStart(es, et, n); }
    else { StartTotal(n, es, et, h - 1); StartStep(es, et, h, n); }
  }

  lemma {:induction false} EmptyStart(es: seq<int>, et: seq<int>, v: nat)
    requires |es| == |et|
    ensures Start(es, et, 0, v) == 0
    decreases v
  {
    if v > 0 { EmptyStart(es, et, v - 1); }
  }

  // ---- what a block means ----

  predicate Incident(es: seq<int>, et: seq<int>, e: int, u: int, v: int)
    requires |es| == |et|
  {
    0 <= e < |es| && ((es[e] == u && et[e] == v) || (es[e] == v && et[e] == u))
  }

  /** A slot of `v` names an edge that joins `v` to the slot's other end, in the slot's direction. */
  lemma {:induction false} BlockSound(es: seq<int>, et: seq<int>, h: nat, v: int, p: nat)
    requires |es| == |et| && h <= 2 * |es| && p < |Block(es, et, h, v)|
    ensures var s := Block(es, et, h, v)[p];
            && 0 <= s.eid < |es| && 2 * s.eid < h && Incident(es, et, s.eid, v, s.nb)
            && (s.dir == 1 ==> es[s.eid] == v && et[s.eid] == s.nb)
            && (s.dir == 0 ==> et[s.eid] == v && es[s.eid] == s.nb && 2 * s.eid + 1 < h)
            && s.dir in {0, 1}
    decreases h
  {
    if p < |Block(es, et, h - 1, v)| { BlockSound(es, et, h - 1, v, p); }
  }

  /** Every half-edge of `v` has its slot. */
  lemma {:induction false} BlockComplete(es: seq<int>, et: seq<int>, h: nat, v: int, g: nat)
    requires |es| == |et| && g < h <= 2 * |es| && Owner(es, et, g) == v
    ensures exists p :: 0 <= p < |Block(es, et, h, v)| && Block(es, et, h, v)[p] == SlotOf(es, et, g)
    decreases h
  {
    if g == h - 1 {
      assert Block(es, et, h, v)[|Block(es, et, h - 1, v)|] == SlotOf(es, et, g);
    } else {
      BlockComplete(es, et, h - 1, v, g);
      var p :| 0 <= p < |Block(es, et, h - 1, v)| && Block(es, et, h - 1, v)[p] == SlotOf(es, et, g);
      assert Block(es, et, h, v)[p] == SlotOf(es, et, g);
    }
  }

  function HalfEdge(s: Slot): int { 2 * s.eid + 1 - s.dir }

  /** Slots of one block come in half-edge order, so none is repeated. */
  lemma {:induction false} BlockOrdered(es: seq<int>, et: seq<int>, h: nat, v: int, p: nat, q: nat)
    requires |es| == |et| && h <= 2 * |es| && p < q < |Block(es, et, h, v)|
    ensures HalfEdge(Block(es, et, h, v)[p]) < HalfEdge(Block(es, et, h, v)[q]) < h
    decreases h
  {
    if q < |Block(es, et, h - 1, v)| { BlockOrdered(es, et, h - 1, v, p, q); }
    else { BlockSound(es, et, h - 1, v, p); }
  }

  /** Block `v` has exactly one slot for this edge end. */
  ghost predicate OnceAt(es: seq<int>, et: seq<int>, v: int, e: int, dir: int, p: nat)
    requires |es| == |et|
  {
    var block := Block(es, et, 2 * |es|, v);
    && p < |block| && block[p].eid == e && block[p].dir == dir
    && forall q :: 0 <= q < |block| && block[q].eid == e && block[q].dir == dir ==> q == p
  }

  /** Each edge has exactly one out-slot, at its source, and one in-slot, at its target; a
      self-loop has both in one block, at different places. */
  lemma EdgeHasBothSlots(es: seq<int>, et: seq<int>, e: nat) returns (p: nat, q: nat)
    requires |es| == |et| && e < |es|
    ensures OnceAt(es, et, es[e], e, 1, p) && OnceAt(es, et, et[e], e, 0, q)
    ensures es[e] == et[e] ==> q == p + 1
    ensures forall v, r :: 0 <= r < |Block(es, et, 2 * |es|, v)| && Block(es, et, 2 * |es|, v)[r].eid == e ==>
              v == (if Block(es, et, 2 * |es|, v)[r].dir == 1 then es[e] else et[e])
  {
    p := FindSlot(es, et, es[e], 2 * e);
    q := FindSlot(es, et, et[e], 2 * e + 1);
    if es[e] == et[e] { Neighbours(es, et, es[e], p, q); }
    forall v, r | 0 <= r < |Block(es, et, 2 * |es|, v)| && Block(es, et, 2 * |es|, v)[r].eid == e
      ensures v == (if Block(es, et, 2 * |es|, v)[r].dir == 1 then es[e] else et[e])
    {
      BlockSound(es, et, 2 * |es|, v, r);
    }
  }

  lemma FindSlot(es: seq<int>, et: seq<int>, v: int, g: nat) returns (p: nat)
    requires |es| == |et| && g < 2 * |es| && Owner(es, et, g) == v
    ensures OnceAt(es, et, v, g / 2, 1 - g % 2, p)
    ensures HalfEdge(Block(es, et, 2 * |es|, v)[p]) == g
  {
    var block := Block(es, et, 2 * |es|, v);
    BlockComplete(es, et, 2 * |es|, v, g);
    p :| 0 <= p < |block| && block[p] == SlotOf(es, et, g);
    forall q | 0 <= q < |block| && block[q].eid == g / 2 && block[q].dir == 1 - g % 2 ensures q == p {
      if q < p { BlockOrdered(es, et, 2 * |es|, v, q, p); }
      if p < q { BlockOrdered(es, et, 2 * |es|, v, p, q); }
    }
  }

  lemma Neighbours(es: seq<int>, et: seq<int>, v: int, p: nat, q: nat)
    requires |es| == |et| && p < |Block(es, et, 2 * |es|, v)| && q < |Block(es, et, 2 * |es|, v)|
    requires var block := Block(es, et, 2 * |es|, v);
             HalfEdge(block[q]) == HalfEdge(block[p]) + 1
    ensures q == p + 1
  {
    if q < p { BlockOrdered(es, et, 2 * |es|, v, q, p); }
    if p < q { BlockOrdered(es, et, 2 * |es|, v, p, q); }
    if p + 1 < q {
      BlockOrdered(es, et, 2 * |es|, v, p, p + 1);
      BlockOrdered(es, et, 2 * |es|, v, p + 1, q);
    }
  }

  // ---- the arrays ----

  predicate SlotAt(nb: seq<int>, eid: seq<int>, dir: seq<int>, p: int, s: Slot) {
    && 0 <= p < |nb| && p < |eid| && p < |dir|
    && nb[p] == s.nb && eid[p] == s.eid && dir[p] == s.dir
  }

  /** The first `h` half-edges are in place, each block filled from its final start. */
  ghost predicate Placed(nb: seq<int>, eid: seq<int>, dir: seq<int>, n: nat, es: seq<int>, et: seq<int>, h: nat)
    requires |es| == |et| && h <= 2 * |es|
  {
    forall v: nat :: v < n ==> BlockPlaced(nb, eid, dir, es, et, h, v)
  }

  ghost predicate BlockPlaced(nb: seq<int>, eid: seq<int>, dir: seq<int>, es: seq<int>, et: seq<int>, h: nat, v: nat)
    requires |es| == |et| && h <= 2 * |es|
  {
    forall p :: 0 <= p < |Block(es, et, h, v)| ==>
      SlotAt(nb, eid, dir, Start(es, et, 2 * |es|, v) + p, Block(es, et, h, v)[p])
  }

  lemma OwnerInRange(n: nat, es: seq<int>, et: seq<int>, h: nat)
    requires ValidEdges(n, es, et) && h < 2 * |es|
    ensures 0 <= Owner(es, et, h) < n
  {
  }

  lemma RoomInBlock(es: seq<int>, et: seq<int>, h: nat, v: int)
    requires |es| == |et| && h < 2 * |es| && Owner(es, et, h) == v
    ensures |Block(es, et, h, v)| < |Block(es, et, 2 * |es|, v)|
  {
    BlockGrows(es, et, h + 1, 2 * |es|, v);
  }

  /** The next free place of a block lies inside that block. */
  lemma FreeSlot(n: nat, es: seq<int>, et: seq<int>, h: nat)
    requires ValidEdges(n, es, et) && h < 2 * |es|
    ensures Start(es, et, 2 * |es|, n) == 2 * |es| && 0 <= Owner(es, et, h) < n
    ensures var v := Owner(es, et, h);
            0 <= Start(es, et, 2 * |es|, v) + |Block(es, et, h, v)| < 2 * |es|
  {
    OwnerInRange(n, es, et, h);
    StartTotal(n, es, et, 2 * |es|);
    RoomInBlock(es, et, h, Owner(es, et, h));
    StartMonotone(es, et, 2 * |es|, Owner(es, et, h), n);
  }

  /** The places of two different blocks differ. */
  lemma BlocksApart(es: seq<int>, et: seq<int>, v: nat, o: nat, q: nat, r: nat)
    requires |es| == |et| && v != o && q < |Block(es, et, 2 * |es|, v)| && r < |Block(es, et, 2 * |es|, o)|
    ensures Start(es, et, 2 * |es|, v) + q != Start(es, et, 2 * |es|, o) + r
  {
    if v < o { StartMonotone(es, et, 2 * |es|, v, o); } else { StartMonotone(es, et, 2 * |es|, o, v); }
  }

  /** A slot written for `o` is outside the block of any other node. */
  lemma OutsideBlock(es: seq<int>, et: seq<int>, h: nat, o: nat, v: nat, q: nat)
    requires |es| == |et| && h < 2 * |es| && Owner(es, et, h) == o != v && q < |Block(es, et, h, v)|
    ensures Start(es, et, 2 * |es|, v) + q != Start(es, et, 2 * |es|, o) + |Block(es, et, h, o)|
  {
    BlockGrows(es, et, h, 2 * |es|, v);
    RoomInBlock(es, et, h, o);
    BlocksApart(es, et, v, o, q, |Block(es, et, h, o)|);
  }

  lemma PlaceOther(nb: seq<int>, eid: seq<int>, dir: seq<int>, es: seq<int>, et: seq<int>, h: nat, p: int, s: Slot, v: nat)
    requires |es| == |et| && h < 2 * |es| && 0 <= Owner(es, et, h) != v && BlockPlaced(nb, eid, dir, es, et, h, v)
    requires |nb| == |eid| == |dir| == 2 * |es|
    requires p == Start(es, et, 2 * |es|, Owner(es, et, h)) + |Block(es, et, h, Owner(es, et, h))| < |nb|
    ensures BlockPlaced(nb[p := s.nb], eid[p := s.eid], dir[p := s.dir], es, et, h + 1, v)
  {
    var nb', eid', dir', block := nb[p := s.nb], eid[p := s.eid], dir[p := s.dir], Block(es, et, h, v);
    assert Block(es, et, h + 1, v) == block;
    forall q | 0 <= q < |block|
      ensures SlotAt(nb', eid', dir', Start(es, et, 2 * |es|, v) + q, block[q])
    {
      OutsideBlock(es, et, h, Owner(es, et, h), v, q);
      assert SlotAt(nb, eid, dir, Start(es, et, 2 * |es|, v) + q, block[q]);
    }
  }

  lemma PlaceOwn(nb: seq<int>, eid: seq<int>, dir: seq<int>, es: seq<int>, et: seq<int>, h: nat, p: int, v: nat)
    requires |es| == |et| && h < 2 * |es| && Owner(es, et, h) == v && BlockPlaced(nb, eid, dir, es, et, h, v)
    requires |nb| == |eid| == |dir| == 2 * |es|
    requires p == Start(es, et, 2 * |es|, v) + |Block(es, et, h, v)| < |nb|
    ensures var s := SlotOf(es, et, h);
            BlockPlaced(nb[p := s.nb], eid[p := s.eid], dir[p := s.dir], es, et, h + 1, v)
  {
    var s := SlotOf(es, et, h);
    var nb', eid', dir', block := nb[p := s.nb], eid[p := s.eid], dir[p := s.dir], Block(es, et, h + 1, v);
    forall q | 0 <= q < |block|
      ensures SlotAt(nb', eid', dir', Start(es, et, 2 * |es|, v) + q, block[q])
    {
      if q < |Block(es, et, h, v)| {
        assert SlotAt(nb, eid, dir, Start(es, et, 2 * |es|, v) + q, Block(es, et, h, v)[q]);
      }
    }
  }

  lemma PlaceAt(nb: seq<int>, eid: seq<int>, dir: seq<int>, es: seq<int>, et: seq<int>, h: nat, p: int, v: nat)
    requires |es| == |et| && h < 2 * |es| && 0 <= Owner(es, et, h) && BlockPlaced(nb, eid, dir, es, et, h, v)
    requires |nb| == |eid| == |dir| == 2 * |es|
    requires p == Start(es, et, 2 * |es|, Owner(es, et, h)) + |Block(es, et, h, Owner(es, et, h))| < |nb|
    ensures var s := SlotOf(es, et, h);
            BlockPlaced(nb[p := s.nb], eid[p := s.eid], dir[p := s.dir], es, et, h + 1, v)
  {
    if v == Owner(es, et, h) { PlaceOwn(nb, eid, dir, es, et, h, p, v); }
    else { PlaceOther(nb, eid, dir, es, et, h, p, SlotOf(es, et, h), v); }
  }

  /** Writing the next half-edge at its block's next place disturbs no other block. */
  lemma PlaceEach(nb: seq<int>, eid: seq<int>, dir: seq<int>, n: nat, es: seq<int>, et: seq<int>, h: nat, h': nat, p: int, s: Slot)
    requires |es| == |et| && h' == h + 1 && h < 2 * |es| && 0 <= Owner(es, et, h) && Placed(nb, eid, dir, n, es, et, h)
    requires |nb| == |eid| == |dir| == 2 * |es| && s == SlotOf(es, et, h)
    requires p == Start(es, et, 2 * |es|, Owner(es, et, h)) + |Block(es, et, h, Owner(es, et, h))| < |nb|
    ensures Placed(nb[p := s.nb], eid[p := s.eid], dir[p := s.dir], n, es, et, h')
  {
    var nb', eid', dir' := nb[p := s.nb], eid[p := s.eid], dir[p := s.dir];
    forall v: nat | v < n ensures BlockPlaced(nb', eid', dir', es, et, h', v) {
      PlaceAt(nb, eid, dir, es, et, h, p, v);
    }
  }

  /** Each block's next free place. */
  ghost predicate Filling(fill: seq<int>, n: nat, es: seq<int>, et: seq<int>, h: nat)
    requires |es| == |et| && h <= 2 * |es|
  {
    |fill| == n && forall v: nat :: v < n ==> FillAt(fill, es, et, h, v)
  }

  ghost predicate FillAt(fill: seq<int>, es: seq<int>, et: seq<int>, h: nat, v: nat)
    requires |es| == |et| && h <= 2 * |es|
  {
    v < |fill| && fill[v] == Start(es, et, 2 * |es|, v) + |Block(es, et, h, v)|
  }

  lemma FillNext(fill: seq<int>, n: nat, es: seq<int>, et: seq<int>, h: nat)
    requires ValidEdges(n, es, et) && h < 2 * |es| && Filling(fill, n, es, et, h)
    ensures var o := Owner(es, et, h);
            && fill[o] == Start(es, et, 2 * |es|, o) + |Block(es, et, h, o)|
            && Filling(fill[o := fill[o] + 1], n, es, et, h + 1)
  {
    var o, h' := Owner(es, et, h), h + 1;
    assert FillAt(fill, es, et, h, o);
    var fill' := fill[o := fill[o] + 1];
    forall v: nat | v < n ensures FillAt(fill', es, et, h', v) { assert FillAt(fill, es, et, h, v); }
  }

  lemma FillStart(fill: seq<int>, off: seq<int>, counts: seq<int>, n: nat, es: seq<int>, et: seq<int>)
    requires |es| == |et| && Accumulated(off, counts, n, es, et, 2 * |es|, n)
    requires fill == off[..n]
    ensures Filling(fill, n, es, et, 0)
  {
    forall v: nat | v < n ensures FillAt(fill, es, et, 0, v) { }
  }

  ghost predicate DegreeAt(off: seq<int>, es: seq<int>, et: seq<int>, h: nat, v: nat)
    requires |es| == |et| && h <= 2 * |es|
  {
    v + 1 < |off| && off[v + 1] == |Block(es, et, h, v)|
  }

  ghost predicate Degrees(off: seq<int>, n: nat, es: seq<int>, et: seq<int>, h: nat)
    requires |es| == |et| && h <= 2 * |es|
  {
    |off| == n + 1 && off[0] == 0 && forall v: nat :: v < n ==> DegreeAt(off, es, et, h, v)
  }

  lemma NoDegrees(off: seq<int>, n: nat, es: seq<int>, et: seq<int>)
    requires |es| == |et| && |off| == n + 1 && forall v :: 0 <= v <= n ==> off[v] == 0
    ensures Degrees(off, n, es, et, 0)
  {
    forall v: nat | v < n ensures DegreeAt(off, es, et, 0, v) { }
  }

  lemma CountNext(off: seq<int>, n: nat, es: seq<int>, et: seq<int>, h: nat)
    requires ValidEdges(n, es, et) && h < 2 * |es| && Degrees(off, n, es, et, h)
    ensures var o := Owner(es, et, h) + 1;
            0 < o <= n && Degrees(off[o := off[o] + 1], n, es, et, h + 1)
  {
    var o, h' := Owner(es, et, h) + 1, h + 1;
    var off' := off[o := off[o] + 1];
    forall v: nat | v < n ensures DegreeAt(off', es, et, h', v) {
      assert DegreeAt(off, es, et, h, v);
    }
  }

  /** The first `i + 1` offsets are final and the rest are still counts. */
  ghost predicate Accumulated(off: seq<int>, counts: seq<int>, n: nat, es: seq<int>, et: seq<int>, m: nat, i: nat)
    requires |es| == |et| && m <= 2 * |es|
  {
    && |off| == |counts| == n + 1 && i <= n
    && (forall v: nat :: v <= i ==> off[v] == Start(es, et, m, v))
    && (forall v: nat :: i < v <= n ==> off[v] == counts[v])
  }

  lemma AccumulateNext(off: seq<int>, counts: seq<int>, n: nat, es: seq<int>, et: seq<int>, m: nat, i: nat)
    requires |es| == |et| && m <= 2 * |es| && i < n
    requires Degrees(counts, n, es, et, m) && Accumulated(off, counts, n, es, et, m, i)
    ensures Accumulated(off[i + 1 := off[i + 1] + off[i]], counts, n, es, et, m, i + 1)
  {
    assert DegreeAt(counts, es, et, m, i);
  }

  /** The whole contract of the index: offsets rise from 0 to twice the edge count, and
      each node's block is exactly its slots, in edge order. */
  ghost predicate IsIndex(g: Csr, n: nat, es: seq<int>, et: seq<int>)
    reads g.off, g.nb, g.eid, g.dir
  {
    && ValidEdges(n, es, et) && g.off.Length == n + 1
    && g.nb.Length == g.eid.Length == g.dir.Length == 2 * |es|
    && (forall v :: 0 <= v <= n ==> g.off[v] == Start(es, et, 2 * |es|, v))
    && Placed(g.nb[..], g.eid[..], g.dir[..], n, es, et, 2 * |es|)
  }

  /** Counts the slots of each node, one place to the right. */
  method CountDegrees(n: nat, es: array<int>, et: array<int>) returns (off: array<int>)
    requires ValidEdges(n, es[..], et[..])
    ensures fresh(off) && off.Length == n + 1
    ensures Degrees(off[..], n, es[..], et[..], 2 * es.Length)
  {
    ghost var S, T := es[..], et[..];
    off := new int[n + 1](_ => 0);
    NoDegrees(off[..], n, S, T);
    var i := 0;
    while i < es.Length
      invariant 0 <= i <= es.Length && es[..] == S && et[..] == T && fresh(off)
      invariant Degrees(off[..], n, S, T, 2 * i)
    {
      CountSlot(off, es[i], n, S, T, 2 * i);
      CountSlot(off, et[i], n, S, T, 2 * i + 1);
      i := i + 1;
    }
  }

  /** One more slot for its owner. */
  method CountSlot(off: array<int>, owner: int, n: nat, ghost es: seq<int>, ghost et: seq<int>, ghost h: nat)
    requires ValidEdges(n, es, et) && h < 2 * |es| && owner == Owner(es, et, h) && Degrees(off[..], n, es, et, h)
    modifies off
    ensures Degrees(off[..], n, es, et, h + 1)
  {
    CountNext(off[..], n, es, et, h);
    ghost var next := off[..][owner + 1 := off[owner + 1] + 1];
    off[owner + 1] := off[owner + 1] + 1;
    assert off[..] == next;
  }

  /** Turns the counts into block starts, in place. */
  method AccumulateOffsets(n: nat, off: array<int>, ghost es: seq<int>, ghost et: seq<int>)
    requires ValidEdges(n, es, et) && off.Length == n + 1 && Degrees(off[..], n, es, et, 2 * |es|)
    modifies off
    ensures Accumulated(off[..], old(off[..]), n, es, et, 2 * |es|, n)
  {
    ghost var counts := off[..];
    var i := 0;
    while i < n
      invariant 0 <= i <= n
      invariant Accumulated(off[..], counts, n, es, et, 2 * |es|, i)
    {
      AccumulateNext(off[..], counts, n, es, et, 2 * |es|, i);
      ghost var next := off[..][i + 1 := off[i + 1] + off[i]];
      off[i + 1] := off[i + 1] + off[i];
      assert off[..] == next;
      i := i + 1;
    }
  }

  /** One edge: an out-slot in its source's block, an in-slot in its target's. */
  method PutEdge(n: nat, es: array<int>, et: array<int>, g: Csr, fill: array<int>, i: nat)
    requires ValidEdges(n, es[..], et[..]) && i < es.Length
    requires g.nb.Length == g.eid.Length == g.dir.Length == 2 * es.Length
    requires g.nb != g.eid && g.eid != g.dir && g.nb != g.dir
    requires {g.nb, g.eid, g.dir, fill} !! {es, et} && fill !in {g.nb, g.eid, g.dir}
    requires Filling(fill[..], n, es[..], et[..], 2 * i) && Placed(g.nb[..], g.eid[..], g.dir[..], n, es[..], et[..], 2 * i)
    modifies g.nb, g.eid, g.dir, fill
    ensures Filling(fill[..], n, es[..], et[..], 2 * (i + 1))
    ensures Placed(g.nb[..], g.eid[..], g.dir[..], n, es[..], et[..], 2 * (i + 1))
  {
    ghost var S, T := es[..], et[..];
    var s, tg := es[i], et[i];
    PutSlot(n, g, fill, s, Slot(tg, i, 1), S, T, 2 * i);
    PutSlot(n, g, fill, tg, Slot(s, i, 0), S, T, 2 * i + 1);
  }

  /** Writes both slots of each edge at the next free places of its two blocks. */
  method Scatter(n: nat, es: array<int>, et: array<int>, g: Csr, fill: array<int>)
    requires ValidEdges(n, es[..], et[..])
    requires g.nb.Length == g.eid.Length == g.dir.Length == 2 * es.Length
    requires g.nb != g.eid && g.eid != g.dir && g.nb != g.dir
    requires {g.nb, g.eid, g.dir, fill} !! {es, et} && fill !in {g.nb, g.eid, g.dir}
    requires Filling(fill[..], n, es[..], et[..], 0)
    modifies g.nb, g.eid, g.dir, fill
    ensures Placed(g.nb[..], g.eid[..], g.dir[..], n, es[..], et[..], 2 * es.Length)
  {
    ghost var S, T := es[..], et[..];
    var nb, eid, dir := g.nb, g.eid, g.dir;
    var i := 0;
    while i < es.Length
      invariant 0 <= i <= es.Length && es[..] == S && et[..] == T
      invariant Filling(fill[..], n, S, T, 2 * i)
      invariant Placed(nb[..], eid[..], dir[..], n, S, T, 2 * i)
    {
      PutEdge(n, es, et, g, fill, i);
      i := i + 1;
    }
  }

  /** Takes the owner's next place and writes one slot there. */
  method PutSlot(n: nat, g: Csr, fill: array<int>, owner: int, slot: Slot,
                 ghost es: seq<int>, ghost et: seq<int>, ghost h: nat)
    requires ValidEdges(n, es, et) && h < 2 * |es|
    requires g.nb.Length == g.eid.Length == g.dir.Length == 2 * |es|
    requires g.nb != g.eid && g.eid != g.dir && g.nb != g.dir && fill !in {g.nb, g.eid, g.dir}
    requires Filling(fill[..], n, es, et, h) && Placed(g.nb[..], g.eid[..], g.dir[..], n, es, et, h)
    requires owner == Owner(es, et, h) && slot == SlotOf(es, et, h)
    modifies g.nb, g.eid, g.dir, fill
    ensures Filling(fill[..], n, es, et, h + 1) && Placed(g.nb[..], g.eid[..], g.dir[..], n, es, et, h + 1)
  {
    FillNext(fill[..], n, es, et, h);
    FreeSlot(n, es, et, h);
    var p := fill[owner];
    PlaceEach(g.nb[..], g.eid[..], g.dir[..], n, es, et, h, h + 1, p, slot);
    WriteSlot(g, p, slot);
    ghost var next := fill[..][owner := p + 1];
    fill[owner] := p + 1;
    assert fill[..] == next;
  }

  method WriteSlot(g: Csr, p: int, slot: Slot)
    requires 0 <= p < g.nb.Length == g.eid.Length == g.dir.Length
    requires g.nb != g.eid && g.eid != g.dir && g.nb != g.dir
    modifies g.nb, g.eid, g.dir
    ensures g.nb[..] == old(g.nb[..])[p := slot.nb]
    ensures g.eid[..] == old(g.eid[..])[p := slot.eid]
    ensures g.dir[..] == old(g.dir[..])[p := slot.dir]
  {
    g.nb[p], g.eid[p], g.dir[p] := slot.nb, slot.eid, slot.dir;
  }

  method CopyPrefix(a: array<int>, n: nat) returns (b: array<int>)
    requires n <= a.Length
    ensures fresh(b) && b[..] == a[..n]
  {
    b := new int[n];
    forall v | 0 <= v < n { b[v] := a[v]; }
  }

  method BuildAdjacency(n: nat, es: array<int>, et: array<int>) returns (g: Csr)
    requires ValidEdges(n, es[..], et[..])
    ensures IsIndex(g, n, es[..], et[..])
    ensures fresh(g.off) && fresh(g.nb) && fresh(g.eid) && fresh(g.dir)
    ensures g.off[0] == 0 && g.off[n] == 2 * es.Length
  {
    ghost var S, T := es[..], et[..];
    var off := CountDegrees(n, es, et);
    ghost var counts := off[..];
    AccumulateOffsets(n, off, S, T);
    StartTotal(n, S, T, 2 * es.Length);
    var nb, eid, dir := new int[off[n]], new int[off[n]], new int[off[n]];
    g := Csr(off, nb, eid, dir);
    var fill := CopyPrefix(off, n);
    FillStart(fill[..], off[..], counts, n, S, T);
    NothingPlaced(nb[..], eid[..], dir[..], n, S, T);
    Scatter(n, es, et, g, fill);
  }

  lemma NothingPlaced(nb: seq<int>, eid: seq<int>, dir: seq<int>, n: nat, es: seq<int>, et: seq<int>)
    requires |es| == |et|
    ensures Placed(nb, eid, dir, n, es, et, 0)
  {
    forall v: nat | v < n ensures BlockPlaced(nb, eid, dir, es, et, 0, v) { }
  }
}
