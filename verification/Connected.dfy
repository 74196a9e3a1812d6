/** Per-source tallies of a node's incident edges, read off the adjacency index. */
module Connected {
  import opened Common
  import opened Adjacency

  type Source(==, !new)

  datatype Row = Row(neighbors: set<int>, edges: nat, incoming: nat, outgoing: nat, inferred: nat, selfLoops: nat)

  const EMPTY_ROW: Row := Row({}, 0, 0, 0, 0, 0)

  // ---- the specification: one pass over the edges themselves ----

  predicate Touches(es: seq<int>, et: seq<int>, e: nat, i: int)
    requires |es| == |et| && e < |es|
  {
    es[e] == i || et[e] == i
  }

  function OtherEnd(es: seq<int>, et: seq<int>, e: nat, i: int): int
    requires |es| == |et| && e < |es|
  {
    if es[e] == i then et[e] else es[e]
  }

  function Count(row: Row, es: seq<int>, et: seq<int>, inferred: seq<bool>, e: nat, i: int): Row
    requires |es| == |et| == |inferred| && e < |es|
  {
    var v := OtherEnd(es, et, e, i);
    Row(if v != i then row.neighbors + {v} else row.neighbors,
        row.edges + 1,
        row.incoming + (if et[e] == i then 1 else 0),
        row.outgoing + (if es[e] == i then 1 else 0),
        row.inferred + (if inferred[e] then 1 else 0),
        row.selfLoops + (if v == i then 1 else 0))
  }

  /** The rows after counting each of the first `k` edges that touch `i` once. */
  function Tally(es: seq<int>, et: seq<int>, inferred: seq<bool>, source: seq<Source>, k: nat, i: int): map<Source, Row>
    requires |es| == |et| == |inferred| && k <= |es| && ValidEdges(|source|, es, et)
  {
    if k == 0 then map[]
    else
      var rows := Tally(es, et, inferred, source, k - 1, i);
      if !Touches(es, et, k - 1, i) then rows
      else
        var sid := source[OtherEnd(es, et, k - 1, i)];
        rows[sid := Count(if sid in rows then rows[sid] else EMPTY_ROW, es, et, inferred, k - 1, i)]
  }

  // ---- what the rows say ----

  /** The edges behind one row. */
  function EdgesOf(es: seq<int>, et: seq<int>, source: seq<Source>, k: nat, i: int, sid: Source): set<nat>
    requires |es| == |et| && k <= |es| && ValidEdges(|source|, es, et)
  {
    set e: nat | e < k && Touches(es, et, e, i) && source[OtherEnd(es, et, e, i)] == sid
  }

  function Matching(ends: seq<int>, i: int, edges: set<nat>): set<nat> {
    set e | e in edges && e < |ends| && ends[e] == i
  }

  function Flagged(flags: seq<bool>, edges: set<nat>): set<nat> {
    set e | e in edges && e < |flags| && flags[e]
  }

  function Ends(es: seq<int>, et: seq<int>, i: int, edges: set<nat>): set<int>
    requires |es| == |et|
  {
    set e | e in edges && e < |es| :: OtherEnd(es, et, e, i)
  }

  /** A row's numbers are the sizes of the edge sets they are named after, and its
      neighbours are the distinct other ends. */
  predicate RowMeans(row: Row, es: seq<int>, et: seq<int>, inferred: seq<bool>, i: int, edges: set<nat>)
    requires |es| == |et|
  {
    && row.edges == |edges|
    && row.incoming == |Matching(et, i, edges)|
    && row.outgoing == |Matching(es, i, edges)|
    && row.inferred == |Flagged(inferred, edges)|
    && row.selfLoops == |Matching(es, i, Matching(et, i, edges))|
    && row.neighbors == Ends(es, et, i, edges) - {i}
  }

  lemma MatchingAdd(ends: seq<int>, i: int, edges: set<nat>, e: nat)
    requires e < |ends| && e !in edges
    ensures Matching(ends, i, edges + {e}) == Matching(ends, i, edges) + (if ends[e] == i then {e} else {})
    ensures |Matching(ends, i, edges + {e})| == |Matching(ends, i, edges)| + (if ends[e] == i then 1 else 0)
  {
    assert Matching(ends, i, edges + {e}) == Matching(ends, i, edges) + (if ends[e] == i then {e} else {});
  }

  lemma FlaggedAdd(flags: seq<bool>, edges: set<nat>, e: nat)
    requires e < |flags| && e !in edges
    ensures |Flagged(flags, edges + {e})| == |Flagged(flags, edges)| + (if flags[e] then 1 else 0)
  {
    assert Flagged(flags, edges + {e}) == Flagged(flags, edges) + (if flags[e] then {e} else {});
  }

  lemma LoopsAdd(es: seq<int>, et: seq<int>, i: int, edges: set<nat>, e: nat)
    requires |es| == |et| && e < |es| && e !in edges
    ensures |Matching(es, i, Matching(et, i, edges + {e}))|
         == |Matching(es, i, Matching(et, i, edges))| + (if es[e] == i && et[e] == i then 1 else 0)
  {
    MatchingAdd(et, i, edges, e);
    if et[e] == i { MatchingAdd(es, i, Matching(et, i, edges), e); }
  }

  lemma EndsAdd(es: seq<int>, et: seq<int>, i: int, edges: set<nat>, e: nat)
    requires |es| == |et| && e < |es|
    ensures Ends(es, et, i, edges + {e}) == Ends(es, et, i, edges) + {OtherEnd(es, et, e, i)}
  {
    var all := edges + {e};
    forall v | v in Ends(es, et, i, edges) + {OtherEnd(es, et, e, i)} ensures v in Ends(es, et, i, all) {
      if v == OtherEnd(es, et, e, i) { assert e in all; }
      else {
        var f :| f in edges && f < |es| && v == OtherEnd(es, et, f, i);
        assert f in all;
      }
    }
  }

  lemma CountMeans(row: Row, es: seq<int>, et: seq<int>, inferred: seq<bool>, i: int, edges: set<nat>, e: nat)
    requires |es| == |et| == |inferred| && e < |es| && e !in edges && Touches(es, et, e, i)
    requires RowMeans(row, es, et, inferred, i, edges)
    ensures RowMeans(Count(row, es, et, inferred, e, i), es, et, inferred, i, edges + {e})
  {
    var row' := Count(row, es, et, inferred, e, i);
    assert row'.edges == |edges + {e}|;
    assert row'.incoming == |Matching(et, i, edges + {e})| by { MatchingAdd(et, i, edges, e); }
    assert row'.outgoing == |Matching(es, i, edges + {e})| by { MatchingAdd(es, i, edges, e); }
    assert row'.inferred == |Flagged(inferred, edges + {e})| by { FlaggedAdd(inferred, edges, e); }
    assert row'.selfLoops == |Matching(es, i, Matching(et, i, edges + {e}))| by { LoopsAdd(es, et, i, edges, e); }
    assert row'.neighbors == Ends(es, et, i, edges + {e}) - {i} by { EndsAdd(es, et, i, edges, e); }
  }

  lemma EdgesOfNext(es: seq<int>, et: seq<int>, source: seq<Source>, k: nat, i: int, sid: Source)
    requires |es| == |et| && k < |es| && ValidEdges(|source|, es, et)
    ensures EdgesOf(es, et, source, k + 1, i, sid) == EdgesOf(es, et, source, k, i, sid)
              + (if Touches(es, et, k, i) && source[OtherEnd(es, et, k, i)] == sid then {k} else {})
  {
  }

  /** Each source has a row exactly when some incident edge leads to it, and the row counts
      each such edge once, a self-loop as one edge with both directions. */
  lemma {:induction false} TallyMeans(es: seq<int>, et: seq<int>, inferred: seq<bool>, source: seq<Source>, k: nat, i: int, sid: Source)
    requires |es| == |et| == |inferred| && k <= |es| && ValidEdges(|source|, es, et)
    ensures var rows, edges := Tally(es, et, inferred, source, k, i), EdgesOf(es, et, source, k, i, sid);
            && (sid in rows <==> edges != {})
            && (sid in rows ==> RowMeans(rows[sid], es, et, inferred, i, edges))
    decreases k
  {
    if k > 0 {
      TallyMeans(es, et, inferred, source, k - 1, i, sid);
      EdgesOfNext(es, et, source, k - 1, i, sid);
      var before := EdgesOf(es, et, source, k - 1, i, sid);
      if Touches(es, et, k - 1, i) && source[OtherEnd(es, et, k - 1, i)] == sid {
        var rows := Tally(es, et, inferred, source, k - 1, i);
        if sid !in rows { NoEdgesMeans(es, et, inferred, i); }
        CountMeans(if sid in rows then rows[sid] else EMPTY_ROW, es, et, inferred, i, before, k - 1);
      }
    }
  }

  lemma NoEdgesMeans(es: seq<int>, et: seq<int>, inferred: seq<bool>, i: int)
    requires |es| == |et|
    ensures RowMeans(EMPTY_ROW, es, et, inferred, i, {})
  {
  }

  // ---- totals ----

  ghost function Directions(rows: map<Source, Row>): nat {
    if rows.Keys == {} then 0
    else
      var sid :| sid in rows.Keys;
      rows[sid].incoming + rows[sid].outgoing + Directions(rows - {sid})
  }

  lemma {:induction false} DirectionsWithout(rows: map<Source, Row>, sid: Source)
    requires sid in rows
    ensures Directions(rows) == rows[sid].incoming + rows[sid].outgoing + Directions(rows - {sid})
    decreases |rows|
  {
    var pick :| pick in rows.Keys
                && Directions(rows) == rows[pick].incoming + rows[pick].outgoing + Directions(rows - {pick});
    if pick != sid {
      DirectionsWithout(rows - {pick}, sid);
      DirectionsWithout(rows - {sid}, pick);
      assert rows - {pick} - {sid} == rows - {sid} - {pick};
    }
  }

  lemma DirectionsUpdate(rows: map<Source, Row>, sid: Source, row: Row)
    ensures Directions(rows[sid := row])
         == Directions(rows) + row.incoming + row.outgoing
            - (if sid in rows then rows[sid].incoming + rows[sid].outgoing else 0)
  {
    DirectionsWithout(rows[sid := row], sid);
    assert rows[sid := row] - {sid} == rows - {sid};
    if sid in rows { DirectionsWithout(rows, sid); } else { assert rows - {sid} == rows; }
  }

  /** Over all rows, incoming plus outgoing is the length of the node's block. */
  lemma {:induction false} TallyTotal(es: seq<int>, et: seq<int>, inferred: seq<bool>, source: seq<Source>, k: nat, i: int, h: nat)
    requires |es| == |et| == |inferred| && k <= |es| && ValidEdges(|source|, es, et) && h == 2 * k
    ensures Directions(Tally(es, et, inferred, source, k, i)) == |Block(es, et, h, i)|
    decreases k
  {
    if k > 0 {
      TallyTotal(es, et, inferred, source, k - 1, i, h - 2);
      BlockOfEdge(es, et, k - 1, h - 2, h, i);
      TallyNextTotal(es, et, inferred, source, k - 1, i);
    }
  }

  lemma TallyNextTotal(es: seq<int>, et: seq<int>, inferred: seq<bool>, source: seq<Source>, k: nat, i: int)
    requires |es| == |et| == |inferred| && k < |es| && ValidEdges(|source|, es, et)
    ensures Directions(Tally(es, et, inferred, source, k + 1, i)) == Directions(Tally(es, et, inferred, source, k, i))
              + (if es[k] == i then 1 else 0) + (if et[k] == i then 1 else 0)
  {
    if Touches(es, et, k, i) {
      var rows := Tally(es, et, inferred, source, k, i);
      var sid := source[OtherEnd(es, et, k, i)];
      DirectionsUpdate(rows, sid, Count(if sid in rows then rows[sid] else EMPTY_ROW, es, et, inferred, k, i));
    }
  }

  lemma HalvesOf(es: seq<int>, et: seq<int>, e: nat)
    requires |es| == |et| && e < |es|
    ensures Owner(es, et, 2 * e) == es[e] && Owner(es, et, 2 * e + 1) == et[e]
    ensures (2 * e) / 2 == e && (2 * e + 1) / 2 == e
  {
  }

  lemma BlockOfEdge(es: seq<int>, et: seq<int>, e: nat, h: nat, h2: nat, i: int)
    requires |es| == |et| && e < |es| && h == 2 * e && h2 == h + 2
    ensures |Block(es, et, h2, i)| == |Block(es, et, h, i)|
              + (if es[e] == i then 1 else 0) + (if et[e] == i then 1 else 0)
  {
    HalvesOf(es, et, e);
    BlockTwo(es, et, h, h + 1, h2, i);
  }

  lemma BlockTwo(es: seq<int>, et: seq<int>, h: nat, h1: nat, h2: nat, i: int)
    requires |es| == |et| && h1 == h + 1 && h2 == h1 + 1 && h2 <= 2 * |es|
    ensures |Block(es, et, h2, i)| == |Block(es, et, h, i)|
              + (if Owner(es, et, h) == i then 1 else 0) + (if Owner(es, et, h1) == i then 1 else 0)
  {
    BlockNext(es, et, h, i);
    BlockNext(es, et, h1, i);
  }

  lemma BlockNext(es: seq<int>, et: seq<int>, h: nat, i: int)
    requires |es| == |et| && h < 2 * |es|
    ensures |Block(es, et, h + 1, i)| == |Block(es, et, h, i)| + (if Owner(es, et, h) == i then 1 else 0)
  {
  }

  // ---- the pass over the block ----

  /** The rows after the first `h` half-edges, a self-loop's second half skipped. */
  function SlotTally(es: seq<int>, et: seq<int>, inferred: seq<bool>, source: seq<Source>, h: nat, i: int): map<Source, Row>
    requires |es| == |et| == |inferred| && h <= 2 * |es| && ValidEdges(|source|, es, et)
  {
    if h == 0 then map[]
    else
      var rows, e := SlotTally(es, et, inferred, source, h - 1, i), (h - 1) / 2;
      if Owner(es, et, h - 1) != i || (h % 2 == 0 && es[e] == i) then rows
      else
        var sid := source[OtherEnd(es, et, e, i)];
        rows[sid := Count(if sid in rows then rows[sid] else EMPTY_ROW, es, et, inferred, e, i)]
  }

  lemma {:induction false} SlotTallyIsTally(es: seq<int>, et: seq<int>, inferred: seq<bool>, source: seq<Source>, k: nat, i: int)
    requires |es| == |et| == |inferred| && k <= |es| && ValidEdges(|source|, es, et)
    ensures SlotTally(es, et, inferred, source, 2 * k, i) == Tally(es, et, inferred, source, k, i)
    decreases k
  {
    if k > 0 {
      SlotTallyIsTally(es, et, inferred, source, k - 1, i);
      var mid := SlotTally(es, et, inferred, source, 2 * k - 1, i);
      assert Owner(es, et, 2 * k - 1) == et[k - 1] && Owner(es, et, 2 * k - 2) == es[k - 1];
    }
  }

  /** The edges met among the first `h` half-edges of `i`. */
  ghost function Met(es: seq<int>, et: seq<int>, h: nat, i: int): set<int>
    requires |es| == |et| && h <= 2 * |es|
  {
    set e | 0 <= e < |es| && ((2 * e < h && es[e] == i) || (2 * e + 1 < h && et[e] == i))
  }

  /** The next half-edge of `i`, with nothing of `i` in between. */
  lemma {:induction false} NextOwned(es: seq<int>, et: seq<int>, h: nat, i: int) returns (g: nat)
    requires |es| == |et| && h <= 2 * |es| && |Block(es, et, h, i)| < |Block(es, et, 2 * |es|, i)|
    ensures h <= g < 2 * |es| && Owner(es, et, g) == i && Unowned(es, et, h, g, i)
    decreases 2 * |es| - h
  {
    if Owner(es, et, h) == i { g := h; }
    else {
      BlockNext(es, et, h, i);
      g := NextOwned(es, et, h + 1, i);
    }
  }

  predicate Unowned(es: seq<int>, et: seq<int>, h: nat, g: nat, i: int)
    requires |es| == |et| && g <= 2 * |es|
  {
    forall x: nat :: h <= x < g ==> Owner(es, et, x) != i
  }

  /** Half-edges of other nodes leave the block and the rows alone. */
  lemma {:induction false} SkipUnowned(es: seq<int>, et: seq<int>, inferred: seq<bool>, source: seq<Source>, h: nat, g: nat, i: int)
    requires |es| == |et| == |inferred| && h <= g <= 2 * |es| && ValidEdges(|source|, es, et) && Unowned(es, et, h, g, i)
    ensures Block(es, et, g, i) == Block(es, et, h, i)
    ensures SlotTally(es, et, inferred, source, g, i) == SlotTally(es, et, inferred, source, h, i)
    decreases g
  {
    if h < g { SkipUnowned(es, et, inferred, source, h, g - 1, i); }
  }

  lemma SkipMet(es: seq<int>, et: seq<int>, h: nat, g: nat, i: int)
    requires |es| == |et| && h <= g <= 2 * |es| && Unowned(es, et, h, g, i)
    ensures Met(es, et, g, i) == Met(es, et, h, i)
  {
    forall e | e in Met(es, et, g, i) ensures e in Met(es, et, h, i) {
      HalvesOf(es, et, e);
      if 2 * e < g && es[e] == i { assert 2 * e < h; }
      else { assert 2 * e + 1 < h; }
    }
  }

  /** An edge was met before its current slot exactly when that slot is the second half of a
      self-loop. */
  lemma MetBefore(es: seq<int>, et: seq<int>, g: nat, i: int)
    requires |es| == |et| && g < 2 * |es| && Owner(es, et, g) == i
    ensures g / 2 in Met(es, et, g, i) <==> g % 2 == 1 && es[g / 2] == i
    ensures Met(es, et, g + 1, i) == Met(es, et, g, i) + {g / 2}
  {
  }

  /** One slot's worth of counting, as the explorer does it. */
  method CountSlot(rows: map<Source, Row>, es: array<int>, et: array<int>, inferred: array<bool>,
                   source: seq<Source>, i: int, e: nat, v: int) returns (rows': map<Source, Row>)
    requires es.Length == et.Length == inferred.Length && e < es.Length && 0 <= v < |source|
    requires Touches(es[..], et[..], e, i) && v == OtherEnd(es[..], et[..], e, i)
    ensures rows' == rows[source[v] := Count(if source[v] in rows then rows[source[v]] else EMPTY_ROW,
                                            es[..], et[..], inferred[..], e, i)]
  {
    var sid := source[v];
    var row := if sid in rows then rows[sid] else EMPTY_ROW;
    if v != i { row := row.(neighbors := row.neighbors + {v}); } else { row := row.(selfLoops := row.selfLoops + 1); }
    row := row.(edges := row.edges + 1);
    if es[e] == i { row := row.(outgoing := row.outgoing + 1); }
    if et[e] == i { row := row.(incoming := row.incoming + 1); }
    if inferred[e] { row := row.(inferred := row.inferred + 1); }
    rows' := rows[sid := row];
  }

  /** What the next slot holds, and that it advances the tally. */
  lemma NextSlot(g: Csr, es: seq<int>, et: seq<int>, inferred: seq<bool>, source: seq<Source>, i: int, h: nat, x: nat, p: int)
    requires |es| == |et| == |inferred| && IsIndex(g, |source|, es, et) && 0 <= i < |source|
    requires h <= x < 2 * |es| && Owner(es, et, x) == i && Unowned(es, et, h, x, i)
    requires p == g.off[i] + |Block(es, et, h, i)|
    ensures 0 <= p < g.nb.Length && g.eid[p] == x / 2 && g.nb[p] == OtherEnd(es, et, x / 2, i)
    ensures Touches(es, et, x / 2, i) && 0 <= g.nb[p] < |source|
    ensures p + 1 == g.off[i] + |Block(es, et, x + 1, i)|
    ensures SlotTally(es, et, inferred, source, x, i) == SlotTally(es, et, inferred, source, h, i)
  {
    SkipUnowned(es, et, inferred, source, h, x, i);
    BlockNext(es, et, x, i);
    BlockGrows(es, et, x + 1, 2 * |es|, i);
    var q := |Block(es, et, h, i)|;
    assert Block(es, et, x + 1, i)[q] == SlotOf(es, et, x);
    SlotInBlock(g, |source|, es, et, i, q);
  }

  /** What visiting place `p` must do: the slot's edge is counted unless it was met before. */
  lemma VisitFacts(g: Csr, es: seq<int>, et: seq<int>, inferred: seq<bool>, source: seq<Source>, i: int, p: int, h: nat)
    returns (x: nat)
    requires |es| == |et| == |inferred| && IsIndex(g, |source|, es, et) && 0 <= i < |source| && h <= 2 * |es|
    requires p == g.off[i] + |Block(es, et, h, i)| && p < g.off[i + 1]
    ensures x < 2 * |es| && 0 <= p < g.nb.Length && g.eid[p] == x / 2 && Touches(es, et, x / 2, i)
    ensures 0 <= g.nb[p] < |source| && g.nb[p] == OtherEnd(es, et, x / 2, i)
    ensures p + 1 == g.off[i] + |Block(es, et, x + 1, i)| <= g.off[i + 1]
    ensures Met(es, et, x + 1, i) == Met(es, et, h, i) + {x / 2}
    ensures SlotTally(es, et, inferred, source, x + 1, i)
         == if x / 2 in Met(es, et, h, i) then SlotTally(es, et, inferred, source, h, i)
            else SlotCounted(SlotTally(es, et, inferred, source, h, i), es, et, inferred, source, x / 2, i)
  {
    BlockSpan(g, |source|, es, et, i);
    x := NextOwned(es, et, h, i);
    NextSlot(g, es, et, inferred, source, i, h, x, p);
    SkipMet(es, et, h, x, i);
    MetBefore(es, et, x, i);
    BlockSpanStep(es, et, x, i);
  }

  /** The rows with one more edge of `i` counted at its other end's source. */
  function SlotCounted(rows: map<Source, Row>, es: seq<int>, et: seq<int>, inferred: seq<bool>, source: seq<Source>, e: nat, i: int): map<Source, Row>
    requires |es| == |et| == |inferred| && e < |es| && Touches(es, et, e, i) && 0 <= OtherEnd(es, et, e, i) < |source|
  {
    var sid := source[OtherEnd(es, et, e, i)];
    rows[sid := Count(if sid in rows then rows[sid] else EMPTY_ROW, es, et, inferred, e, i)]
  }

  /** Counts an edge unless it was already counted. */
  method VisitEdge(rows: map<Source, Row>, seen: set<int>, es: array<int>, et: array<int>, inferred: array<bool>,
                   source: seq<Source>, i: int, e: nat, v: int)
    returns (rows': map<Source, Row>, seen': set<int>)
    requires es.Length == et.Length == inferred.Length && e < es.Length && 0 <= v < |source|
    requires Touches(es[..], et[..], e, i) && v == OtherEnd(es[..], et[..], e, i)
    ensures seen' == seen + {e}
    ensures rows' == if e in seen then rows else SlotCounted(rows, es[..], et[..], inferred[..], source, e, i)
  {
    rows', seen' := rows, seen;
    if e !in seen {
      seen' := seen + {e};
      rows' := CountSlot(rows, es, et, inferred, source, i, e, v);
    }
  }

  /** The rows of a node in a group, and none at all outside a group. */
  method ConnectedSources(g: Csr, es: array<int>, et: array<int>, inferred: array<bool>, source: seq<Source>,
                          i: int, grouped: bool) returns (rows: map<Source, Row>)
    requires es.Length == et.Length == inferred.Length
    requires IsIndex(g, |source|, es[..], et[..]) && 0 <= i < |source|
    ensures rows == if grouped then Tally(es[..], et[..], inferred[..], source, es.Length, i) else map[]
  {
    rows := map[];
    if grouped { rows := TallyBlock(g, es, et, inferred, source, i); }
  }

  method TallyBlock(g: Csr, es: array<int>, et: array<int>, inferred: array<bool>, source: seq<Source>, i: int)
    returns (rows: map<Source, Row>)
    requires es.Length == et.Length == inferred.Length
    requires IsIndex(g, |source|, es[..], et[..]) && 0 <= i < |source|
    ensures rows == Tally(es[..], et[..], inferred[..], source, es.Length, i)
  {
    rows := map[];
    ghost var S, T, F := es[..], et[..], inferred[..];
    var seen: set<int> := {};
    ghost var h: nat := 0;
    var p := g.off[i];
    BlockSpan(g, |source|, S, T, i);
    while p < g.off[i + 1]
      invariant p <= g.off[i + 1] && h <= 2 * |S| && p == g.off[i] + |Block(S, T, h, i)|
      invariant rows == SlotTally(S, T, F, source, h, i)
      invariant seen == Met(S, T, h, i)
    {
      ghost var x := VisitFacts(g, S, T, F, source, i, p, h);
      rows, seen := VisitEdge(rows, seen, es, et, inferred, source, i, g.eid[p], g.nb[p]);
      h := x + 1;
      p := p + 1;
    }
    BlockFull(S, T, F, source, h, i);
    SlotTallyIsTally(S, T, F, source, |S|, i);
  }

  lemma BlockSpanStep(es: seq<int>, et: seq<int>, x: nat, i: int)
    requires |es| == |et| && x < 2 * |es|
    ensures |Block(es, et, x + 1, i)| <= |Block(es, et, 2 * |es|, i)|
  {
    BlockGrows(es, et, x + 1, 2 * |es|, i);
  }

  lemma BlockSpan(g: Csr, n: nat, es: seq<int>, et: seq<int>, i: int)
    requires IsIndex(g, n, es, et) && 0 <= i < n
    ensures 0 <= g.off[i] && g.off[i + 1] == g.off[i] + |Block(es, et, 2 * |es|, i)|
  {
  }

  lemma SlotInBlock(g: Csr, n: nat, es: seq<int>, et: seq<int>, i: int, q: nat)
    requires IsIndex(g, n, es, et) && 0 <= i < n && q < |Block(es, et, 2 * |es|, i)|
    ensures 0 <= g.off[i] + q < g.nb.Length
    ensures var s := Block(es, et, 2 * |es|, i)[q];
            g.nb[g.off[i] + q] == s.nb && g.eid[g.off[i] + q] == s.eid
  {
    assert BlockPlaced(g.nb[..], g.eid[..], g.dir[..], es, et, 2 * |es|, i);
    var s := Block(es, et, 2 * |es|, i)[q];
    assert SlotAt(g.nb[..], g.eid[..], g.dir[..], g.off[i] + q, s);
  }

  /** With the block exhausted, the remaining half-edges change nothing. */
  lemma {:induction false} BlockFull(es: seq<int>, et: seq<int>, inferred: seq<bool>, source: seq<Source>, h: nat, i: int)
    requires |es| == |et| == |inferred| && h <= 2 * |es| && ValidEdges(|source|, es, et)
    requires |Block(es, et, h, i)| == |Block(es, et, 2 * |es|, i)|
    ensures SlotTally(es, et, inferred, source, h, i) == SlotTally(es, et, inferred, source, 2 * |es|, i)
    decreases 2 * |es| - h
  {
    if h < 2 * |es| {
      BlockGrows(es, et, h + 1, 2 * |es|, i);
      BlockFull(es, et, inferred, source, h + 1, i);
    }
  }
}
