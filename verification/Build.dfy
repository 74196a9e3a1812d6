/** One group build: merging the source graphs, placing evidence on nodes, and emitting relations. */
module GroupBuild {
  import opened Common
  import opened Composition
  import opened Merge

  datatype Failure = DEADLINE_EXCEEDED | INVALID_GRAPH | GRAPH_LIMIT | INVALID_EVIDENCE

  datatype Reason =
    | DeadlineExceeded | NodeLimit | EdgeLimit | CandidateLimit | ComparisonLimit

  /** A located node of a file: the lines it covers. */
  datatype Located = Located(lo: int, hi: int, id: NodeId)

  // ---- what a merge returns ----

  /** The first failure a merge meets, from source `k` on; `clock` answers the merge's deadline checks in turn. */
  function MergeFrom(
      sources: seq<Source>, k: nat, clock: nat -> bool, size: (seq<GraphNode>, seq<GraphLink>) -> nat): Option<Failure>
    requires k <= |sources| && SourcesOk(sources, k) && AllReadable(sources, k)
    decreases |sources| - k
  {
    if k == |sources| then
      if size(AllNodes(sources, k), AllLinks(sources, k)) > MAX_GRAPH_BYTES then Some(GRAPH_LIMIT) else None
    else if !clock(k) then Some(DEADLINE_EXCEEDED)
    else if !SourceOk(sources[k]) then Some(INVALID_GRAPH)
    else
      OkIsReadable(sources, k + 1);
      if NodeCount(sources, k + 1) > MAX_NODES || LinkCount(sources, k + 1) > MAX_EDGES then Some(GRAPH_LIMIT)
      else MergeFrom(sources, k + 1, clock, size)
  }

  predicate OnTime(clock: nat -> bool, k: nat, n: nat) {
    forall i :: k <= i < n ==> clock(i)
  }

  predicate Fits(sources: seq<Source>, k: nat)
    requires k <= |sources|
  {
    NodeCount(sources, k) <= 50_000 && LinkCount(sources, k) <= 200_000
  }

  /** Every source sound, the totals and the serialized graph within the limits. */
  predicate Mergeable(sources: seq<Source>, size: (seq<GraphNode>, seq<GraphLink>) -> nat) {
    var n := |sources|;
    && SourcesOk(sources, n) && AllReadable(sources, n) && Fits(sources, n)
    && size(AllNodes(sources, n), AllLinks(sources, n)) <= 33_554_432
  }

  lemma {:induction false} SucceedsThenMergeable(
      sources: seq<Source>, k: nat, clock: nat -> bool, size: (seq<GraphNode>, seq<GraphLink>) -> nat)
    requires k <= |sources| && SourcesOk(sources, k) && AllReadable(sources, k) && Fits(sources, k)
    requires MergeFrom(sources, k, clock, size).None?
    ensures OnTime(clock, k, |sources|) && Mergeable(sources, size)
    decreases |sources| - k
  {
    if k < |sources| {
      OkIsReadable(sources, k + 1);
      SucceedsThenMergeable(sources, k + 1, clock, size);
    }
  }

  lemma {:induction false} MergeableThenSucceeds(
      sources: seq<Source>, k: nat, clock: nat -> bool, size: (seq<GraphNode>, seq<GraphLink>) -> nat)
    requires k <= |sources| && OnTime(clock, k, |sources|) && Mergeable(sources, size)
    ensures SourcesOk(sources, k) && AllReadable(sources, k) && MergeFrom(sources, k, clock, size).None?
    decreases |sources| - k
  {
    assert forall i :: 0 <= i < k ==> SourceOk(sources[i]) && Readable(sources[i]);
    if k < |sources| {
      CountsGrow(sources, k + 1, |sources|);
      MergeableThenSucceeds(sources, k + 1, clock, size);
      assert SourceOk(sources[k]);
    }
  }

  /** A merge succeeds if and only if every source is sound, the totals fit and time lasts. */
  lemma MergeSucceeds(sources: seq<Source>, clock: nat -> bool, size: (seq<GraphNode>, seq<GraphLink>) -> nat)
    ensures MergeFrom(sources, 0, clock, size).None? <==> OnTime(clock, 0, |sources|) && Mergeable(sources, size)
  {
    if MergeFrom(sources, 0, clock, size).None? {
      SucceedsThenMergeable(sources, 0, clock, size);
    } else if OnTime(clock, 0, |sources|) && Mergeable(sources, size) {
      MergeableThenSucceeds(sources, 0, clock, size);
    }
  }

  /** A graph in order: nodes with a scalar id each, none twice, and no unsafe path; links between its nodes. */
  predicate InGoodOrder(s: Source) {
    && (forall i :: 0 <= i < |s.nodes| ==>
          s.nodes[i].Node? && (s.nodes[i].id.Flag? || s.nodes[i].id.Number? || s.nodes[i].id.Text?) && !s.nodes[i].file.UnsafeFile?)
    && (forall i, j :: 0 <= i < j < |s.nodes| && s.nodes[i].Node? && s.nodes[j].Node? ==> s.nodes[i].id != s.nodes[j].id)
    && (forall l :: 0 <= l < |s.links| ==> s.links[l].Link? && IsEnd(s, s.links[l].source) && IsEnd(s, s.links[l].target))
  }

  predicate IsEnd(s: Source, v: Value) {
    exists i :: 0 <= i < |s.nodes| && s.nodes[i].Node? && s.nodes[i].id == v
  }

  lemma SourceOkMeans(s: Source)
    ensures SourceOk(s) <==> InGoodOrder(s)
  {
    if SourceOk(s) {
      forall l | 0 <= l < |s.links| ensures s.links[l].Link? && IsEnd(s, s.links[l].source) && IsEnd(s, s.links[l].target) {
        assert LinkOk(s, s.links[l]);
      }
      forall i | 0 <= i < |s.nodes|
        ensures s.nodes[i].Node? && (s.nodes[i].id.Flag? || s.nodes[i].id.Number? || s.nodes[i].id.Text?) && !s.nodes[i].file.UnsafeFile?
      {
        assert NodeOk(s.nodes[i]);
      }
    }
    if InGoodOrder(s) { GoodOrderIsOk(s); }
  }

  lemma GoodOrderIsOk(s: Source)
    requires InGoodOrder(s)
    ensures SourceOk(s)
  {
    forall l | 0 <= l < |s.links| ensures LinkOk(s, s.links[l]) {
      EndIsNode(s, s.links[l].source);
      EndIsNode(s, s.links[l].target);
    }
  }

  lemma EndIsNode(s: Source, v: Value)
    requires InGoodOrder(s) && IsEnd(s, v)
    ensures HasNode(s.nodes, v) && IsScalar(v)
  {
    var i :| 0 <= i < |s.nodes| && s.nodes[i].Node? && s.nodes[i].id == v;
  }

  /** A merge succeeds exactly when every graph is in order, there are at most 50000 nodes and 200000
      links, the result is at most 32 MiB, and no look at the clock, one for each source, finds no time. */
  lemma MergeAccepts(sources: seq<Source>, clock: nat -> bool, size: (seq<GraphNode>, seq<GraphLink>) -> nat)
    ensures MergeFrom(sources, 0, clock, size).None? <==>
      && (forall i :: 0 <= i < |sources| ==> clock(i)) && (forall i :: 0 <= i < |sources| ==> InGoodOrder(sources[i]))
      && AllReadable(sources, |sources|)
      && |AllNodes(sources, |sources|)| <= 50_000 && |AllLinks(sources, |sources|)| <= 200_000
      && size(AllNodes(sources, |sources|), AllLinks(sources, |sources|)) <= 33_554_432
  {
    MergeSucceeds(sources, clock, size);
    forall i | 0 <= i < |sources| ensures SourceOk(sources[i]) <==> InGoodOrder(sources[i]) { SourceOkMeans(sources[i]); }
    if SourcesOk(sources, |sources|) { OkIsReadable(sources, |sources|); }
    if AllReadable(sources, |sources|) { CountsAdd(sources, |sources|); }
  }

  // ---- where evidence lands ----

  /** The located nodes of a file among the first `k`, in order. */
  function LocatedIn(nodes: seq<GraphNode>, k: nat, source: SourceId, file: Path): seq<Located>
    requires k <= |nodes|
  {
    if k == 0 then []
    else
      var n, before := nodes[k - 1], LocatedIn(nodes, k - 1, source, file);
      if n.source == source && n.file == Some(file) && n.span.Some?
      then before + [Located(n.span.value.lo, n.span.value.hi, n.id)] else before
  }

  predicate Encloses(n: GraphNode, e: Evidence) {
    && n.source == e.source && n.file == Some(e.file) && n.span.Some?
    && n.span.value.lo <= e.start <= e.end <= n.span.value.hi
  }

  function Width(n: GraphNode): int
    requires n.span.Some?
  {
    n.span.value.hi - n.span.value.lo
  }

  /** Node `i` encloses the evidence and no enclosing node is tighter, or as tight and earlier in the id order. */
  ghost predicate Tightest(nodes: seq<GraphNode>, i: nat, e: Evidence, rank: NodeId -> int)
    requires i < |nodes|
  {
    && Encloses(nodes[i], e)
    && forall j :: 0 <= j < |nodes| && Encloses(nodes[j], e) ==>
         Width(nodes[i]) < Width(nodes[j])
         || (Width(nodes[i]) == Width(nodes[j]) && rank(nodes[i].id) <= rank(nodes[j].id))
  }

  function AnchorId(e: Evidence): NodeId {
    Anchor(e.source, e.file, e.start, e.end)
  }

  function AnchorNode(e: Evidence): GraphNode {
    GraphNode(AnchorId(e), Null, e.source, e.version, Some(e.file), Some(Span(e.start, e.end)), None, None)
  }

  /** The node the evidence lands on: the tightest located node around it, else its own anchor. */
  ghost predicate LandsOn(nodes: seq<GraphNode>, e: Evidence, id: NodeId, rank: NodeId -> int) {
    || (exists i :: 0 <= i < |nodes| && nodes[i].id == id && Tightest(nodes, i, e, rank))
    || (&& (forall i :: 0 <= i < |nodes| ==> !Encloses(nodes[i], e))
        && id == AnchorId(e) && AnchorNode(e) in nodes)
  }

  /** A relation is grounded: two pinned quotes of different sources, each end on the node its quote lands on. */
  ghost predicate Grounded(r: GraphLink, nodes: seq<GraphNode>, sources: seq<Source>, rank: NodeId -> int) {
    && r.Related? && r.left.source != r.right.source
    && ValidEvidence(r.left, sources) && ValidEvidence(r.right, sources)
    && LandsOn(nodes, r.left, r.from, rank) && LandsOn(nodes, r.right, r.target, rank)
    && r.id == RelationId(r.from, r.target, r.relation, r.kind.Inferred?, r.left, r.right)
  }

  ghost predicate HasEncloser(nodes: seq<GraphNode>, e: Evidence) {
    exists i :: 0 <= i < |nodes| && Encloses(nodes[i], e)
  }

  /** Evidence can be placed: around it a located node, or its anchor, or room for one. */
  ghost predicate CanPlace(nodes: seq<GraphNode>, e: Evidence) {
    HasEncloser(nodes, e) || AnchorNode(e) in nodes || |nodes| < 50_000
  }

  /** The nodes once the evidence is placed: one anchor more when nothing else holds it. */
  ghost function Placed(nodes: seq<GraphNode>, e: Evidence): seq<GraphNode> {
    if HasEncloser(nodes, e) || AnchorNode(e) in nodes || |nodes| >= 50_000 then nodes else nodes + [AnchorNode(e)]
  }

  predicate Covers(x: Located, e: Evidence) {
    x.lo <= e.start <= e.end <= x.hi
  }

  /** The located list of the evidence's file is exactly the located nodes of that file. */
  lemma {:induction false} LocatedMeans(nodes: seq<GraphNode>, k: nat, e: Evidence)
    requires k <= |nodes|
    ensures forall x :: x in LocatedIn(nodes, k, e.source, e.file) && Covers(x, e) ==>
      exists i :: 0 <= i < k && Encloses(nodes[i], e) && x == Located(nodes[i].span.value.lo, nodes[i].span.value.hi, nodes[i].id)
    ensures forall i :: 0 <= i < k && Encloses(nodes[i], e) ==>
      var x := Located(nodes[i].span.value.lo, nodes[i].span.value.hi, nodes[i].id);
      x in LocatedIn(nodes, k, e.source, e.file) && Covers(x, e)
  {
    if k > 0 {
      LocatedMeans(nodes, k - 1, e);
    }
  }

  function At(m: map<(SourceId, Path), seq<Located>>, source: SourceId, file: Path): seq<Located> {
    if (source, file) in m then m[(source, file)] else []
  }

  ghost predicate LocationsMatch(m: map<(SourceId, Path), seq<Located>>, nodes: seq<GraphNode>) {
    forall s, f :: At(m, s, f) == LocatedIn(nodes, |nodes|, s, f)
  }

  lemma {:induction false} LocatedPrefix(a: seq<GraphNode>, b: seq<GraphNode>, k: nat, s: SourceId, f: Path)
    requires k <= |a| && k <= |b| && forall i :: 0 <= i < k ==> a[i] == b[i]
    ensures LocatedIn(a, k, s, f) == LocatedIn(b, k, s, f)
  {
    if k > 0 { LocatedPrefix(a, b, k - 1, s, f); }
  }

  lemma LocatedNext(nodes: seq<GraphNode>, n: GraphNode, s: SourceId, f: Path)
    ensures var before := LocatedIn(nodes, |nodes|, s, f);
      LocatedIn(nodes + [n], |nodes| + 1, s, f)
      == if n.source == s && n.file == Some(f) && n.span.Some?
         then before + [Located(n.span.value.lo, n.span.value.hi, n.id)] else before
  {
    LocatedPrefix(nodes, nodes + [n], |nodes|, s, f);
  }

  /** The location table once a node is appended. */
  function Locate(m: map<(SourceId, Path), seq<Located>>, n: GraphNode): map<(SourceId, Path), seq<Located>> {
    if n.file.Some? && n.span.Some? then
      m[(n.source, n.file.value) := At(m, n.source, n.file.value) + [Located(n.span.value.lo, n.span.value.hi, n.id)]]
    else m
  }

  lemma LocateMatches(m: map<(SourceId, Path), seq<Located>>, nodes: seq<GraphNode>, n: GraphNode)
    requires LocationsMatch(m, nodes)
    ensures LocationsMatch(Locate(m, n), nodes + [n])
  {
    forall s, f ensures At(Locate(m, n), s, f) == LocatedIn(nodes + [n], |nodes + [n]|, s, f) {
      LocatedNext(nodes, n, s, f);
      assert At(m, s, f) == LocatedIn(nodes, |nodes|, s, f);
    }
  }

  /** An anchor encloses nothing, so what is grounded stays grounded. */
  lemma LandsLater(nodes: seq<GraphNode>, n: GraphNode, e: Evidence, id: NodeId, rank: NodeId -> int)
    requires n.span.None? && LandsOn(nodes, e, id, rank)
    ensures LandsOn(nodes + [n], e, id, rank)
  {
    var all := nodes + [n];
    if i :| 0 <= i < |nodes| && nodes[i].id == id && Tightest(nodes, i, e, rank) {
      assert all[i] == nodes[i];
      assert Tightest(all, i, e, rank);
    } else {
      assert AnchorNode(e) in all;
    }
  }

  /** An anchor stands for its cited lines and nothing else, and is never a located node. */
  lemma AnchorMeans(e: Evidence, d: Evidence)
    ensures AnchorId(e) == AnchorId(d) <==> e.source == d.source && e.file == d.file && e.start == d.start && e.end == d.end
    ensures var n := AnchorNode(e);
      && n.id == AnchorId(e) && n.source == e.source && n.version == e.version && n.file == Some(e.file)
      && n.lines == Some(Span(e.start, e.end)) && n.span.None?
  {
  }

  // ---- anchors ----

  /** The anchors made so far are exactly the anchor nodes of the graph. */
  ghost predicate AnchorsMatch(anchors: set<NodeId>, nodes: seq<GraphNode>, sources: seq<Source>) {
    && (forall i :: 0 <= i < |nodes| && nodes[i].id.Anchor? ==> nodes[i].id in anchors)
    && (forall e :: ValidEvidence(e, sources) && AnchorId(e) in anchors ==> AnchorNode(e) in nodes)
  }

  /** Every relation grounded on the nodes of the graph. */
  ghost predicate AllGrounded(rs: seq<GraphLink>, nodes: seq<GraphNode>, sources: seq<Source>, rank: NodeId -> int) {
    forall i :: 0 <= i < |rs| ==> Grounded(rs[i], nodes, sources, rank)
  }

  lemma GroundedLater(rs: seq<GraphLink>, nodes: seq<GraphNode>, e: Evidence, sources: seq<Source>, rank: NodeId -> int)
    requires AllGrounded(rs, nodes, sources, rank)
    ensures AllGrounded(rs, Placed(nodes, e), sources, rank)
  {
    if Placed(nodes, e) != nodes {
      forall i | 0 <= i < |rs| ensures Grounded(rs[i], nodes + [AnchorNode(e)], sources, rank) {
        assert Grounded(rs[i], nodes, sources, rank);
        LandsLater(nodes, AnchorNode(e), rs[i].left, rs[i].from, rank);
        LandsLater(nodes, AnchorNode(e), rs[i].right, rs[i].target, rank);
      }
    }
  }

  /** Candidates pair different sources, none twice, at most 1000. */
  ghost predicate CandidatesOk(cs: seq<Candidate>) {
    && |cs| <= 1_000
    && (forall i :: 0 <= i < |cs| ==> cs[i].left.source != cs[i].right.source)
    && (forall i, j :: 0 <= i < j < |cs| ==> cs[i] != cs[j])
  }

  ghost function BothPlaced(nodes: seq<GraphNode>, c: Candidate): (r: seq<GraphNode>)
    ensures nodes <= r
  {
    Placed(Placed(nodes, c.left), c.right)
  }

  ghost predicate CanPlaceBoth(nodes: seq<GraphNode>, c: Candidate) {
    CanPlace(nodes, c.left) && CanPlace(Placed(nodes, c.left), c.right)
  }

  lemma BothGroundedLater(rs: seq<GraphLink>, nodes: seq<GraphNode>, c: Candidate, sources: seq<Source>, rank: NodeId -> int)
    requires AllGrounded(rs, nodes, sources, rank)
    ensures AllGrounded(rs, BothPlaced(nodes, c), sources, rank)
  {
    GroundedLater(rs, nodes, c.left, sources, rank);
    GroundedLater(rs, Placed(nodes, c.left), c.right, sources, rank);
  }

  lemma OneMore(rs: seq<GraphLink>, r: GraphLink, nodes: seq<GraphNode>, sources: seq<Source>, rank: NodeId -> int)
    requires AllGrounded(rs, nodes, sources, rank) && Grounded(r, nodes, sources, rank)
    ensures AllGrounded(rs + [r], nodes, sources, rank)
  {
  }

  /** The record a relation becomes. */
  function Record(from: NodeId, target: NodeId, c: Candidate, kind: Kind): GraphLink {
    Related(RelationId(from, target, c.relation, kind.Inferred?, c.left, c.right), from, target, c.relation, kind,
      c.left, c.right, c.signal)
  }

  lemma MergedIsUnique(sources: seq<Source>)
    requires InOrder(sources) && SourcesOk(sources, |sources|) && AllReadable(sources, |sources|)
    ensures Unique(AllNodes(sources, |sources|))
    ensures AnchorsMatch({}, AllNodes(sources, |sources|), sources)
  {
    var n := |sources|;
    forall i | 0 <= i < n ensures DistinctIds(sources[i].nodes) {
      assert SourceOk(sources[i]);
    }
    IdsAreUnique(sources, n);
    AllBelong(sources, n);
    forall i | 0 <= i < |AllNodes(sources, n)| ensures !AllNodes(sources, n)[i].id.Anchor? {
      assert NodeBelongs(AllNodes(sources, n)[i], sources, n);
    }
  }

  predicate IsRecord(r: GraphLink, c: Candidate, kind: Kind) {
    && r.Related? && r.relation == c.relation && r.kind == kind && r.left == c.left && r.right == c.right && r.signal == c.signal
    && r.id == RelationId(r.from, r.target, c.relation, kind.Inferred?, c.left, c.right)
  }

  /** The relations are the records of the first `k` candidates, one for one. */
  predicate AreRecords(rs: seq<GraphLink>, cs: seq<Candidate>, k: nat, kind: Kind)
    requires k <= |cs|
  {
    |rs| == k && forall i :: 0 <= i < k ==> IsRecord(rs[i], cs[i], kind)
  }

  lemma MoreRecords(rs: seq<GraphLink>, more: seq<GraphLink>, cs: seq<Candidate>, k: nat, kind: Kind)
    requires k < |cs| && AreRecords(rs, cs, k, kind) && |more| == 1 && IsRecord(more[0], cs[k], kind)
    ensures AreRecords(rs + more, cs, k + 1, kind)
  {
  }

  // ---- relation ids ----

  predicate Injective(rank: NodeId -> int, nodes: seq<GraphNode>) {
    forall i, j :: 0 <= i < |nodes| && 0 <= j < |nodes| && rank(nodes[i].id) == rank(nodes[j].id) ==> nodes[i].id == nodes[j].id
  }

  /** Where a quote lands depends on nothing but the quote. */
  lemma LandsOnce(nodes: seq<GraphNode>, e: Evidence, a: NodeId, b: NodeId, rank: NodeId -> int)
    requires LandsOn(nodes, e, a, rank) && LandsOn(nodes, e, b, rank) && Injective(rank, nodes)
    ensures a == b
  {
    if HasEncloser(nodes, e) {
      var i :| 0 <= i < |nodes| && nodes[i].id == a && Tightest(nodes, i, e, rank);
      var j :| 0 <= j < |nodes| && nodes[j].id == b && Tightest(nodes, j, e, rank);
      assert rank(nodes[i].id) == rank(nodes[j].id);
    }
  }

  /**
   * Two grounded relations share an id exactly when they make the same claim on the same quotes by
   * the same kind of method: neither the signal nor the model tells them apart.
   */
  lemma SameIdIffSameClaim(r: GraphLink, s: GraphLink, nodes: seq<GraphNode>, sources: seq<Source>, rank: NodeId -> int)
    requires Grounded(r, nodes, sources, rank) && Grounded(s, nodes, sources, rank) && Injective(rank, nodes)
    ensures r.id == s.id
      <==> (r.relation == s.relation && r.kind.Inferred? == s.kind.Inferred? && r.left == s.left && r.right == s.right)
  {
    if r.left == s.left && r.right == s.right {
      LandsOnce(nodes, r.left, r.from, s.from, rank);
      LandsOnce(nodes, r.right, r.target, s.target, rank);
    }
  }

  /** Candidates that differ at most in their signal. */
  predicate SameClaim(a: Candidate, b: Candidate) {
    a.relation == b.relation && a.left == b.left && a.right == b.right
  }

  predicate DistinctLinks(rs: seq<GraphLink>) {
    forall i, j :: 0 <= i < j < |rs| ==> rs[i].id != rs[j].id
  }

  predicate DistinctClaims(cs: seq<Candidate>) {
    forall i, j :: 0 <= i < j < |cs| ==> !SameClaim(cs[i], cs[j])
  }

  /** Once every candidate has become a relation, the ids are distinct if and only if no two
      candidates make the same claim on the same quotes. */
  lemma IdsDistinctIff(
      rs: seq<GraphLink>, cs: seq<Candidate>, kind: Kind, nodes: seq<GraphNode>, sources: seq<Source>, rank: NodeId -> int)
    requires AreRecords(rs, cs, |cs|, kind) && AllGrounded(rs, nodes, sources, rank) && Injective(rank, nodes)
    ensures DistinctLinks(rs) <==> DistinctClaims(cs)
  {
    forall i, j | 0 <= i < j < |cs| ensures rs[i].id == rs[j].id <==> SameClaim(cs[i], cs[j]) {
      assert IsRecord(rs[i], cs[i], kind) && IsRecord(rs[j], cs[j], kind);
      SameIdIffSameClaim(rs[i], rs[j], nodes, sources, rank);
    }
  }

  // ---- which candidates become relations ----

  /** Both quotes of every candidate are what the pinned snapshots hold. */
  ghost predicate AllQuoted(cs: seq<Candidate>, sources: seq<Source>) {
    forall i :: 0 <= i < |cs| ==> ValidEvidence(cs[i].left, sources) && ValidEvidence(cs[i].right, sources)
  }

  lemma {:induction false} FoundInOrder(sources: seq<Source>, k: nat)
    requires InOrder(sources) && k < |sources|
    ensures FindSource(sources, sources[k].id) == Some(sources[k])
  {
    if k > 0 {
      var rest := sources[1..];
      FoundInOrder(rest, k - 1);
    }
  }

  /** Whatever is quoted from a source of the build passes the evidence check. */
  lemma QuoteIsValid(sources: seq<Source>, k: nat, file: Path, start: int, end: int)
    requires InOrder(sources) && k < |sources| && file in sources[k].files && Quote(sources[k], file, start, end).Some?
    ensures ValidEvidence(Quote(sources[k], file, start, end).value, sources)
  {
    FoundInOrder(sources, k);
  }

  /** The nodes once the first `k` candidates are placed. */
  ghost function PlacedAll(nodes: seq<GraphNode>, cs: seq<Candidate>, k: nat): seq<GraphNode>
    requires k <= |cs|
  {
    if k == 0 then nodes else BothPlaced(PlacedAll(nodes, cs, k - 1), cs[k - 1])
  }

  /** Which of the first `k` candidates become relations, `n` links being there before: those that can
      be placed when their turn comes and find room. */
  ghost function Kept(nodes: seq<GraphNode>, n: nat, cs: seq<Candidate>, k: nat): seq<nat>
    requires k <= |cs|
  {
    if k == 0 then []
    else
      var before := Kept(nodes, n, cs, k - 1);
      if CanPlaceBoth(PlacedAll(nodes, cs, k - 1), cs[k - 1]) && n + |before| < 200_000 then before + [k - 1] else before
  }

  predicate KeptRecord(rs: seq<GraphLink>, i: nat, cs: seq<Candidate>, kept: seq<nat>, kind: Kind)
    requires i < |rs| && i < |kept|
  {
    kept[i] < |cs| && IsRecord(rs[i], cs[kept[i]], kind)
  }

  /** The relations are the records of the kept candidates, one for one. */
  predicate AreKept(rs: seq<GraphLink>, cs: seq<Candidate>, kept: seq<nat>, kind: Kind) {
    |rs| == |kept| && forall i :: 0 <= i < |rs| ==> KeptRecord(rs, i, cs, kept, kind)
  }

  lemma AreKeptNext(rs: seq<GraphLink>, more: seq<GraphLink>, cs: seq<Candidate>, kept: seq<nat>, k: nat, kind: Kind)
    requires k < |cs| && AreKept(rs, cs, kept, kind) && |more| == 1 && IsRecord(more[0], cs[k], kind)
    ensures AreKept(rs + more, cs, kept + [k], kind)
  {
    var all, ks := rs + more, kept + [k];
    forall i | 0 <= i < |all| ensures KeptRecord(all, i, cs, ks, kind) {
      if i < |rs| { assert KeptRecord(rs, i, cs, kept, kind); }
    }
  }

  /** What relating the first `k` candidates leads to; `limited` says that a limit has been recorded. */
  ghost predicate RelatedThrough(
      nodes0: seq<GraphNode>, n: nat, cs: seq<Candidate>, k: nat, kind: Kind,
      nodes: seq<GraphNode>, emitted: seq<GraphLink>, limited: bool)
  {
    && k <= |cs| && nodes == PlacedAll(nodes0, cs, k) && AreKept(emitted, cs, Kept(nodes0, n, cs, k), kind)
    && (!limited ==> AreRecords(emitted, cs, k, kind))
  }

  lemma CatAssociates<T>(a: seq<T>, b: seq<T>, c: seq<T>)
    ensures a + b + c == a + (b + c)
  {
  }

  /** One candidate's turn: the nodes before and after it, the links before it, and what it emitted. */
  datatype Turn = Turn(before: seq<GraphNode>, after: seq<GraphNode>, links: nat, more: seq<GraphLink>)

  ghost predicate TurnOk(t: Turn, c: Candidate, kind: Kind) {
    && t.after == BothPlaced(t.before, c)
    && if CanPlaceBoth(t.before, c) && t.links < 200_000 then |t.more| == 1 && IsRecord(t.more[0], c, kind) else t.more == []
  }

  ghost predicate TurnAt(turns: seq<Turn>, i: nat, cs: seq<Candidate>, kind: Kind)
    requires i < |turns| && i < |cs|
  {
    TurnOk(turns[i], cs[i], kind)
  }

  predicate TurnsMeet(turns: seq<Turn>, i: nat)
    requires i + 1 < |turns|
  {
    turns[i + 1].before == turns[i].after && turns[i + 1].links == turns[i].links + |turns[i].more|
  }

  /** Turns of the first candidates, one after the other. */
  ghost predicate Turns(turns: seq<Turn>, cs: seq<Candidate>, kind: Kind) {
    && |turns| <= |cs|
    && (forall i :: 0 <= i < |turns| ==> TurnAt(turns, i, cs, kind))
    && (forall i :: 0 <= i && i + 1 < |turns| ==> TurnsMeet(turns, i))
  }

  /** The turns lead from these nodes and links to those. */
  predicate LeadTo(turns: seq<Turn>, nodes0: seq<GraphNode>, n: nat, nodes: seq<GraphNode>, links: nat) {
    if turns == [] then nodes == nodes0 && links == n
    else var last := turns[|turns| - 1];
      turns[0].before == nodes0 && turns[0].links == n && nodes == last.after && links == last.links + |last.more|
  }

  function EmittedIn(turns: seq<Turn>, k: nat): seq<GraphLink>
    requires k <= |turns|
  {
    if k == 0 then [] else EmittedIn(turns, k - 1) + turns[k - 1].more
  }

  lemma {:induction false} EmittedPrefix(turns: seq<Turn>, later: seq<Turn>, k: nat)
    requires k <= |turns| && k <= |later| && forall i :: 0 <= i < k ==> later[i] == turns[i]
    ensures EmittedIn(later, k) == EmittedIn(turns, k)
  {
    if k > 0 { EmittedPrefix(turns, later, k - 1); }
  }

  lemma TurnsNext(turns: seq<Turn>, t: Turn, cs: seq<Candidate>, kind: Kind, nodes0: seq<GraphNode>, n: nat)
    requires Turns(turns, cs, kind) && |turns| < |cs| && TurnOk(t, cs[|turns|], kind)
    requires LeadTo(turns, nodes0, n, t.before, t.links)
    ensures Turns(turns + [t], cs, kind)
  {
    var later := turns + [t];
    forall i | 0 <= i < |later| ensures TurnAt(later, i, cs, kind) {
      if i < |turns| { assert TurnAt(turns, i, cs, kind); }
    }
    forall i | 0 <= i && i + 1 < |later| ensures TurnsMeet(later, i) {
      if i + 1 < |turns| { assert TurnsMeet(turns, i); }
    }
  }

  lemma LeadNext(turns: seq<Turn>, t: Turn, nodes0: seq<GraphNode>, n: nat)
    requires LeadTo(turns, nodes0, n, t.before, t.links)
    ensures LeadTo(turns + [t], nodes0, n, t.after, t.links + |t.more|)
    ensures EmittedIn(turns + [t], |turns| + 1) == EmittedIn(turns, |turns|) + t.more
  {
    EmittedPrefix(turns, turns + [t], |turns|);
  }

  predicate StartsFrom(turns: seq<Turn>, nodes0: seq<GraphNode>, n: nat) {
    turns != [] ==> turns[0].before == nodes0 && turns[0].links == n
  }

  /** After `k` turns the first `k` candidates have been placed. */
  lemma {:induction false} TurnsPlace(turns: seq<Turn>, cs: seq<Candidate>, kind: Kind, nodes0: seq<GraphNode>, n: nat, k: nat)
    requires Turns(turns, cs, kind) && k <= |turns| && StartsFrom(turns, nodes0, n)
    ensures k < |turns| ==> turns[k].before == PlacedAll(nodes0, cs, k)
    ensures k > 0 ==> turns[k - 1].after == PlacedAll(nodes0, cs, k)
  {
    if k > 0 {
      var last := k - 1;
      TurnsPlace(turns, cs, kind, nodes0, n, last);
      TurnPlaces(turns, last, cs, kind);
      if k < |turns| { assert TurnsMeet(turns, last); }
    }
  }

  lemma TurnPlaces(turns: seq<Turn>, i: nat, cs: seq<Candidate>, kind: Kind)
    requires Turns(turns, cs, kind) && i < |turns|
    ensures turns[i].after == BothPlaced(turns[i].before, cs[i])
  {
    assert TurnAt(turns, i, cs, kind);
  }

  lemma TurnEmits(turns: seq<Turn>, i: nat, cs: seq<Candidate>, kind: Kind)
    requires Turns(turns, cs, kind) && i < |turns|
    ensures if CanPlaceBoth(turns[i].before, cs[i]) && turns[i].links < 200_000
            then |turns[i].more| == 1 && IsRecord(turns[i].more[0], cs[i], kind) else turns[i].more == []
  {
    assert TurnAt(turns, i, cs, kind);
  }

  lemma {:induction false} TurnsCount(turns: seq<Turn>, cs: seq<Candidate>, kind: Kind, nodes0: seq<GraphNode>, n: nat, k: nat)
    requires Turns(turns, cs, kind) && k < |turns| && StartsFrom(turns, nodes0, n)
    ensures turns[k].links == n + |EmittedIn(turns, k)|
  {
    if k > 0 {
      var last := k - 1;
      TurnsCount(turns, cs, kind, nodes0, n, last);
      assert TurnsMeet(turns, last);
    }
  }

  lemma KeptNext(nodes0: seq<GraphNode>, n: nat, cs: seq<Candidate>, k: nat, before: seq<GraphNode>)
    requires k < |cs| && before == PlacedAll(nodes0, cs, k)
    ensures Kept(nodes0, n, cs, k + 1)
            == Kept(nodes0, n, cs, k) + if CanPlaceBoth(before, cs[k]) && n + |Kept(nodes0, n, cs, k)| < 200_000 then [k] else []
  {
  }

  /** What the first `k` turns emitted are the records of the kept candidates. */
  lemma {:induction false} TurnsKeep(turns: seq<Turn>, cs: seq<Candidate>, kind: Kind, nodes0: seq<GraphNode>, n: nat, k: nat)
    requires Turns(turns, cs, kind) && k <= |turns| && StartsFrom(turns, nodes0, n)
    ensures AreKept(EmittedIn(turns, k), cs, Kept(nodes0, n, cs, k), kind)
  {
    if k > 0 {
      var last := k - 1;
      var before, more := EmittedIn(turns, last), turns[last].more;
      TurnsKeep(turns, cs, kind, nodes0, n, last);
      TurnsPlace(turns, cs, kind, nodes0, n, last);
      TurnsCount(turns, cs, kind, nodes0, n, last);
      KeptNext(nodes0, n, cs, last, turns[last].before);
      TurnEmits(turns, last, cs, kind);
      if more == [] { assert before + more == before; }
      else { AreKeptNext(before, more, cs, Kept(nodes0, n, cs, last), last, kind); }
    }
  }

  /** Every candidate so far became a relation. */
  predicate NoneLost(turns: seq<Turn>) {
    forall i :: 0 <= i < |turns| ==> turns[i].more != []
  }

  lemma {:induction false} NoneLostMeans(turns: seq<Turn>, cs: seq<Candidate>, kind: Kind, k: nat)
    requires Turns(turns, cs, kind) && NoneLost(turns) && k <= |turns|
    ensures AreRecords(EmittedIn(turns, k), cs, k, kind)
  {
    if k > 0 {
      var last := k - 1;
      NoneLostMeans(turns, cs, kind, last);
      assert TurnAt(turns, last, cs, kind);
      MoreRecords(EmittedIn(turns, last), turns[last].more, cs, last, kind);
    }
  }

  lemma AllTurnsMean(
      turns: seq<Turn>, cs: seq<Candidate>, kind: Kind, nodes0: seq<GraphNode>, n: nat,
      nodes: seq<GraphNode>, links: nat, emitted: seq<GraphLink>, limited: bool)
    requires Turns(turns, cs, kind) && |turns| == |cs| && LeadTo(turns, nodes0, n, nodes, links)
    requires emitted == EmittedIn(turns, |turns|) && (!limited ==> NoneLost(turns))
    ensures RelatedThrough(nodes0, n, cs, |cs|, kind, nodes, emitted, limited)
  {
    TurnsPlace(turns, cs, kind, nodes0, n, |turns|);
    TurnsKeep(turns, cs, kind, nodes0, n, |turns|);
    if !limited { NoneLostMeans(turns, cs, kind, |turns|); }
  }

  /** The same candidates related from the same state give the same records: nothing else decides
      which are kept or where their quotes land. */
  lemma SameRecords(
      rs: seq<GraphLink>, ss: seq<GraphLink>, cs: seq<Candidate>, kept: seq<nat>, kind: Kind,
      nodes: seq<GraphNode>, sources: seq<Source>, rank: NodeId -> int)
    requires AreKept(rs, cs, kept, kind) && AreKept(ss, cs, kept, kind) && Injective(rank, nodes)
    requires AllGrounded(rs, nodes, sources, rank) && AllGrounded(ss, nodes, sources, rank)
    ensures rs == ss
  {
    forall i | 0 <= i < |rs| ensures rs[i] == ss[i] {
      assert KeptRecord(rs, i, cs, kept, kind) && KeptRecord(ss, i, cs, kept, kind);
      assert Grounded(rs[i], nodes, sources, rank) && Grounded(ss[i], nodes, sources, rank);
      LandsOnce(nodes, rs[i].left, rs[i].from, ss[i].from, rank);
      LandsOnce(nodes, rs[i].right, rs[i].target, ss[i].target, rank);
    }
  }

  // ---- the build ----

  class Build {
    const sources: seq<Source>
    const clock: nat -> bool
    const size: (seq<GraphNode>, seq<GraphLink>) -> nat
    const rank: NodeId -> int
    var nodes: seq<GraphNode>
    var links: seq<GraphLink>
    var relations: seq<GraphLink>
    var locations: map<(SourceId, Path), seq<Located>>
    var anchors: set<NodeId>
    var candidates: seq<Candidate>
    var partial: seq<Reason>

    constructor (sources: seq<Source>, clock: nat -> bool, size: (seq<GraphNode>, seq<GraphLink>) -> nat, rank: NodeId -> int)
      ensures this.sources == sources && this.clock == clock && this.size == size && this.rank == rank
      ensures nodes == [] && links == [] && relations == [] && candidates == [] && partial == []
      ensures anchors == {} && LocationsMatch(locations, nodes)
    {
      this.sources, this.clock, this.size, this.rank := sources, clock, size, rank;
      nodes, links, relations, locations := [], [], [], map[];
      anchors, candidates, partial := {}, [], [];
    }

    method Partial(reason: Reason)
      modifies `partial
      ensures reason in partial && forall r :: r in old(partial) ==> r in partial
    {
      if reason !in partial { partial := partial + [reason]; }
    }

    // ---- merging ----

    method MergeNodes(s: Source) returns (ids: Option<set<Value>>)
      requires LocationsMatch(locations, nodes)
      modifies `nodes, `locations
      ensures ids.Some? <==> NodesOk(s.nodes)
      ensures ids.Some? ==> NodesReadable(s, |s.nodes|) && nodes == old(nodes) + CopyNodes(s, |s.nodes|)
      ensures ids.Some? ==> LocationsMatch(locations, nodes)
      ensures ids.Some? ==> forall v :: v in ids.value <==> HasNode(s.nodes, v)
    {
      var seen, i := {}, 0;
      while i < |s.nodes|
        invariant 0 <= i <= |s.nodes| && NodesReadable(s, i)
        invariant forall j :: 0 <= j < i ==> NodeOk(s.nodes[j])
        invariant forall j, k :: 0 <= j < k < i ==> s.nodes[j].id != s.nodes[k].id
        invariant forall v :: v in seen <==> exists j :: 0 <= j < i && s.nodes[j].id == v
        invariant nodes == old(nodes) + CopyNodes(s, i) && LocationsMatch(locations, nodes)
      {
        var n := s.nodes[i];
        if !NodeOk(n) || n.id in seen { return None; }
        seen := seen + {n.id};
        var copy := CopyNode(s, n);
        LocateMatches(locations, nodes, copy);
        locations := Locate(locations, copy);
        nodes := nodes + [copy];
        i := i + 1;
      }
      return Some(seen);
    }

    method MergeLinks(s: Source, ids: set<Value>) returns (ok: bool)
      requires forall v :: v in ids <==> HasNode(s.nodes, v)
      modifies `links
      ensures ok <==> forall i :: 0 <= i < |s.links| ==> LinkOk(s, s.links[i])
      ensures ok ==> LinksReadable(s, |s.links|) && links == old(links) + CopyLinks(s, |s.links|)
    {
      var i := 0;
      while i < |s.links|
        invariant 0 <= i <= |s.links| && LinksReadable(s, i)
        invariant forall j :: 0 <= j < i ==> LinkOk(s, s.links[j])
        invariant links == old(links) + CopyLinks(s, i)
      {
        var l := s.links[i];
        if !l.Link? || !IsScalar(l.source) || !IsScalar(l.target) || l.source !in ids || l.target !in ids {
          assert !LinkOk(s, s.links[i]);
          return false;
        }
        assert LinkOk(s, l);
        links := links + [CopyLink(s, i, l)];
        i := i + 1;
      }
      return true;
    }

    method MergeSource(s: Source) returns (ok: bool)
      requires LocationsMatch(locations, nodes)
      modifies `nodes, `links, `locations
      ensures ok <==> SourceOk(s)
      ensures ok ==> Readable(s) && LocationsMatch(locations, nodes)
      ensures ok ==> nodes == old(nodes) + CopyNodes(s, |s.nodes|) && links == old(links) + CopyLinks(s, |s.links|)
    {
      var ids := MergeNodes(s);
      if ids.None? { return false; }
      ok := MergeLinks(s, ids.value);
    }

    ghost predicate MergedUpTo(k: nat)
      requires k <= |sources|
      reads this
    {
      && SourcesOk(sources, k) && AllReadable(sources, k) && Fits(sources, k)
      && nodes == AllNodes(sources, k) && links == AllLinks(sources, k) && LocationsMatch(locations, nodes)
    }

    /** One round of the merge: the next source is added, or the build fails as it should. */
    method MergeNext(k: nat) returns (failure: Option<Failure>)
      requires k < |sources| && MergedUpTo(k)
      modifies `nodes, `links, `locations, `partial
      ensures failure.Some? ==> SourcesOk(sources, k) && AllReadable(sources, k) && MergeFrom(sources, k, clock, size) == failure
      ensures failure.None? ==> MergedUpTo(k + 1) && AllReadable(sources, k)
      ensures failure.None? ==> MergeFrom(sources, k, clock, size) == MergeFrom(sources, k + 1, clock, size)
    {
      if !clock(k) {
        Partial(DeadlineExceeded);
        return Some(DEADLINE_EXCEEDED);
      }
      var ok := MergeSource(sources[k]);
      if !ok { return Some(INVALID_GRAPH); }
      OkIsReadable(sources, k + 1);
      CountsAdd(sources, k + 1);
      return if |nodes| > MAX_NODES || |links| > MAX_EDGES then Some(GRAPH_LIMIT) else None;
    }

    /** Composes all source graphs; the first failing source, total or deadline decides the failure. */
    method Merge() returns (failure: Option<Failure>)
      requires nodes == [] && links == [] && LocationsMatch(locations, nodes)
      modifies `nodes, `links, `locations, `partial
      ensures SourcesOk(sources, 0) && AllReadable(sources, 0) && failure == MergeFrom(sources, 0, clock, size)
      ensures failure.None? ==> MergedUpTo(|sources|) && Mergeable(sources, size)
    {
      var k := 0;
      while k < |sources|
        invariant 0 <= k <= |sources| && MergedUpTo(k)
        invariant MergeFrom(sources, k, clock, size) == MergeFrom(sources, 0, clock, size)
      {
        failure := MergeNext(k);
        if failure.Some? { return; }
        k := k + 1;
      }
      return if size(nodes, links) > MAX_GRAPH_BYTES then Some(GRAPH_LIMIT) else None;
    }

    // ---- relations ----

    ghost predicate Placing() reads `nodes, `locations, `anchors {
      && |nodes| <= 50_000 && Unique(nodes)
      && LocationsMatch(locations, nodes) && AnchorsMatch(anchors, nodes, sources)
    }

    /** The links are those of the sources and then the relations, all grounded. */
    ghost predicate Relating()
      requires AllReadable(sources, |sources|)
      reads `nodes, `links, `relations
    {
      && |links| <= 200_000 && links == AllLinks(sources, |sources|) + relations
      && AllGrounded(relations, nodes, sources, rank)
    }

    /** What holds between the steps of a build once the sources are merged. */
    ghost predicate Valid() reads this {
      && AllReadable(sources, |sources|) && Placing()
      && AllNodes(sources, |sources|) <= nodes
      && Relating()
      && CandidatesOk(candidates)
    }

    /** A merge of sources in order leaves the build ready for evidence. */
    lemma MergedIsValid()
      requires MergedUpTo(|sources|) && InOrder(sources) && relations == [] && candidates == [] && anchors == {}
      ensures Valid()
    {
      MergedIsUnique(sources);
      CountsAdd(sources, |sources|);
    }

    /** The tightest located range around the evidence, the first in id order among the tightest. */
    method FindTightest(e: Evidence) returns (r: Option<Located>)
      requires LocationsMatch(locations, nodes)
      ensures r.None? <==> !HasEncloser(nodes, e)
      ensures r.Some? ==> exists i :: 0 <= i < |nodes| && nodes[i].id == r.value.id && Tightest(nodes, i, e, rank)
    {
      var list := At(locations, e.source, e.file);
      var k := 0;
      r := None;
      while k < |list|
        invariant 0 <= k <= |list|
        invariant r.None? ==> forall j :: 0 <= j < k ==> !Covers(list[j], e)
        invariant r.Some? ==> r.value in list && Covers(r.value, e)
        invariant r.Some? ==> forall j :: 0 <= j < k && Covers(list[j], e) ==> NoTighter(r.value, list[j])
      {
        var x := list[k];
        if Covers(x, e) && (r.None? || !NoTighter(r.value, x)) { r := Some(x); }
        k := k + 1;
      }
      LocatedMeans(nodes, |nodes|, e);
      if r.Some? {
        var i :| 0 <= i < |nodes| && Encloses(nodes[i], e)
          && r.value == Located(nodes[i].span.value.lo, nodes[i].span.value.hi, nodes[i].id);
        assert Tightest(nodes, i, e, rank);
      }
    }

    predicate NoTighter(a: Located, b: Located) {
      a.hi - a.lo < b.hi - b.lo || (a.hi - a.lo == b.hi - b.lo && rank(a.id) <= rank(b.id))
    }

    method Endpoint(e: Evidence) returns (r: Option<NodeId>)
      requires Placing() && ValidEvidence(e, sources)
      modifies `nodes, `anchors, `partial
      ensures Placing() && nodes == Placed(old(nodes), e)
      ensures r.Some? <==> CanPlace(old(nodes), e)
      ensures r.Some? ==> LandsOn(nodes, e, r.value, rank)
      ensures r.None? ==> NodeLimit in partial
      ensures forall x :: x in old(partial) ==> x in partial
    {
      var x := FindTightest(e);
      if x.Some? { return Some(x.value.id); }
      var key := AnchorId(e);
      assert key in anchors <==> AnchorNode(e) in nodes;
      if key !in anchors {
        if |nodes| >= MAX_NODES {
          Partial(NodeLimit);
          return None;
        }
        LocateMatches(locations, nodes, AnchorNode(e));
        anchors := anchors + {key};
        nodes := nodes + [AnchorNode(e)];
      }
      return Some(key);
    }

    /** Places both quotes, the left one first. */
    method PlaceBoth(c: Candidate) returns (from: Option<NodeId>, target: Option<NodeId>)
      requires Valid() && ValidEvidence(c.left, sources) && ValidEvidence(c.right, sources)
      modifies `nodes, `anchors, `partial
      ensures Valid() && nodes == BothPlaced(old(nodes), c)
      ensures from.Some? && target.Some? <==> CanPlaceBoth(old(nodes), c)
      ensures from.Some? && target.Some? ==>
        LandsOn(nodes, c.left, from.value, rank) && LandsOn(nodes, c.right, target.value, rank)
      ensures from.None? || target.None? ==> NodeLimit in partial
      ensures forall x :: x in old(partial) ==> x in partial
    {
      BothGroundedLater(relations, nodes, c, sources, rank);
      from := Endpoint(c.left);
      ghost var between := nodes;
      target := Endpoint(c.right);
      if nodes != between && from.Some? {
        LandsLater(between, AnchorNode(c.right), c.left, from.value, rank);
      }
    }

    /** The record between two nodes is appended, if there is room. */
    method Emit(from: NodeId, target: NodeId, c: Candidate, kind: Kind) returns (ghost emitted: seq<GraphLink>)
      requires AllReadable(sources, |sources|) && Relating() && Grounded(Record(from, target, c, kind), nodes, sources, rank)
      modifies `links, `relations, `partial
      ensures Relating() && relations == old(relations) + emitted
      ensures if |old(links)| < 200_000 then |emitted| == 1 && IsRecord(emitted[0], c, kind) else emitted == []
      ensures emitted == [] ==> EdgeLimit in partial
      ensures forall x :: x in old(partial) ==> x in partial
    {
      if |links| >= MAX_EDGES {
        Partial(EdgeLimit);
        return [];
      }
      var record := Record(from, target, c, kind);
      OneMore(relations, record, nodes, sources, rank);
      relations := relations + [record];
      links := links + [record];
      return [record];
    }

    /** A candidate becomes a relation, grounded on the nodes its quotes land on, unless a limit forbids it. */
    method Relate(c: Candidate, kind: Kind) returns (failure: Option<Failure>, ghost emitted: seq<GraphLink>)
      requires Valid() && c.left.source != c.right.source
      modifies `nodes, `anchors, `links, `relations, `partial
      ensures Valid() && relations == old(relations) + emitted
      ensures failure == if ValidEvidence(c.left, sources) && ValidEvidence(c.right, sources) then None else Some(INVALID_EVIDENCE)
      ensures nodes == if failure.None? then BothPlaced(old(nodes), c) else old(nodes)
      ensures if failure.None? && CanPlaceBoth(old(nodes), c) && |old(links)| < 200_000
              then |emitted| == 1 && IsRecord(emitted[0], c, kind)
              else emitted == []
      ensures failure.None? && emitted == [] ==> NodeLimit in partial || EdgeLimit in partial
      ensures forall x :: x in old(partial) ==> x in partial
    {
      emitted := [];
      if !ValidEvidence(c.left, sources) || !ValidEvidence(c.right, sources) { return Some(INVALID_EVIDENCE), []; }
      var from, target := PlaceBoth(c);
      if from.None? || target.None? { return None, []; }
      emitted := Emit(from.value, target.value, c, kind);
      return None, emitted;
    }

    /** A candidate is kept once; a pair within one source is passed over; a full table stops the search. */
    method Propose(relation: string, left: Evidence, right: Evidence, signal: string) returns (go: bool)
      requires CandidatesOk(candidates)
      modifies `candidates, `partial
      ensures CandidatesOk(candidates)
      ensures var c := Candidate(relation, signal, left, right);
        && go == (left.source == right.source || c in old(candidates) || |old(candidates)| < 1_000)
        && candidates == if go && left.source != right.source && c !in old(candidates)
                         then old(candidates) + [c] else old(candidates)
      ensures !go ==> CandidateLimit in partial
      ensures forall x :: x in old(partial) ==> x in partial
    {
      if left.source == right.source { return true; }
      var c := Candidate(relation, signal, left, right);
      if c in candidates { return true; }
      if |candidates| >= MAX_CANDIDATES {
        Partial(CandidateLimit);
        return false;
      }
      candidates := candidates + [c];
      return true;
    }

    predicate Limited() reads this {
      NodeLimit in partial || EdgeLimit in partial
    }

    /** One candidate's turn. */
    method TakeTurn(c: Candidate, kind: Kind) returns (failure: Option<Failure>, ghost t: Turn)
      requires Valid() && c.left.source != c.right.source
      modifies `nodes, `anchors, `links, `relations, `partial
      ensures Valid() && relations == old(relations) + t.more && forall x :: x in old(partial) ==> x in partial
      ensures t.before == old(nodes) && t.after == nodes && t.links == |old(links)| && |links| == t.links + |t.more|
      ensures failure.None? ==> TurnOk(t, c, kind) && (t.more == [] ==> Limited())
      ensures failure.Some? ==> !ValidEvidence(c.left, sources) || !ValidEvidence(c.right, sources)
    {
      ghost var more;
      failure, more := Relate(c, kind);
      t := Turn(old(nodes), nodes, |old(links)|, more);
    }

    /** The turns taken since the state before, and the relations they emitted. */
    ghost predicate Taken(turns: seq<Turn>, cs: seq<Candidate>, kind: Kind, nodes0: seq<GraphNode>, n: nat, emitted: seq<GraphLink>)
      reads this
    {
      && Turns(turns, cs, kind) && LeadTo(turns, nodes0, n, nodes, |links|)
      && emitted == EmittedIn(turns, |turns|) && (!Limited() ==> NoneLost(turns))
    }

    method RelateNext(cs: seq<Candidate>, kind: Kind, k: nat, ghost turns: seq<Turn>, ghost nodes0: seq<GraphNode>, ghost n: nat,
                      ghost sofar: seq<GraphLink>)
      returns (failure: Option<Failure>, ghost more: seq<GraphLink>, ghost later: seq<Turn>)
      requires Valid() && k == |turns| < |cs| && cs[k].left.source != cs[k].right.source
      requires Taken(turns, cs, kind, nodes0, n, sofar)
      modifies `nodes, `anchors, `links, `relations, `partial
      ensures Valid() && relations == old(relations) + more && forall x :: x in old(partial) ==> x in partial
      ensures failure.None? ==> |later| == k + 1 && Taken(later, cs, kind, nodes0, n, sofar + more)
      ensures failure.Some? ==> !ValidEvidence(cs[k].left, sources) || !ValidEvidence(cs[k].right, sources)
    {
      ghost var t;
      failure, t := TakeTurn(cs[k], kind);
      more, later := t.more, turns;
      if failure.None? {
        TurnsNext(turns, t, cs, kind, nodes0, n);
        LeadNext(turns, t, nodes0, n);
        later := turns + [t];
      }
    }

    method TakeTurns(cs: seq<Candidate>, kind: Kind)
      returns (failure: Option<Failure>, ghost emitted: seq<GraphLink>, ghost turns: seq<Turn>)
      requires Valid() && forall i :: 0 <= i < |cs| ==> cs[i].left.source != cs[i].right.source
      modifies `nodes, `anchors, `links, `relations, `partial
      ensures Valid() && relations == old(relations) + emitted && forall x :: x in old(partial) ==> x in partial
      ensures failure.None? ==> |turns| == |cs| && Taken(turns, cs, kind, old(nodes), |old(links)|, emitted)
      ensures AllQuoted(cs, sources) ==> failure.None?
    {
      emitted, turns := [], [];
      ghost var nodes0, n, relations0 := nodes, |links|, relations;
      var k := 0;
      while k < |cs|
        invariant 0 <= k <= |cs| && k == |turns| && Valid() && relations == relations0 + emitted
        invariant Taken(turns, cs, kind, nodes0, n, emitted)
        invariant forall x :: x in old(partial) ==> x in partial
      {
        ghost var more;
        failure, more, turns := RelateNext(cs, kind, k, turns, nodes0, n, emitted);
        CatAssociates(relations0, emitted, more);
        emitted := emitted + more;
        if failure.Some? { return; }
        k := k + 1;
      }
      return None, emitted, turns;
    }

    /** Candidates in turn: those that can be placed and find room become relations, in order. */
    method RelateEach(cs: seq<Candidate>, kind: Kind) returns (failure: Option<Failure>, ghost emitted: seq<GraphLink>)
      requires Valid() && forall i :: 0 <= i < |cs| ==> cs[i].left.source != cs[i].right.source
      modifies `nodes, `anchors, `links, `relations, `partial
      ensures Valid() && relations == old(relations) + emitted && forall x :: x in old(partial) ==> x in partial
      ensures failure.None? ==> RelatedThrough(old(nodes), |old(links)|, cs, |cs|, kind, nodes, emitted, Limited())
      ensures AllQuoted(cs, sources) ==> failure.None?
    {
      ghost var turns;
      failure, emitted, turns := TakeTurns(cs, kind);
      if failure.None? {
        AllTurnsMean(turns, cs, kind, old(nodes), |old(links)|, nodes, |links|, emitted, Limited());
      }
    }

    /** Every candidate in turn; it fails only on a quote no snapshot holds, and unless a limit is
        recorded each candidate becomes exactly one relation, in order. */
    method RelateAll() returns (failure: Option<Failure>)
      requires Valid()
      modifies `nodes, `anchors, `links, `relations, `partial
      ensures Valid() && old(relations) <= relations
      ensures AllQuoted(candidates, sources) ==> failure.None?
      ensures failure.None? ==>
        RelatedThrough(old(nodes), |old(links)|, candidates, |candidates|, Extracted, nodes, relations[|old(relations)|..], Limited())
    {
      ghost var emitted;
      failure, emitted := RelateEach(candidates, Extracted);
      assert relations[|old(relations)|..] == emitted;
    }
  }
}
