/** What a merge of source graphs must be: a disjoint union from which each source can be read back. */
module Merge {
  import opened Common
  import opened Composition

  // ---- one source ----

  predicate NodeOk(n: SourceNode) {
    n.Node? && IsScalar(n.id) && !n.file.UnsafeFile?
  }

  predicate NodesOk(nodes: seq<SourceNode>) {
    && (forall i :: 0 <= i < |nodes| ==> NodeOk(nodes[i]))
    && (forall i, j :: 0 <= i < j < |nodes| ==> nodes[i].id != nodes[j].id)
  }

  predicate HasNode(nodes: seq<SourceNode>, v: Value) {
    exists i :: 0 <= i < |nodes| && nodes[i].Node? && nodes[i].id == v
  }

  predicate LinkOk(s: Source, l: SourceLink) {
    && l.Link? && IsScalar(l.source) && IsScalar(l.target)
    && HasNode(s.nodes, l.source) && HasNode(s.nodes, l.target)
  }

  /** What a merge accepts: usable nodes with distinct ids, and links between them. */
  predicate SourceOk(s: Source) {
    NodesOk(s.nodes) && forall i :: 0 <= i < |s.links| ==> LinkOk(s, s.links[i])
  }

  /** The first `k` nodes are records, their file paths checked ones. */
  predicate NodesReadable(s: Source, k: nat)
    requires k <= |s.nodes|
  {
    forall i :: 0 <= i < k ==> s.nodes[i].Node? && !s.nodes[i].file.UnsafeFile?
  }

  predicate LinksReadable(s: Source, k: nat)
    requires k <= |s.links|
  {
    forall i :: 0 <= i < k ==> s.links[i].Link?
  }

  predicate Readable(s: Source) {
    NodesReadable(s, |s.nodes|) && LinksReadable(s, |s.links|)
  }

  predicate AllReadable(sources: seq<Source>, k: nat)
    requires k <= |sources|
  {
    forall i :: 0 <= i < k ==> Readable(sources[i])
  }

  predicate SourcesOk(sources: seq<Source>, k: nat)
    requires k <= |sources|
  {
    forall i :: 0 <= i < k ==> SourceOk(sources[i])
  }

  lemma OkIsReadable(sources: seq<Source>, k: nat)
    requires k <= |sources| && SourcesOk(sources, k)
    ensures AllReadable(sources, k)
  {
    forall i | 0 <= i < k ensures Readable(sources[i]) {
      var s := sources[i];
      assert SourceOk(s);
      forall j | 0 <= j < |s.nodes| ensures s.nodes[j].Node? && !s.nodes[j].file.UnsafeFile? { assert NodeOk(s.nodes[j]); }
      forall j | 0 <= j < |s.links| ensures s.links[j].Link? { assert LinkOk(s, s.links[j]); }
    }
  }

  function FileOf(f: FileRef): Option<Path> {
    if f.File? then Some(f.path) else None
  }

  /** The line range by which a node can be found: only in a file the snapshot holds. */
  function SpanIn(s: Source, n: SourceNode): Option<Span>
    requires n.Node?
  {
    if n.file.File? && n.file.path in s.files && n.lines.Some? && 0 < n.lines.value.lo <= n.lines.value.hi
    then n.lines else None
  }

  function CopyNode(s: Source, n: SourceNode): GraphNode
    requires n.Node?
  {
    GraphNode(Composed(s.id, n.id), n.id, s.id, s.version, FileOf(n.file), n.lines, SpanIn(s, n), Some(n.attributes))
  }

  function CopyNodes(s: Source, k: nat): (r: seq<GraphNode>)
    requires k <= |s.nodes| && NodesReadable(s, k)
    ensures |r| == k && forall i :: 0 <= i < k ==> r[i] == CopyNode(s, s.nodes[i])
  {
    if k == 0 then [] else CopyNodes(s, k - 1) + [CopyNode(s, s.nodes[k - 1])]
  }

  function IsDirected(s: Source): bool {
    if s.directed.Some? then s.directed.value else true
  }

  function CopyLink(s: Source, index: nat, l: SourceLink): GraphLink
    requires l.Link?
  {
    Carried(SourceLinkId(s.id, index, l.id), l.id, Composed(s.id, l.source), Composed(s.id, l.target),
      s.id, s.version, IsDirected(s), l.attributes)
  }

  function CopyLinks(s: Source, k: nat): (r: seq<GraphLink>)
    requires k <= |s.links| && LinksReadable(s, k)
    ensures |r| == k && forall i :: 0 <= i < k ==> r[i] == CopyLink(s, i, s.links[i])
  {
    if k == 0 then [] else CopyLinks(s, k - 1) + [CopyLink(s, k - 1, s.links[k - 1])]
  }

  // ---- all sources ----

  /** The nodes of the first `k` sources, copied one source after another. */
  function AllNodes(sources: seq<Source>, k: nat): seq<GraphNode>
    requires k <= |sources| && AllReadable(sources, k)
  {
    if k == 0 then [] else AllNodes(sources, k - 1) + CopyNodes(sources[k - 1], |sources[k - 1].nodes|)
  }

  /** The links of the first `k` sources, likewise. */
  function AllLinks(sources: seq<Source>, k: nat): seq<GraphLink>
    requires k <= |sources| && AllReadable(sources, k)
  {
    if k == 0 then [] else AllLinks(sources, k - 1) + CopyLinks(sources[k - 1], |sources[k - 1].links|)
  }

  // ---- reading a source back ----

  function FileBack(f: Option<Path>): FileRef {
    if f.Some? then File(f.value) else NoFile
  }

  function NodeBack(n: GraphNode, id: SourceId): seq<SourceNode> {
    if n.source == id && n.attributes.Some? then [Node(n.original, FileBack(n.file), n.lines, n.attributes.value)] else []
  }

  /** The nodes of one source among the first `k` of a composed graph, as its own graph had them. */
  function NodesOf(nodes: seq<GraphNode>, k: nat, id: SourceId): seq<SourceNode>
    requires k <= |nodes|
  {
    if k == 0 then [] else NodesOf(nodes, k - 1, id) + NodeBack(nodes[k - 1], id)
  }

  function LinkBack(l: GraphLink, id: SourceId): seq<SourceLink> {
    if l.Carried? && l.source == id && l.from.Composed? && l.target.Composed?
    then [Link(l.from.original, l.target.original, l.original, l.attributes)] else []
  }

  /** The links of one source among the first `k` of a composed graph, as its own graph had them. */
  function LinksOf(links: seq<GraphLink>, k: nat, id: SourceId): seq<SourceLink>
    requires k <= |links|
  {
    if k == 0 then [] else LinksOf(links, k - 1, id) + LinkBack(links[k - 1], id)
  }

  lemma {:induction false} NodesOfPrefix(a: seq<GraphNode>, b: seq<GraphNode>, k: nat, id: SourceId)
    requires k <= |a| && k <= |b| && forall i :: 0 <= i < k ==> a[i] == b[i]
    ensures NodesOf(a, k, id) == NodesOf(b, k, id)
  {
    if k > 0 { NodesOfPrefix(a, b, k - 1, id); }
  }

  lemma {:induction false} LinksOfPrefix(a: seq<GraphLink>, b: seq<GraphLink>, k: nat, id: SourceId)
    requires k <= |a| && k <= |b| && forall i :: 0 <= i < k ==> a[i] == b[i]
    ensures LinksOf(a, k, id) == LinksOf(b, k, id)
  {
    if k > 0 { LinksOfPrefix(a, b, k - 1, id); }
  }

  function NodesBack(nodes: seq<GraphNode>, id: SourceId): seq<SourceNode> { NodesOf(nodes, |nodes|, id) }

  function LinksBack(links: seq<GraphLink>, id: SourceId): seq<SourceLink> { LinksOf(links, |links|, id) }

  lemma NodesBackNext(a: seq<GraphNode>, n: GraphNode, id: SourceId)
    ensures NodesBack(a + [n], id) == NodesBack(a, id) + NodeBack(n, id)
  {
    NodesOfPrefix(a, a + [n], |a|, id);
  }

  lemma NodesBackStep(rest: seq<GraphNode>, copies: seq<GraphNode>, n: GraphNode, id: SourceId)
    ensures NodesBack(rest + (copies + [n]), id) == NodesBack(rest + copies, id) + NodeBack(n, id)
  {
    NodesBackNext(rest + copies, n, id);
    assert rest + (copies + [n]) == rest + copies + [n];
  }

  lemma CopyIsReadBack(s: Source, j: nat, id: SourceId)
    requires j < |s.nodes| && s.nodes[j].Node? && !s.nodes[j].file.UnsafeFile?
    ensures NodeBack(CopyNode(s, s.nodes[j]), id) == if s.id == id then [s.nodes[j]] else []
  {
  }

  lemma {:induction false} NodesBackBlock(rest: seq<GraphNode>, s: Source, j: nat, id: SourceId)
    requires j <= |s.nodes| && NodesReadable(s, j)
    ensures NodesBack(rest + CopyNodes(s, j), id) == NodesBack(rest, id) + if s.id == id then s.nodes[..j] else []
  {
    if j == 0 {
      assert rest + CopyNodes(s, 0) == rest;
    } else {
      var last := j - 1;
      var n := CopyNode(s, s.nodes[last]);
      NodesBackBlock(rest, s, last, id);
      NodesBackStep(rest, CopyNodes(s, last), n, id);
      CopyIsReadBack(s, last, id);
      assert CopyNodes(s, j) == CopyNodes(s, last) + [n] && s.nodes[..j] == s.nodes[..last] + [s.nodes[last]];
    }
  }

  lemma LastNodes(rest: seq<GraphNode>, s: Source, id: SourceId)
    requires NodesReadable(s, |s.nodes|)
    ensures NodesBack(rest + CopyNodes(s, |s.nodes|), id) == NodesBack(rest, id) + if s.id == id then s.nodes else []
  {
    NodesBackBlock(rest, s, |s.nodes|, id);
    assert s.nodes[..|s.nodes|] == s.nodes;
  }

  lemma LinksBackNext(a: seq<GraphLink>, l: GraphLink, id: SourceId)
    ensures LinksBack(a + [l], id) == LinksBack(a, id) + LinkBack(l, id)
  {
    LinksOfPrefix(a, a + [l], |a|, id);
  }

  lemma {:induction false} LinksBackBlock(rest: seq<GraphLink>, s: Source, j: nat, id: SourceId)
    requires j <= |s.links| && LinksReadable(s, j)
    ensures LinksBack(rest + CopyLinks(s, j), id) == LinksBack(rest, id) + if s.id == id then s.links[..j] else []
  {
    if j == 0 {
      assert rest + CopyLinks(s, 0) == rest;
    } else {
      var l := CopyLink(s, j - 1, s.links[j - 1]);
      var before := rest + CopyLinks(s, j - 1);
      LinksBackBlock(rest, s, j - 1, id);
      assert LinksBack(rest + CopyLinks(s, j), id) == LinksBack(before, id) + LinkBack(l, id) by {
        LinksBackNext(before, l, id);
        assert rest + CopyLinks(s, j) == before + [l];
      }
      assert LinkBack(l, id) == if s.id == id then [s.links[j - 1]] else [];
      assert s.links[..j] == s.links[..j - 1] + [s.links[j - 1]];
    }
  }

  lemma LastLinks(rest: seq<GraphLink>, s: Source, id: SourceId)
    requires LinksReadable(s, |s.links|)
    ensures LinksBack(rest + CopyLinks(s, |s.links|), id) == LinksBack(rest, id) + if s.id == id then s.links else []
  {
    LinksBackBlock(rest, s, |s.links|, id);
    assert s.links[..|s.links|] == s.links;
  }

  predicate OnlyAt(sources: seq<Source>, i: nat)
    requires i < |sources|
  {
    forall j :: 0 <= j < |sources| && sources[j].id == sources[i].id ==> j == i
  }

  lemma NodesStep(sources: seq<Source>, k: nat, id: SourceId)
    requires 0 < k <= |sources| && AllReadable(sources, k)
    ensures NodesBack(AllNodes(sources, k), id)
         == NodesBack(AllNodes(sources, k - 1), id) + if sources[k - 1].id == id then sources[k - 1].nodes else []
  {
    assert Readable(sources[k - 1]);
    LastNodes(AllNodes(sources, k - 1), sources[k - 1], id);
  }

  lemma {:induction false} NodesReadBack(sources: seq<Source>, k: nat, i: nat)
    requires i < |sources| && k <= |sources| && AllReadable(sources, k) && OnlyAt(sources, i)
    ensures NodesBack(AllNodes(sources, k), sources[i].id) == if i < k then sources[i].nodes else []
    decreases k
  {
    if k > 0 {
      var last := k - 1;
      NodesReadBack(sources, last, i);
      NodesStep(sources, k, sources[i].id);
      assert sources[last].id == sources[i].id <==> last == i;
    }
  }

  lemma LinksStep(sources: seq<Source>, k: nat, id: SourceId)
    requires 0 < k <= |sources| && AllReadable(sources, k)
    ensures LinksBack(AllLinks(sources, k), id)
         == LinksBack(AllLinks(sources, k - 1), id) + if sources[k - 1].id == id then sources[k - 1].links else []
  {
    assert Readable(sources[k - 1]);
    LastLinks(AllLinks(sources, k - 1), sources[k - 1], id);
  }

  lemma {:induction false} LinksReadBack(sources: seq<Source>, k: nat, i: nat)
    requires i < |sources| && k <= |sources| && AllReadable(sources, k) && OnlyAt(sources, i)
    ensures LinksBack(AllLinks(sources, k), sources[i].id) == if i < k then sources[i].links else []
    decreases k
  {
    if k > 0 {
      var last := k - 1;
      LinksReadBack(sources, last, i);
      LinksStep(sources, k, sources[i].id);
      assert sources[last].id == sources[i].id <==> last == i;
    }
  }

  /**
   * Every source graph is embedded whole: from the merged graph alone, its nodes and links are read
   * back exactly, in order, parallel links and all.
   */
  lemma SourceReadBack(sources: seq<Source>, i: nat)
    requires i < |sources| && InOrder(sources) && SourcesOk(sources, |sources|)
    ensures AllReadable(sources, |sources|)
    ensures NodesBack(AllNodes(sources, |sources|), sources[i].id) == sources[i].nodes
    ensures LinksBack(AllLinks(sources, |sources|), sources[i].id) == sources[i].links
  {
    OkIsReadable(sources, |sources|);
    assert OnlyAt(sources, i);
    NodesReadBack(sources, |sources|, i);
    LinksReadBack(sources, |sources|, i);
  }

  // ---- disjointness ----

  ghost predicate Unique(nodes: seq<GraphNode>) {
    forall i, j :: 0 <= i < j < |nodes| ==> nodes[i].id != nodes[j].id
  }

  ghost predicate UniqueLinks(links: seq<GraphLink>) {
    forall i, j :: 0 <= i < j < |links| ==> links[i].id != links[j].id
  }

  /** A node of this source: an id of it, its version, and located exactly by a line range in a file of it. */
  predicate NodeFrom(n: GraphNode, s: Source) {
    && n.id == Composed(s.id, n.original) && n.source == s.id && n.version == s.version
    && (n.span.Some? <==>
          n.file.Some? && n.file.value in s.files && n.lines.Some? && 1 <= n.lines.value.lo <= n.lines.value.hi)
    && (n.span.Some? ==> n.span == n.lines)
  }

  /** A link of this source: an id of it, its version, and directed unless the source says otherwise. */
  predicate LinkFrom(l: GraphLink, s: Source) {
    && l.Carried? && l.id.SourceLinkId? && l.id.source == l.source == s.id && l.version == s.version
    && (l.directed <==> s.directed != Some(false))
  }

  predicate NodeBelongs(n: GraphNode, sources: seq<Source>, k: nat)
    requires k <= |sources|
  {
    exists i :: 0 <= i < k && NodeFrom(n, sources[i])
  }

  predicate LinkBelongs(l: GraphLink, sources: seq<Source>, k: nat)
    requires k <= |sources|
  {
    exists i :: 0 <= i < k && LinkFrom(l, sources[i])
  }

  lemma {:induction false} AllBelong(sources: seq<Source>, k: nat)
    requires k <= |sources| && AllReadable(sources, k)
    ensures forall i :: 0 <= i < |AllNodes(sources, k)| ==> NodeBelongs(AllNodes(sources, k)[i], sources, k)
    ensures forall i :: 0 <= i < |AllLinks(sources, k)| ==> LinkBelongs(AllLinks(sources, k)[i], sources, k)
  {
    if k > 0 {
      var last := k - 1;
      AllBelong(sources, last);
      var nodes, links := AllNodes(sources, last), AllLinks(sources, last);
      forall i | 0 <= i < |AllNodes(sources, k)| ensures NodeBelongs(AllNodes(sources, k)[i], sources, k) {
        if i < |nodes| { assert NodeBelongs(nodes[i], sources, last); }
        else { assert NodeFrom(AllNodes(sources, k)[i], sources[last]); }
      }
      forall i | 0 <= i < |AllLinks(sources, k)| ensures LinkBelongs(AllLinks(sources, k)[i], sources, k) {
        if i < |links| { assert LinkBelongs(links[i], sources, last); }
        else { assert LinkFrom(AllLinks(sources, k)[i], sources[last]); }
      }
    }
  }

  predicate NodesMarked(nodes: seq<GraphNode>, s: Source) {
    forall j :: 0 <= j < |nodes| && nodes[j].source == s.id ==> NodeFrom(nodes[j], s)
  }

  predicate LinksMarked(links: seq<GraphLink>, s: Source) {
    forall j :: 0 <= j < |links| && links[j].Carried? && links[j].source == s.id ==> LinkFrom(links[j], s)
  }

  lemma NodeMarked(n: GraphNode, sources: seq<Source>, i: nat)
    requires InOrder(sources) && i < |sources| && NodeBelongs(n, sources, |sources|) && n.source == sources[i].id
    ensures NodeFrom(n, sources[i])
  {
    var k :| 0 <= k < |sources| && NodeFrom(n, sources[k]);
    assert k == i;
  }

  lemma LinkMarked(l: GraphLink, sources: seq<Source>, i: nat)
    requires InOrder(sources) && i < |sources| && LinkBelongs(l, sources, |sources|) && l.Carried? && l.source == sources[i].id
    ensures LinkFrom(l, sources[i])
  {
    var k :| 0 <= k < |sources| && LinkFrom(l, sources[k]);
    assert k == i;
  }

  /** Every copy of a source is marked as such: its version, and for links the direction flag. */
  lemma CopiesAreMarked(sources: seq<Source>, i: nat)
    requires InOrder(sources) && AllReadable(sources, |sources|) && i < |sources|
    ensures NodesMarked(AllNodes(sources, |sources|), sources[i]) && LinksMarked(AllLinks(sources, |sources|), sources[i])
  {
    AllBelong(sources, |sources|);
    var nodes, links := AllNodes(sources, |sources|), AllLinks(sources, |sources|);
    forall j | 0 <= j < |nodes| && nodes[j].source == sources[i].id ensures NodeFrom(nodes[j], sources[i]) {
      NodeMarked(nodes[j], sources, i);
    }
    forall j | 0 <= j < |links| && links[j].Carried? && links[j].source == sources[i].id ensures LinkFrom(links[j], sources[i]) {
      LinkMarked(links[j], sources, i);
    }
  }

  predicate DistinctIds(nodes: seq<SourceNode>)
    requires forall i :: 0 <= i < |nodes| ==> nodes[i].Node?
  {
    forall i, j :: 0 <= i < j < |nodes| ==> nodes[i].id != nodes[j].id
  }

  lemma UniqueCat(a: seq<GraphNode>, sources: seq<Source>, k: nat)
    requires k < |sources| && InOrder(sources) && Unique(a) && Readable(sources[k]) && DistinctIds(sources[k].nodes)
    requires forall i :: 0 <= i < |a| ==> NodeBelongs(a[i], sources, k)
    ensures Unique(a + CopyNodes(sources[k], |sources[k].nodes|))
  {
    var nodes := a + CopyNodes(sources[k], |sources[k].nodes|);
    forall i, j | 0 <= i < j < |nodes| ensures nodes[i].id != nodes[j].id {
      if i < |a| { assert NodeBelongs(a[i], sources, k); }
    }
  }

  lemma UniqueLinksCat(a: seq<GraphLink>, sources: seq<Source>, k: nat)
    requires k < |sources| && InOrder(sources) && UniqueLinks(a) && Readable(sources[k])
    requires forall i :: 0 <= i < |a| ==> LinkBelongs(a[i], sources, k)
    ensures UniqueLinks(a + CopyLinks(sources[k], |sources[k].links|))
  {
    var links := a + CopyLinks(sources[k], |sources[k].links|);
    forall i, j | 0 <= i < j < |links| ensures links[i].id != links[j].id {
      if i < |a| { assert LinkBelongs(a[i], sources, k); }
    }
  }

  lemma {:induction false} NodesUnique(sources: seq<Source>, k: nat)
    requires k <= |sources| && InOrder(sources) && AllReadable(sources, k)
    requires forall i :: 0 <= i < k ==> DistinctIds(sources[i].nodes)
    ensures Unique(AllNodes(sources, k))
  {
    if k > 0 {
      var last := k - 1;
      NodesUnique(sources, last);
      AllBelong(sources, last);
      UniqueCat(AllNodes(sources, last), sources, last);
    }
  }

  lemma {:induction false} LinksUnique(sources: seq<Source>, k: nat)
    requires k <= |sources| && InOrder(sources) && AllReadable(sources, k)
    ensures UniqueLinks(AllLinks(sources, k))
  {
    if k > 0 {
      var last := k - 1;
      LinksUnique(sources, last);
      AllBelong(sources, last);
      UniqueLinksCat(AllLinks(sources, last), sources, last);
    }
  }

  /** No two nodes and no two links of the merged graph share an id. */
  lemma IdsAreUnique(sources: seq<Source>, k: nat)
    requires k <= |sources| && InOrder(sources) && AllReadable(sources, k)
    requires forall i :: 0 <= i < k ==> DistinctIds(sources[i].nodes)
    ensures Unique(AllNodes(sources, k)) && UniqueLinks(AllLinks(sources, k))
  {
    NodesUnique(sources, k);
    LinksUnique(sources, k);
  }

  ghost predicate HasId(nodes: seq<GraphNode>, id: NodeId, source: SourceId) {
    exists i :: 0 <= i < |nodes| && nodes[i].id == id && nodes[i].source == source
  }

  lemma HasIdLater(a: seq<GraphNode>, b: seq<GraphNode>, id: NodeId, source: SourceId)
    requires HasId(a, id, source)
    ensures HasId(a + b, id, source)
  {
    var i :| 0 <= i < |a| && a[i].id == id && a[i].source == source;
    assert (a + b)[i] == a[i];
  }

  lemma HasCopy(a: seq<GraphNode>, s: Source, v: Value)
    requires Readable(s) && HasNode(s.nodes, v)
    ensures HasId(a + CopyNodes(s, |s.nodes|), Composed(s.id, v), s.id)
  {
    var b := CopyNodes(s, |s.nodes|);
    var i :| 0 <= i < |s.nodes| && s.nodes[i].Node? && s.nodes[i].id == v;
    assert (a + b)[|a| + i] == b[i] == CopyNode(s, s.nodes[i]);
  }

  predicate EndsKnown(s: Source) {
    forall i :: 0 <= i < |s.links| && s.links[i].Link? ==>
      HasNode(s.nodes, s.links[i].source) && HasNode(s.nodes, s.links[i].target)
  }

  /** No merged link crosses sources: both its ends are nodes of its own source. */
  lemma {:induction false} LinksStayHome(sources: seq<Source>, k: nat, j: nat)
    requires k <= |sources| && AllReadable(sources, k) && j < |AllLinks(sources, k)|
    requires forall i :: 0 <= i < k ==> EndsKnown(sources[i])
    ensures var l := AllLinks(sources, k)[j];
      && l.Carried?
      && HasId(AllNodes(sources, k), l.from, l.source) && HasId(AllNodes(sources, k), l.target, l.source)
    decreases k
  {
    var s := sources[k - 1];
    var a, before := AllNodes(sources, k - 1), AllLinks(sources, k - 1);
    if j < |before| {
      LinksStayHome(sources, k - 1, j);
      var l := before[j];
      HasIdLater(a, CopyNodes(s, |s.nodes|), l.from, l.source);
      HasIdLater(a, CopyNodes(s, |s.nodes|), l.target, l.source);
    } else {
      var l := s.links[j - |before|];
      assert EndsKnown(s) && l.Link?;
      HasCopy(a, s, l.source);
      HasCopy(a, s, l.target);
    }
  }

  function NodeCount(sources: seq<Source>, k: nat): nat
    requires k <= |sources|
  {
    if k == 0 then 0 else NodeCount(sources, k - 1) + |sources[k - 1].nodes|
  }

  function LinkCount(sources: seq<Source>, k: nat): nat
    requires k <= |sources|
  {
    if k == 0 then 0 else LinkCount(sources, k - 1) + |sources[k - 1].links|
  }

  /** Nothing is dropped or invented. */
  lemma {:induction false} CountsAdd(sources: seq<Source>, k: nat)
    requires k <= |sources| && AllReadable(sources, k)
    ensures |AllNodes(sources, k)| == NodeCount(sources, k) && |AllLinks(sources, k)| == LinkCount(sources, k)
  {
    if k > 0 { CountsAdd(sources, k - 1); }
  }

  lemma {:induction false} CountsGrow(sources: seq<Source>, k: nat, n: nat)
    requires k <= n <= |sources|
    ensures NodeCount(sources, k) <= NodeCount(sources, n) && LinkCount(sources, k) <= LinkCount(sources, n)
    decreases n
  {
    if k < n { CountsGrow(sources, k, n - 1); }
  }

  /** The copies of a source, by themselves, are that source: its nodes and links as they were, in
      order, each marked with its id and version, and the links with its direction flag. */
  ghost predicate EmbedsWhole(nodes: seq<GraphNode>, links: seq<GraphLink>, s: Source) {
    && NodesBack(nodes, s.id) == s.nodes && LinksBack(links, s.id) == s.links
    && NodesMarked(nodes, s) && LinksMarked(links, s)
  }

  ghost predicate StaysHome(nodes: seq<GraphNode>, l: GraphLink) {
    l.Carried? && HasId(nodes, l.from, l.source) && HasId(nodes, l.target, l.source)
  }

  /** A merge is a disjoint union: ids distinct, nothing lost or added, no link across sources, every source whole. */
  lemma DisjointUnion(sources: seq<Source>)
    requires InOrder(sources) && SourcesOk(sources, |sources|)
    ensures AllReadable(sources, |sources|)
    ensures var n := |sources|;
      var nodes, links := AllNodes(sources, n), AllLinks(sources, n);
      && Unique(nodes) && UniqueLinks(links)
      && |nodes| == NodeCount(sources, n) && |links| == LinkCount(sources, n)
      && (forall j :: 0 <= j < |links| ==> StaysHome(nodes, links[j]))
      && (forall i :: 0 <= i < n ==> EmbedsWhole(nodes, links, sources[i]))
  {
    var n := |sources|;
    OkIsReadable(sources, n);
    forall i | 0 <= i < n ensures DistinctIds(sources[i].nodes) && EndsKnown(sources[i]) { SoundSource(sources[i], sources, i); }
    IdsAreUnique(sources, n);
    CountsAdd(sources, n);
    forall j | 0 <= j < |AllLinks(sources, n)| ensures StaysHome(AllNodes(sources, n), AllLinks(sources, n)[j]) {
      LinksStayHome(sources, n, j);
    }
    forall i | 0 <= i < n ensures EmbedsWhole(AllNodes(sources, n), AllLinks(sources, n), sources[i]) {
      SourceReadBack(sources, i);
      CopiesAreMarked(sources, i);
    }
  }

  lemma SoundSource(s: Source, sources: seq<Source>, i: nat)
    requires i < |sources| && s == sources[i] && SourcesOk(sources, |sources|) && AllReadable(sources, |sources|)
    ensures DistinctIds(s.nodes) && EndsKnown(s)
  {
    assert SourceOk(s) && Readable(s);
    forall k | 0 <= k < |s.links| ensures HasNode(s.nodes, s.links[k].source) && HasNode(s.nodes, s.links[k].target) {
      assert LinkOk(s, s.links[k]);
    }
  }
}
