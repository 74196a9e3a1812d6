/** The values of a group composition: sources, the composed graph, evidence and candidates. */
module Composition {
  import opened Common

  const MAX_NODES: nat := 50_000
  const MAX_EDGES: nat := 200_000
  const MAX_GRAPH_BYTES: nat := 33_554_432
  const MAX_CANDIDATES: nat := 1_000
  const MAX_COMPARISONS: nat := 16_000
  const MAX_QUOTE_BYTES: nat := 2_048

  /** A source id, numbered in the string order by which a build sorts its sources. */
  type SourceId = nat
  type Path = string
  /** The attributes a node or a link carries along unread. */
  type Attributes(==, !new, 0)

  // ---- source graphs ----

  /** A JSON value where an identity is expected; a number is its JSON text, so 1, 1.0 and "1" differ. */
  datatype Value = Null | Flag(on: bool) | Number(text: string) | NotFinite | Text(text: string) | Compound

  predicate IsScalar(v: Value) { v.Flag? || v.Number? || v.Text? }

  datatype Span = Span(lo: int, hi: int)

  /** A node's file: absent, refused by the path check, or the checked path. */
  datatype FileRef = NoFile | UnsafeFile | File(path: Path)

  datatype SourceNode =
    | BadNode
    | Node(id: Value, file: FileRef, lines: Option<Span>, attributes: Attributes)

  /** A link; an absent id reads as null. */
  datatype SourceLink =
    | BadLink
    | Link(source: Value, target: Value, id: Value, attributes: Attributes)

  datatype Source = Source(
    id: SourceId, version: string, nodes: seq<SourceNode>, links: seq<SourceLink>,
    directed: Option<bool>, files: map<Path, seq<string>>)

  /** A build sorts its sources by id and refuses a repeated id. */
  predicate InOrder(sources: seq<Source>) {
    forall i, j :: 0 <= i < j < |sources| ==> sources[i].id < sources[j].id
  }

  // ---- the composed graph; hashes are injective, so an id is what was hashed ----

  datatype NodeId = Composed(source: SourceId, original: Value) | Anchor(source: SourceId, file: Path, start: int, end: int)

  /** A node of the composed graph; `span` is where its file was cited by line. */
  datatype GraphNode = GraphNode(
    id: NodeId, original: Value, source: SourceId, version: string, file: Option<Path>,
    lines: Option<Span>, span: Option<Span>, attributes: Option<Attributes>)

  datatype Kind = Extracted | Inferred(model: string)

  datatype Evidence = Evidence(source: SourceId, version: string, file: Path, start: int, end: int, quote: string)

  datatype LinkId =
    | SourceLinkId(source: SourceId, index: nat, original: Value)
    | RelationId(from: NodeId, target: NodeId, relation: string, inferred: bool, left: Evidence, right: Evidence)

  datatype GraphLink =
    | Carried(id: LinkId, original: Value, from: NodeId, target: NodeId, source: SourceId,
              version: string, directed: bool, attributes: Attributes)
    | Related(id: LinkId, from: NodeId, target: NodeId, relation: string, kind: Kind,
              left: Evidence, right: Evidence, signal: string)

  // ---- evidence ----

  function Utf8Length(s: string): nat {
    if s == [] then 0
    else (var c := s[0] as int; if c < 0x80 then 1 else if c < 0x800 then 2 else if c < 0x10000 then 3 else 4)
         + Utf8Length(s[1..])
  }

  predicate AllBlank(s: string) {
    forall i :: 0 <= i < |s| ==> IsBlank(s[i])
  }

  function JoinLines(lines: seq<string>): string {
    if lines == [] then [] else if |lines| == 1 then lines[0] else lines[0] + "\n" + JoinLines(lines[1..])
  }

  /** Lines `start` to `end` of a pinned file, as evidence; none when out of range, blank or too long. */
  function Quote(s: Source, file: Path, start: int, end: int): (r: Option<Evidence>)
    requires file in s.files
  {
    if !(1 <= start <= end <= |s.files[file]|) then None
    else
      var text := JoinLines(s.files[file][start - 1..end]);
      if AllBlank(text) || Utf8Length(text) > MAX_QUOTE_BYTES then None
      else Some(Evidence(s.id, s.version, file, start, end, text))
  }

  function FindSource(sources: seq<Source>, id: SourceId): (r: Option<Source>)
    ensures r.Some? ==> r.value in sources && r.value.id == id
    ensures r.None? ==> forall s :: s in sources ==> s.id != id
  {
    if sources == [] then None
    else if sources[0].id == id then Some(sources[0]) else FindSource(sources[1..], id)
  }

  /** `validate_evidence`: the quote is exactly what the pinned snapshot holds at those lines. */
  predicate ValidEvidence(e: Evidence, sources: seq<Source>) {
    var s := FindSource(sources, e.source);
    && s.Some? && e.version == s.value.version && e.file in s.value.files
    && Quote(s.value, e.file, e.start, e.end) == Some(e)
  }

  // ---- candidates; the hashed key is the candidate itself ----

  datatype Candidate = Candidate(relation: string, signal: string, left: Evidence, right: Evidence)
}
