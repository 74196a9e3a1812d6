/**
 Source versions: the publisher that runs at the end of a source build, the completion
 events of that build, and the collector over the source-versions prefix, one service call
 a step. A version is named by the digest of its build's ARN, so it is the ARN here.
 */
module SourceState {
  import opened Common

  type Repo(==, !new)
  type Arn(==, !new)
  type Doc(==, !new)
  type Pid(==, !new)
  type Sid(==, !new)

  const GRAPH_CAP: nat := 32 * 1024 * 1024
  const SNAPSHOT_CAP: nat := 200 * 1024 * 1024
  const SERVE_CAP: nat := 512 * 1024 * 1024
  const AGE_FLOOR_MS: nat := 3_600_000

  datatype RowStatus = Idle | Building | Ready | TooLarge | Failed

  datatype Row = Row(enabled: bool, arn: Option<Arn>, active: Option<Arn>, status: RowStatus,
                     builtSha: Option<Doc>, versionError: bool, other: Doc)

  datatype Key = GraphKey(repo: Repo, arn: Arn) | SnapshotKey(repo: Repo, arn: Arn) | ManifestKey(repo: Repo, arn: Arn)

  datatype Blob = Bytes(doc: Doc) | ManifestBlob(manifest: Manifest)

  datatype Digest = Sha256(of: Blob)

  datatype Manifest = Manifest(repo: Repo, arn: Arn, createdAt: Doc,
                               graphKey: Key, graphSha: Digest, snapshotKey: Key, snapshotSha: Digest)

  datatype Object = Object(blob: Blob, modified: nat)

  /** A local build output: absent, or some bytes of some size. */
  datatype Local = Missing | File(size: nat, doc: Doc)

  datatype Outcome = Published | Superseded | Unavailable | Raised

  datatype Pc =
    | Starting
    | PuttingGraph | HeadingGraph
    | PuttingSnapshot | HeadingSnapshot
    | PuttingManifest
    | Activating
    | Clearing
    | Done(outcome: Outcome)

  datatype Publisher = Publisher(repo: Repo, arn: Arn, graph: Local, snapshot: Local, createdAt: Doc, pc: Pc)

  /** A build-state event, with what the handler reads from the store on its way. */
  datatype Event = Event(repo: Option<Repo>, arn: Arn, succeeded: bool, git: bool, targetSha: Doc,
                         sourceHash: Option<Doc>, graphBytes: Option<nat>)

  datatype SweepPc = Judging | Deleting

  datatype Sweep = Sweep(now: nat, page: seq<(Key, nat)>, judged: nat,
                         cache: map<Repo, Option<Row>>, discard: set<Key>, pc: SweepPc)

  /** `claims` is the history of started builds, oldest first; `exposed` remembers the
      versions a collector condemned while their row was missing or disabled. */
  datatype State = State(clock: nat, rows: map<Repo, Row>, store: map<Key, Object>,
                         publishers: map<Pid, Publisher>, sweeps: map<Sid, Sweep>,
                         claims: seq<(Repo, Arn)>, exposed: set<(Repo, Arn)>)

  // ---- the publisher ----

  predicate Usable(l: Local, cap: nat) {
    l.File? && 0 < l.size <= cap
  }

  predicate HasProblem(p: Publisher) {
    !Usable(p.graph, GRAPH_CAP) || !Usable(p.snapshot, SNAPSHOT_CAP)
  }

  /** The condition of every registry write of a publisher. */
  predicate Current(rows: map<Repo, Row>, p: Publisher) {
    p.repo in rows && rows[p.repo].enabled && rows[p.repo].arn == Some(p.arn)
  }

  function ManifestOf(p: Publisher): Manifest
    requires p.graph.File? && p.snapshot.File?
  {
    Manifest(p.repo, p.arn, p.createdAt,
             GraphKey(p.repo, p.arn), Sha256(Bytes(p.graph.doc)),
             SnapshotKey(p.repo, p.arn), Sha256(Bytes(p.snapshot.doc)))
  }

  predicate StepRead(s: State, i: Pid, s': State) {
    && i in s.publishers && s.publishers[i].pc == Starting
    && var p := s.publishers[i];
       var next := if !Current(s.rows, p) then Done(Superseded) else if HasProblem(p) then Clearing else PuttingGraph;
       s' == s.(publishers := s.publishers[i := p.(pc := next)])
  }

  /** A create-if-absent put; a lost response or another error raises. */
  predicate StepPut(s: State, i: Pid, raised: bool, s': State) {
    && i in s.publishers
    && var p := s.publishers[i];
       && (p.pc == PuttingGraph || p.pc == PuttingSnapshot) && p.graph.File? && p.snapshot.File?
       && var (key, doc, ok, head) :=
            if p.pc == PuttingGraph then (GraphKey(p.repo, p.arn), p.graph.doc, PuttingSnapshot, HeadingGraph)
            else (SnapshotKey(p.repo, p.arn), p.snapshot.doc, PuttingManifest, HeadingSnapshot);
          if key in s.store
          then s' == s.(publishers := s.publishers[i := p.(pc := if raised then Done(Raised) else head)])
          else s' == s.(store := s.store[key := Object(Bytes(doc), s.clock)],
                        publishers := s.publishers[i := p.(pc := if raised then Done(Raised) else ok)])
  }

  /** A refused put compares the recorded digest and raises if it differs or is gone. */
  predicate StepHead(s: State, i: Pid, s': State) {
    && i in s.publishers
    && var p := s.publishers[i];
       && (p.pc == HeadingGraph || p.pc == HeadingSnapshot) && p.graph.File? && p.snapshot.File?
       && var (key, doc, ok) :=
            if p.pc == HeadingGraph then (GraphKey(p.repo, p.arn), p.graph.doc, PuttingSnapshot)
            else (SnapshotKey(p.repo, p.arn), p.snapshot.doc, PuttingManifest);
          var same := key in s.store && Sha256(s.store[key].blob) == Sha256(Bytes(doc));
          s' == s.(publishers := s.publishers[i := p.(pc := if same then ok else Done(Raised))])
  }

  /** The manifest is written unconditionally. */
  predicate StepManifest(s: State, i: Pid, raised: bool, s': State) {
    && i in s.publishers
    && var p := s.publishers[i];
       && p.pc == PuttingManifest && p.graph.File? && p.snapshot.File?
       && s' == s.(store := s.store[ManifestKey(p.repo, p.arn) := Object(ManifestBlob(ManifestOf(p)), s.clock)],
                   publishers := s.publishers[i := p.(pc := if raised then Done(Raised) else Activating)])
  }

  /** The final conditional update of the row: activate, or clear an unusable build. */
  predicate StepPoint(s: State, i: Pid, s': State) {
    && i in s.publishers
    && var p := s.publishers[i];
       && (p.pc == Activating || p.pc == Clearing)
       && if !Current(s.rows, p) then s' == s.(publishers := s.publishers[i := p.(pc := Done(Superseded))])
          else if p.pc == Activating then
            s' == s.(rows := s.rows[p.repo := s.rows[p.repo].(active := Some(p.arn), versionError := false)],
                     publishers := s.publishers[i := p.(pc := Done(Published))])
          else
            s' == s.(rows := s.rows[p.repo := s.rows[p.repo].(active := None, versionError := true)],
                     publishers := s.publishers[i := p.(pc := Done(Unavailable))])
  }

  // ---- completion ----

  /** The row a terminal event leaves behind, when it belongs to the claimed build. */
  function Completed(e: Event, row: Row): Row {
    if !e.succeeded || e.graphBytes.None? then row.(status := Failed)
    else
      var sha := if !e.git && e.sourceHash.Some? then e.sourceHash.value else e.targetSha;
      row.(status := if e.graphBytes.value > SERVE_CAP then TooLarge else Ready, builtSha := Some(sha))
  }

  /** `_guarded_update`: only the claimed build's own event is applied. */
  function Complete(rows: map<Repo, Row>, e: Event): map<Repo, Row> {
    if e.repo.Some? && e.repo.value in rows && rows[e.repo.value].arn == Some(e.arn)
    then rows[e.repo.value := Completed(e, rows[e.repo.value])]
    else rows
  }

  // ---- the collector ----

  predicate Kept(row: Option<Row>, arn: Arn) {
    row.Some? && row.value.enabled && (row.value.active == Some(arn) || row.value.arn == Some(arn))
  }

  predicate StepList(s: State, id: Sid, now: nat, page: seq<(Key, nat)>, s': State) {
    && id !in s.sweeps && now <= s.clock
    && (forall i :: 0 <= i < |page| ==> page[i].0 in s.store && s.store[page[i].0].modified == page[i].1)
    && s' == s.(sweeps := s.sweeps[id := Sweep(now, page, 0, map[], {}, Judging)])
  }

  function CacheFor(s: State, p: Sweep, repo: Repo): map<Repo, Option<Row>> {
    if repo in p.cache then p.cache else p.cache[repo := Lookup(s.rows, repo)]
  }

  predicate Condemns(s: State, p: Sweep)
    requires p.judged < |p.page|
  {
    var (key, modified) := p.page[p.judged];
    p.now - modified >= AGE_FLOOR_MS && !Kept(CacheFor(s, p, key.repo)[key.repo], key.arn)
  }

  function Judge(s: State, p: Sweep): Sweep
    requires p.judged < |p.page|
  {
    var (key, modified) := p.page[p.judged];
    if p.now - modified < AGE_FLOOR_MS then p.(judged := p.judged + 1)
    else p.(judged := p.judged + 1, cache := CacheFor(s, p, key.repo),
            discard := if Condemns(s, p) then p.discard + {key} else p.discard)
  }

  /** Whether a judgement rests on a missing or disabled row. */
  predicate Exposes(s: State, p: Sweep)
    requires p.judged < |p.page|
  {
    var row := CacheFor(s, p, p.page[p.judged].0.repo)[p.page[p.judged].0.repo];
    Condemns(s, p) && (row.None? || !row.value.enabled)
  }

  predicate StepJudge(s: State, id: Sid, s': State) {
    && id in s.sweeps && s.sweeps[id].pc == Judging
    && var p := s.sweeps[id];
       if p.judged < |p.page| then
         var key := p.page[p.judged].0;
         s' == s.(sweeps := s.sweeps[id := Judge(s, p)],
                  exposed := if Exposes(s, p) then s.exposed + {(key.repo, key.arn)} else s.exposed)
       else s' == s.(sweeps := s.sweeps[id := p.(pc := Deleting)])
  }

  predicate StepDelete(s: State, id: Sid, keys: set<Key>, s': State) {
    && id in s.sweeps && s.sweeps[id].pc == Deleting && keys <= s.sweeps[id].discard
    && s' == s.(store := s.store - keys)
  }

  // ---- steps ----

  datatype Action =
    | Tick(ms: nat)
    | AddRow(repo: Repo, enabled: bool, other: Doc)
    | EditRow(repo: Repo, enabled: bool, other: Doc)
    | RemoveRow(repo: Repo)
    | Claim(repo: Repo, arn: Arn)
    | Start(pid: Pid, publisher: Publisher)
    | Read(pid: Pid)
    | Put(pid: Pid, raised: bool)
    | Head(pid: Pid)
    | PutManifest(pid: Pid, raised: bool)
    | Point(pid: Pid)
    | Kill(pid: Pid)
    | Finish(event: Event)
    | SweepList(id: Sid, now: nat, page: seq<(Key, nat)>)
    | SweepJudge(id: Sid)
    | SweepDelete(id: Sid, keys: set<Key>)

  predicate StepClaim(s: State, repo: Repo, arn: Arn, s': State) {
    && repo in s.rows && (repo, arn) !in s.claims
    && s' == s.(rows := s.rows[repo := s.rows[repo].(arn := Some(arn), status := Building)],
                claims := s.claims + [(repo, arn)])
  }

  predicate StepAdd(s: State, repo: Repo, enabled: bool, other: Doc, s': State) {
    && repo !in s.rows
    && s' == s.(rows := s.rows[repo := Row(enabled, None, None, Idle, None, false, other)])
  }

  predicate StepEdit(s: State, repo: Repo, enabled: bool, other: Doc, s': State) {
    && repo in s.rows
    && s' == s.(rows := s.rows[repo := s.rows[repo].(enabled := enabled, other := other)])
  }

  ghost predicate Step(s: State, a: Action, s': State) {
    match a
    case Tick(ms) => s' == s.(clock := s.clock + ms)
    case AddRow(r, enabled, other) => StepAdd(s, r, enabled, other, s')
    case EditRow(r, enabled, other) => StepEdit(s, r, enabled, other, s')
    case RemoveRow(r) => s' == s.(rows := s.rows - {r})
    case Claim(r, arn) => StepClaim(s, r, arn, s')
    case Start(i, p) => i !in s.publishers && p.pc == Starting && s' == s.(publishers := s.publishers[i := p])
    case Read(i) => StepRead(s, i, s')
    case Put(i, raised) => StepPut(s, i, raised, s')
    case Head(i) => StepHead(s, i, s')
    case PutManifest(i, raised) => StepManifest(s, i, raised, s')
    case Point(i) => StepPoint(s, i, s')
    case Kill(i) => i in s.publishers && s' == s.(publishers := s.publishers[i := s.publishers[i].(pc := Done(Raised))])
    case Finish(e) => s' == s.(rows := Complete(s.rows, e))
    case SweepList(id, now, page) => StepList(s, id, now, page, s')
    case SweepJudge(id) => StepJudge(s, id, s')
    case SweepDelete(id, keys) => StepDelete(s, id, keys, s')
  }

  predicate Init(s: State) {
    && s.rows == map[] && s.store == map[] && s.publishers == map[] && s.sweeps == map[]
    && s.claims == [] && s.exposed == {}
  }

  ghost predicate StepAt(ss: seq<State>, acts: seq<Action>, i: nat)
    requires |ss| == |acts| + 1 && i < |acts|
  {
    Step(ss[i], acts[i], ss[i + 1])
  }

  ghost predicate IsRun(ss: seq<State>, acts: seq<Action>) {
    && |ss| == |acts| + 1 && Init(ss[0])
    && forall i :: 0 <= i < |acts| ==> StepAt(ss, acts, i)
  }
}
