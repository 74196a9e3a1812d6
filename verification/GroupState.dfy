/**
 The tables, the object store and the actors of the group build protocol, and one
 atomic step of each actor.

 A step is one service call: a consistent read, a conditional update or transaction, one
 put, one delete. Everything between two calls is local to an actor, so interleaving
 these steps gives every schedule of retried workers, publishers and collectors.
 Content digests are built by a constructor, which makes them injective.
 */
module GroupState {
  import opened Common

  type Gid(==, !new)
  type Bid(==, !new)
  type Sid(==, !new)
  type Sub(==, !new)
  type Version(==, !new)
  type Path(==, !new)
  type Field(==, !new)
  type Doc(==, !new)
  type Token(==, !new)
  type SweepId(==, !new)

  const LEASE_SECONDS: nat := 960
  const AGE_FLOOR_MS: nat := 3_600_000
  const MAX_SOURCES: nat := 8

  // ---- rows ----

  datatype Status = Draft | Queued | Building | Ready | Partial | Failed | Stale | Deleted

  datatype Member = Member(sid: Sid, role: Doc)

  /** The fields of a group that a build depends on: the member list, then description,
      llm_enabled and model as `brief`, then owner, membership, context and ACL versions,
      model aliases and the deletion mark as `access`. */
  datatype Inputs = Inputs(sources: seq<Member>, brief: Doc, access: Doc)

  datatype Active = Active(version: Bid, revision: nat,
                           sourceVersions: map<Sid, Version>, sourceDescriptions: map<Sid, nat>)

  datatype Meta = Meta(status: Status, build: Option<Bid>, revision: nat,
                       token: Option<Token>, lease: Option<int>, inputs: Inputs, active: Option<Active>)

  /** The registry fields that a build is fenced on; `rest` holds epochs, owner, enabled,
      deletion mark and description. */
  datatype SourceFields = SourceFields(activeVersion: Option<Version>, public: bool,
                                       descriptionVersion: Option<nat>, rest: Doc)

  datatype SourceRow = SourceRow(fields: SourceFields, other: Doc)

  datatype GrantKey = AccountDeleted(sub: Sub) | GroupGrant(sub: Sub, gid: Gid) | SourceGrant(sub: Sub, sid: Sid)

  type Grant = map<Field, Doc>

  datatype Ledger = Ledger(gid: Gid, bid: Bid, revision: nat, sub: Sub, status: Status,
                           sourceVersions: map<Sid, Option<Version>>, sourceDescriptions: map<Sid, nat>,
                           sources: seq<Member>, brief: Doc, note: Doc)

  // ---- objects ----

  datatype Key =
    | FileKey(gid: Gid, bid: Bid, sid: Sid, path: Path)
    | GraphKey(gid: Gid, bid: Bid)
    | ManifestKey(gid: Gid, bid: Bid)

  datatype Blob = Text(text: Doc) | Graph(doc: Doc) | ManifestBlob(manifest: Manifest)

  datatype Digest = Sha256(of: Blob)

  datatype FileRef = FileRef(key: Key, sha: Digest)

  datatype Manifest = Manifest(gid: Gid, bid: Bid, revision: nat,
                               sourceVersions: map<Sid, Version>, sourceDescriptions: map<Sid, nat>,
                               graphKey: Key, graphSha: Digest,
                               files: map<(Sid, Path), FileRef>, partial: bool, pairCache: Doc)

  datatype Object = Object(blob: Blob, modified: nat)

  // ---- actors ----

  datatype Upload = Upload(key: Key, blob: Blob)

  datatype Plan = Plan(manifest: Manifest, graph: Blob, uploads: seq<Upload>)

  /** What a checkpoint returns to. */
  datatype After = ToSnapshot | ToLoad | ToCompose | ToUpload | ToCommit

  datatype Pc =
    | Starting
    | Leasing
    | Acquiring(now: nat)
    | ReadingLedger
    | CheckingClaim(after: After)
    | CheckingAccess(after: After)
    | CheckingRows(todo: set<Sid>, after: After)
    | Snapshotted
    | ReadingRows(todo: set<Sid>)
    | GuardingAccount
    | GuardingGrant
    | GuardingSources(todo: set<Sid>)
    | Loading
    | Composing
    | Putting(k: nat)
    | Verifying(k: nat)
    | Committing
    | Failing
    | Ended

  datatype Worker = Worker(gid: Gid, bid: Bid, revision: nat, sub: Sub, started: nat,
                           acquired: Option<nat>, pc: Pc, ledger: Option<Ledger>, snap: Option<Meta>,
                           rows: map<Sid, SourceRow>, grant: Option<Grant>, sourceGrants: map<Sid, Grant>,
                           plan: Option<Plan>)

  datatype SweepPc = Judging | Deleting

  datatype Sweep = Sweep(now: nat, page: seq<(Key, nat)>, judged: nat,
                         cache: map<Gid, Option<Meta>>, discard: set<Key>, pc: SweepPc)

  /** One entry per worker transaction that took a build out of BUILDING. */
  datatype Exit = Exit(gid: Gid, bid: Bid, token: Token, status: Status, ledgerClosed: bool)

  datatype State = State(clock: nat,
                         metas: map<Gid, Meta>, ledgers: map<(Gid, Bid), Ledger>,
                         registry: map<Sid, SourceRow>, grants: map<GrantKey, Grant>,
                         store: map<Key, Object>,
                         workers: map<Token, Worker>, sweeps: map<SweepId, Sweep>,
                         claimed: set<(Gid, Bid)>, exits: seq<Exit>)

  // ---- pure checks of the worker ----

  /** `_claimed`: the row still carries this build, and this worker's token once it has one. */
  predicate Claimed(m: Option<Meta>, bid: Bid, revision: nat, token: Option<Token>) {
    m.Some? && m.value.status == Building && m.value.build == Some(bid) && m.value.revision == revision
    && (token.Some? ==> m.value.token == token)
  }

  /** `_members`: one to eight distinct sources. */
  predicate ValidMembers(inputs: Inputs) {
    && 1 <= |inputs.sources| <= MAX_SOURCES
    && forall i, j :: 0 <= i < j < |inputs.sources| ==> inputs.sources[i].sid != inputs.sources[j].sid
  }

  function MemberIds(inputs: Inputs): set<Sid> {
    set i | 0 <= i < |inputs.sources| :: inputs.sources[i].sid
  }

  /** `_ledger_matches`. */
  predicate LedgerMatches(l: Option<Ledger>, w: Worker) {
    && l.Some? && l.value.gid == w.gid && l.value.bid == w.bid && l.value.revision == w.revision
    && l.value.sub == w.sub && l.value.status in {Queued, Building}
  }

  function DescriptionVersion(row: SourceRow): nat {
    if row.fields.descriptionVersion.Some? then row.fields.descriptionVersion.value else 0
  }

  function RowVersions(rows: map<Sid, SourceRow>): map<Sid, Option<Version>> {
    map sid | sid in rows :: rows[sid].fields.activeVersion
  }

  function RowDescriptions(rows: map<Sid, SourceRow>): map<Sid, nat> {
    map sid | sid in rows :: DescriptionVersion(rows[sid])
  }

  /** The versions a loaded source reports: the pinned, present active versions. */
  function PinnedVersions(rows: map<Sid, SourceRow>): map<Sid, Version> {
    map sid | sid in rows && rows[sid].fields.activeVersion.Some? :: rows[sid].fields.activeVersion.value
  }

  predicate AllPinned(rows: map<Sid, SourceRow>) {
    forall sid :: sid in rows ==> rows[sid].fields.activeVersion.Some?
  }

  predicate NonPublic(rows: map<Sid, SourceRow>, sid: Sid) {
    sid in rows && !rows[sid].fields.public
  }

  /** The artifacts of a build: arbitrary composed content, laid out and hashed as
      `run_build` does, files first, then the graph, then the manifest. */
  predicate PlanOk(w: Worker, p: Plan) {
    && p.manifest.gid == w.gid && p.manifest.bid == w.bid && p.manifest.revision == w.revision
    && p.manifest.sourceVersions == PinnedVersions(w.rows)
    && p.manifest.sourceDescriptions == RowDescriptions(w.rows)
    && p.manifest.graphKey == GraphKey(w.gid, w.bid)
    && p.manifest.graphSha == Sha256(p.graph)
    && |p.uploads| >= 2
    && p.uploads[|p.uploads| - 2] == Upload(GraphKey(w.gid, w.bid), p.graph)
    && p.uploads[|p.uploads| - 1] == Upload(ManifestKey(w.gid, w.bid), ManifestBlob(p.manifest))
    && (forall i :: 0 <= i < |p.uploads| - 2 ==> IsFileUpload(w, p.manifest, p.uploads[i]))
    && (forall f :: f in p.manifest.files ==> FileListed(w, p, f))
  }

  predicate IsFileUpload(w: Worker, m: Manifest, u: Upload) {
    && u.key.FileKey? && u.key.gid == w.gid && u.key.bid == w.bid && u.blob.Text?
    && u.key.sid in w.rows
    && (u.key.sid, u.key.path) in m.files
    && m.files[(u.key.sid, u.key.path)] == FileRef(u.key, Sha256(u.blob))
  }

  predicate FileListed(w: Worker, p: Plan, f: (Sid, Path))
    requires f in p.manifest.files
  {
    && p.manifest.files[f].key == FileKey(w.gid, w.bid, f.0, f.1)
    && exists i :: 0 <= i < |p.uploads| - 2 && p.uploads[i].key == p.manifest.files[f].key
  }

  // ---- conditions checked by the service ----

  /** `_acquire`: no token, or a lease that ended before the worker's clock reading. */
  predicate CanAcquire(m: Option<Meta>, w: Worker, now: nat) {
    && Claimed(m, w.bid, w.revision, None)
    && (m.value.token.None? || (m.value.lease.Some? && m.value.lease.value < now))
  }

  predicate GrantHolds(grants: map<GrantKey, Grant>, k: GrantKey, captured: Grant) {
    k in grants && forall f :: f in captured ==> f in grants[k] && grants[k][f] == captured[f]
  }

  /** `_guards`: the account is not deleted and every captured row is unchanged. */
  ghost predicate GuardsHold(s: State, w: Worker) {
    && AccountDeleted(w.sub) !in s.grants
    && w.grant.Some? && GrantHolds(s.grants, GroupGrant(w.sub, w.gid), w.grant.value)
    && (forall sid :: sid in w.rows ==> sid in s.registry && s.registry[sid].fields == w.rows[sid].fields)
    && (forall sid :: sid in w.rows && NonPublic(w.rows, sid) ==>
          sid in w.sourceGrants && GrantHolds(s.grants, SourceGrant(w.sub, sid), w.sourceGrants[sid]))
  }

  /** `_ledger_update`: the captured ledger fields are unchanged. */
  ghost predicate LedgerHolds(s: State, w: Worker)
    requires w.ledger.Some?
  {
    && (w.gid, w.bid) in s.ledgers
    && s.ledgers[(w.gid, w.bid)].(sources := w.ledger.value.sources, brief := w.ledger.value.brief,
                                  note := w.ledger.value.note) == w.ledger.value
  }

  /** The condition of `_finish` on META: everything captured, token included. */
  ghost predicate MetaHolds(s: State, w: Worker) {
    && w.snap.Some? && w.gid in s.metas
    && s.metas[w.gid].status == w.snap.value.status
    && s.metas[w.gid].build == w.snap.value.build
    && s.metas[w.gid].revision == w.snap.value.revision
    && s.metas[w.gid].inputs == w.snap.value.inputs
    && s.metas[w.gid].token == w.snap.value.token
  }

  ghost predicate CanCommit(s: State, w: Worker) {
    && w.plan.Some? && MetaHolds(s, w) && GuardsHold(s, w)
    && (w.ledger.Some? ==> LedgerHolds(s, w))
  }

  /** The condition of `_failed`. */
  ghost predicate CanFail(s: State, t: Token, w: Worker) {
    && Claimed(Lookup(s.metas, w.gid), w.bid, w.revision, Some(t))
    && (LedgerMatches(w.ledger, w) ==> LedgerHolds(s, w))
  }

  /** The group pins of `sweep`. */
  predicate Unpinned(m: Option<Meta>, bid: Bid) {
    m.None? || m.value.status == Deleted
    || (m.value.build != Some(bid) && (m.value.active.None? || m.value.active.value.version != bid))
  }

  // ---- steps ----

  datatype Action =
    | Tick(ms: nat)
    | NewGroup(gid: Gid, inputs: Inputs)
    | Claim(gid: Gid, bid: Bid, clearToken: bool, row: Option<Ledger>)
    | EditMeta(gid: Gid, meta: Meta)
    | EditLedger(gid: Gid, bid: Bid, ledger: Ledger)
    | EditRegistry(registry: map<Sid, SourceRow>)
    | EditGrants(grants: map<GrantKey, Grant>)
    | Spawn(token: Token, gid: Gid, bid: Bid, revision: nat, sub: Sub)
    | Work(token: Token, to: Worker)
    | Fault(token: Token)
    | Crash(token: Token)
    | Acquire(token: Token, lost: bool)
    | Put(token: Token, lost: bool)
    | Commit(token: Token, lost: bool)
    | Fail(token: Token)
    | SweepList(id: SweepId, now: nat, page: seq<(Key, nat)>)
    | SweepJudge(id: SweepId)
    | SweepDelete(id: SweepId, keys: set<Key>)
    | SweepEnd(id: SweepId)

  ghost predicate Init(s: State) {
    && s.metas == map[] && s.ledgers == map[] && s.store == map[]
    && s.workers == map[] && s.sweeps == map[] && s.claimed == {} && s.exits == []
  }

  /** The platform's own writes to a group row: it may change inputs and revision, close or
      delete the group, but only a claim starts a build, only a worker moves the active
      pointer, and a deleted group stays deleted. */
  ghost predicate EditAllowed(m: Meta, m': Meta) {
    && m'.build == m.build && m'.active == m.active
    && (m.status == Deleted ==> m'.status == Deleted)
    && (m'.token == m.token || m'.token.None?)
    && (m'.status == Building ==> m.status == Building && m'.token == m.token && m'.lease == m.lease)
  }

  ghost predicate LedgerEditAllowed(l: Ledger, l': Ledger) {
    && l'.(status := l.status, note := l.note) == l
    && (l'.status == l.status || (l.status in {Queued, Building} && l'.status in {Building, Failed}))
  }

  function NewWorker(gid: Gid, bid: Bid, revision: nat, sub: Sub, started: nat): Worker {
    Worker(gid, bid, revision, sub, started, None, Starting, None, None, map[], None, map[], None)
  }

  function Resume(after: After): Pc {
    match after
    case ToSnapshot => Snapshotted
    case ToLoad => Loading
    case ToCompose => Composing
    case ToUpload => Putting(0)
    case ToCommit => Committing
  }

  function NextPut(w: Worker, k: nat): Pc
    requires w.plan.Some?
  {
    if k + 1 < |w.plan.value.uploads| then Putting(k + 1) else CheckingClaim(ToCommit)
  }

  // ---- the local steps of a worker: each reads at most one row or object ----

  predicate ReadClaim(s: State, w: Worker, w': Worker) {
    w' == w.(pc := if Claimed(Lookup(s.metas, w.gid), w.bid, w.revision, None) then Leasing else Ended)
  }

  predicate LeaseRefused(s: State, w: Worker, now: nat, w': Worker) {
    !CanAcquire(Lookup(s.metas, w.gid), w, now) && w' == w.(pc := Ended)
  }

  predicate ReadLedger(s: State, w: Worker, w': Worker) {
    var l := Lookup(s.ledgers, (w.gid, w.bid));
    w' == w.(ledger := l, pc := if l.None? || LedgerMatches(l, w) then CheckingClaim(ToSnapshot) else Failing)
  }

  /** A checkpoint first reads the row and stops without a trace if the claim is gone. */
  predicate CheckClaim(s: State, t: Token, w: Worker, after: After, w': Worker) {
    w' == w.(pc := if Claimed(Lookup(s.metas, w.gid), w.bid, w.revision, Some(t)) then CheckingAccess(after) else Ended)
  }

  /** Then it checks access, which may refuse in any state, and reads the row again: the
      first checkpoint captures it, the later ones compare it with the capture. */
  predicate CheckAccess(s: State, t: Token, w: Worker, after: After, w': Worker) {
    || w' == w.(pc := Failing)
    || (!Claimed(Lookup(s.metas, w.gid), w.bid, w.revision, Some(t)) && w' == w.(pc := Ended))
    || (&& Claimed(Lookup(s.metas, w.gid), w.bid, w.revision, Some(t))
        && var m := s.metas[w.gid];
           if w.snap.None? then w' == w.(snap := Some(m), pc := Resume(after))
           else w' == w.(pc := if m.inputs == w.snap.value.inputs && m.token == w.snap.value.token
                               then CheckingRows(w.rows.Keys, after) else Failing))
  }

  /** Then it reads each captured source row again. */
  predicate CheckRows(s: State, w: Worker, todo: set<Sid>, after: After, w': Worker) {
    if todo == {} then w' == w.(pc := Resume(after))
    else exists sid :: sid in todo && CheckRow(s, w, todo, after, sid, w')
  }

  predicate CheckRow(s: State, w: Worker, todo: set<Sid>, after: After, sid: Sid, w': Worker) {
    if sid in w.rows && sid in s.registry && s.registry[sid].fields == w.rows[sid].fields
    then w' == w.(pc := CheckingRows(todo - {sid}, after)) else w' == w.(pc := Failing)
  }

  predicate ReviewSnapshot(w: Worker, w': Worker) {
    && w.snap.Some?
    && w' == w.(pc := if && (w.ledger.Some? ==> w.ledger.value.sources == w.snap.value.inputs.sources
                                                && w.ledger.value.brief == w.snap.value.inputs.brief)
                         && ValidMembers(w.snap.value.inputs)
                      then ReadingRows(MemberIds(w.snap.value.inputs)) else Failing)
  }

  predicate ReadRows(s: State, w: Worker, todo: set<Sid>, w': Worker) {
    if todo == {} then
      w' == w.(pc := if w.ledger.Some? ==> w.ledger.value.sourceVersions == RowVersions(w.rows)
                                           && w.ledger.value.sourceDescriptions == RowDescriptions(w.rows)
                     then GuardingAccount else Failing)
    else exists sid :: sid in todo && ReadRow(s, w, todo, sid, w')
  }

  predicate ReadRow(s: State, w: Worker, todo: set<Sid>, sid: Sid, w': Worker) {
    if sid in s.registry
    then w' == w.(rows := w.rows[sid := s.registry[sid]], pc := ReadingRows(todo - {sid}))
    else w' == w.(pc := Failing)
  }

  predicate GuardAccount(s: State, w: Worker, w': Worker) {
    w' == w.(pc := if AccountDeleted(w.sub) in s.grants then Failing else GuardingGrant)
  }

  predicate GuardGrant(s: State, w: Worker, w': Worker) {
    var g := Lookup(s.grants, GroupGrant(w.sub, w.gid));
    if g.None? then w' == w.(pc := Failing)
    else w' == w.(grant := g, pc := GuardingSources(set sid | sid in w.rows && NonPublic(w.rows, sid)))
  }

  predicate GuardSources(s: State, w: Worker, todo: set<Sid>, w': Worker) {
    if todo == {} then w' == w.(pc := CheckingClaim(ToLoad))
    else exists sid :: sid in todo && ReadSourceGrant(s, w, todo, sid, w')
  }

  predicate ReadSourceGrant(s: State, w: Worker, todo: set<Sid>, sid: Sid, w': Worker) {
    if SourceGrant(w.sub, sid) in s.grants
    then w' == w.(sourceGrants := w.sourceGrants[sid := s.grants[SourceGrant(w.sub, sid)]],
                  pc := GuardingSources(todo - {sid}))
    else w' == w.(pc := Failing)
  }

  predicate LoadSources(w: Worker, w': Worker) {
    w' == w.(pc := if AllPinned(w.rows) then CheckingClaim(ToCompose) else Failing)
  }

  /** The engine may return anything: two workers on one build may compose different content. */
  predicate Compose(w: Worker, w': Worker) {
    && w'.plan.Some? && PlanOk(w, w'.plan.value)
    && w' == w.(plan := w'.plan, pc := CheckingClaim(ToUpload))
  }

  /** A refused put reads the object back and accepts only identical bytes. */
  predicate VerifyPut(s: State, w: Worker, k: nat, w': Worker) {
    && w.plan.Some? && k < |w.plan.value.uploads|
    && var u := w.plan.value.uploads[k];
       w' == w.(pc := if u.key in s.store && s.store[u.key].blob == u.blob then NextPut(w, k) else Failing)
  }

  ghost predicate Move(s: State, t: Token, w: Worker, w': Worker) {
    match w.pc
    case Starting => ReadClaim(s, w, w')
    case Leasing => w' == w.(pc := Acquiring(s.clock / 1000))
    case Acquiring(now) => LeaseRefused(s, w, now, w')
    case ReadingLedger => ReadLedger(s, w, w')
    case CheckingClaim(after) => CheckClaim(s, t, w, after, w')
    case CheckingAccess(after) => CheckAccess(s, t, w, after, w')
    case CheckingRows(todo, after) => CheckRows(s, w, todo, after, w')
    case Snapshotted => ReviewSnapshot(w, w')
    case ReadingRows(todo) => ReadRows(s, w, todo, w')
    case GuardingAccount => GuardAccount(s, w, w')
    case GuardingGrant => GuardGrant(s, w, w')
    case GuardingSources(todo) => GuardSources(s, w, todo, w')
    case Loading => LoadSources(w, w')
    case Composing => Compose(w, w')
    case Putting(k) => w' == w.(pc := Verifying(k))
    case Verifying(k) => VerifyPut(s, w, k, w')
    case Committing => !CanCommit(s, w) && w' == w.(pc := Failing)
    case Failing => !CanFail(s, t, w) && w' == w.(pc := Ended)
    case Ended => false
  }

  /** An exception outside the protocol: a service error or the deadline check. */
  function Faulted(w: Worker): Worker {
    w.(pc := if w.acquired.Some? && w.pc != Failing && w.pc != Ended then Failing else Ended)
  }

  function Published(w: Worker, m: Meta): Meta
    requires w.plan.Some?
  {
    var f := w.plan.value.manifest;
    m.(status := if f.partial then Partial else Ready,
       active := Some(Active(w.bid, w.revision, f.sourceVersions, f.sourceDescriptions)),
       token := None, lease := None)
  }

  function CloseLedger(s: State, w: Worker, close: bool, status: Status): map<(Gid, Bid), Ledger>
    requires close ==> (w.gid, w.bid) in s.ledgers
  {
    if close then s.ledgers[(w.gid, w.bid) := s.ledgers[(w.gid, w.bid)].(status := status)] else s.ledgers
  }

  ghost predicate StepAcquire(s: State, t: Token, lost: bool, s': State) {
    && t in s.workers && s.workers[t].pc.Acquiring?
    && var w := s.workers[t];
       var now := w.pc.now;
       && CanAcquire(Lookup(s.metas, w.gid), w, now)
       && s' == s.(metas := s.metas[w.gid := s.metas[w.gid].(token := Some(t), lease := Some(now + LEASE_SECONDS))],
                   workers := s.workers[t := w.(acquired := Some(now), pc := if lost then Ended else ReadingLedger)])
  }

  ghost predicate StepPut(s: State, t: Token, lost: bool, s': State) {
    && t in s.workers && s.workers[t].pc.Putting?
    && var w := s.workers[t];
       && w.plan.Some? && w.pc.k < |w.plan.value.uploads|
       && var u := w.plan.value.uploads[w.pc.k];
          && u.key !in s.store
          && s' == s.(store := s.store[u.key := Object(u.blob, s.clock)],
                      workers := s.workers[t := w.(pc := if lost then Failing else NextPut(w, w.pc.k))])
  }

  ghost predicate StepCommit(s: State, t: Token, lost: bool, s': State) {
    && t in s.workers && s.workers[t].pc == Committing
    && var w := s.workers[t];
       && CanCommit(s, w)
       && var m := Published(w, s.metas[w.gid]);
          s' == s.(metas := s.metas[w.gid := m],
                   ledgers := CloseLedger(s, w, w.ledger.Some?, m.status),
                   workers := s.workers[t := w.(pc := if lost then Failing else Ended)],
                   exits := s.exits + [Exit(w.gid, w.bid, t, m.status, w.ledger.Some?)])
  }

  ghost predicate StepFail(s: State, t: Token, s': State) {
    && t in s.workers && s.workers[t].pc == Failing
    && var w := s.workers[t];
       && CanFail(s, t, w)
       && var close := LedgerMatches(w.ledger, w);
          s' == s.(metas := s.metas[w.gid := s.metas[w.gid].(status := Failed, token := None, lease := None)],
                   ledgers := CloseLedger(s, w, close, Failed),
                   workers := s.workers[t := w.(pc := Ended)],
                   exits := s.exits + [Exit(w.gid, w.bid, t, Failed, close)])
  }

  /** One listed object of a collector page: its group row is read once per page. */
  function Judge(s: State, p: Sweep): Sweep
    requires p.judged < |p.page|
  {
    var (key, modified) := p.page[p.judged];
    if p.now - modified < AGE_FLOOR_MS then p.(judged := p.judged + 1)
    else
      var cache := if key.gid in p.cache then p.cache else p.cache[key.gid := Lookup(s.metas, key.gid)];
      p.(judged := p.judged + 1, cache := cache,
         discard := if Unpinned(cache[key.gid], key.bid) then p.discard + {key} else p.discard)
  }

  // ---- one predicate per action: its condition and its whole effect ----

  predicate StepNewGroup(s: State, gid: Gid, inputs: Inputs, s': State) {
    gid !in s.metas && s' == s.(metas := s.metas[gid := Meta(Draft, None, 1, None, None, inputs, None)])
  }

  /** A claim starts a build under a name never used before; it need not clear the token. */
  predicate StepClaim(s: State, gid: Gid, bid: Bid, clearToken: bool, row: Option<Ledger>, s': State) {
    && gid in s.metas && s.metas[gid].status != Deleted && (gid, bid) !in s.claimed
    && (row.Some? ==> (gid, bid) !in s.ledgers && row.value.status == Queued)
    && var m := s.metas[gid].(status := Building, build := Some(bid));
       s' == s.(metas := s.metas[gid := if clearToken then m.(token := None, lease := None) else m],
                ledgers := if row.Some? then s.ledgers[(gid, bid) := row.value] else s.ledgers,
                claimed := s.claimed + {(gid, bid)})
  }

  ghost predicate StepEditMeta(s: State, gid: Gid, m: Meta, s': State) {
    gid in s.metas && EditAllowed(s.metas[gid], m) && s' == s.(metas := s.metas[gid := m])
  }

  ghost predicate StepEditLedger(s: State, gid: Gid, bid: Bid, l: Ledger, s': State) {
    && (gid, bid) in s.ledgers && LedgerEditAllowed(s.ledgers[(gid, bid)], l)
    && s' == s.(ledgers := s.ledgers[(gid, bid) := l])
  }

  /** Every step of one worker that changes nothing but that worker. */
  predicate StepWorker(s: State, t: Token, w': Worker, s': State) {
    t in s.workers && s' == s.(workers := s.workers[t := w'])
  }

  predicate StepSpawn(s: State, t: Token, w: Worker, s': State) {
    t !in s.workers && s' == s.(workers := s.workers[t := w])
  }

  /** A page of the listing; the collector's clock was read before it. */
  predicate StepList(s: State, id: SweepId, now: nat, page: seq<(Key, nat)>, s': State) {
    && id !in s.sweeps && now <= s.clock
    && (forall i :: 0 <= i < |page| ==> page[i].0 in s.store && s.store[page[i].0].modified == page[i].1)
    && s' == s.(sweeps := s.sweeps[id := Sweep(now, page, 0, map[], {}, Judging)])
  }

  predicate StepJudge(s: State, id: SweepId, s': State) {
    && id in s.sweeps && s.sweeps[id].pc == Judging
    && var p := s.sweeps[id];
       s' == s.(sweeps := s.sweeps[id := if p.judged < |p.page| then Judge(s, p) else p.(pc := Deleting)])
  }

  /** A batch delete may be partial and may be retried. */
  predicate StepDelete(s: State, id: SweepId, keys: set<Key>, s': State) {
    && id in s.sweeps && s.sweeps[id].pc == Deleting && keys <= s.sweeps[id].discard
    && s' == s.(store := s.store - keys)
  }

  predicate StepSweepEnd(s: State, id: SweepId, s': State) {
    id in s.sweeps && s' == s.(sweeps := s.sweeps - {id})
  }

  /** One atomic step of the system. */
  ghost predicate Step(s: State, a: Action, s': State) {
    Writes(s, a, s') && (a.Work? ==> Move(s, a.token, s.workers[a.token], a.to))
  }

  /** The conditions and the effect of a step on the shared tables and stores. */
  ghost predicate Writes(s: State, a: Action, s': State) {
    match a
    case Tick(ms) => s' == s.(clock := s.clock + ms)
    case NewGroup(gid, inputs) => StepNewGroup(s, gid, inputs, s')
    case Claim(gid, bid, clearToken, row) => StepClaim(s, gid, bid, clearToken, row, s')
    case EditMeta(gid, m) => StepEditMeta(s, gid, m, s')
    case EditLedger(gid, bid, l) => StepEditLedger(s, gid, bid, l, s')
    case EditRegistry(r) => s' == s.(registry := r)
    case EditGrants(g) => s' == s.(grants := g)
    case Spawn(t, gid, bid, revision, sub) => StepSpawn(s, t, NewWorker(gid, bid, revision, sub, s.clock), s')
    case Work(t, w') => StepWorker(s, t, w', s')
    case Fault(t) => t in s.workers && StepWorker(s, t, Faulted(s.workers[t]), s')
    case Crash(t) => t in s.workers && StepWorker(s, t, s.workers[t].(pc := Ended), s')
    case Acquire(t, lost) => StepAcquire(s, t, lost, s')
    case Put(t, lost) => StepPut(s, t, lost, s')
    case Commit(t, lost) => StepCommit(s, t, lost, s')
    case Fail(t) => StepFail(s, t, s')
    case SweepList(id, now, page) => StepList(s, id, now, page, s')
    case SweepJudge(id) => StepJudge(s, id, s')
    case SweepDelete(id, keys) => StepDelete(s, id, keys, s')
    case SweepEnd(id) => StepSweepEnd(s, id, s')
  }

  ghost predicate StepAt(ss: seq<State>, acts: seq<Action>, i: nat)
    requires |ss| == |acts| + 1 && i < |acts|
  {
    Step(ss[i], acts[i], ss[i + 1])
  }

  /** A run from the empty system: states and the actions between them. */
  ghost predicate IsRun(ss: seq<State>, acts: seq<Action>) {
    && |ss| == |acts| + 1 && Init(ss[0])
    && forall i :: 0 <= i < |acts| ==> StepAt(ss, acts, i)
  }
}
