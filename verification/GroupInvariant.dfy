/** What every step of the group protocol keeps. */
module GroupInvariant {
  import opened Common
  import opened GroupState

  /** A claimed build that is neither reserved nor active, or whose group is deleted. */
  ghost predicate Dead(s: State, g: Gid, b: Bid) {
    (g, b) in s.claimed && g in s.metas && Unpinned(Some(s.metas[g]), b)
  }

  /** This worker's token is the one the row carries for the build it was invoked for. */
  ghost predicate Holds(s: State, t: Token, w: Worker) {
    && w.gid in s.metas && s.metas[w.gid].status == Building
    && s.metas[w.gid].build == Some(w.bid) && s.metas[w.gid].token == Some(t)
  }

  /** A worker that acquired its claim and has since lost it. */
  ghost predicate Fenced(s: State, t: Token) {
    t in s.workers && s.workers[t].acquired.Some? && !Holds(s, t, s.workers[t])
  }

  ghost predicate Stored(s: State, u: Upload) {
    u.key in s.store && s.store[u.key].blob == u.blob
  }

  // ---- the invariant, part by part ----

  ghost predicate ClaimsOk(s: State) {
    && (forall gb :: gb in s.claimed ==> gb.0 in s.metas)
    && (forall gb :: gb in s.ledgers ==> gb in s.claimed)
    && (forall g :: g in s.metas ==> MetaOk(s, g, s.metas[g]))
    && (forall k :: k in s.store ==> (k.gid, k.bid) in s.claimed)
  }

  ghost predicate MetaOk(s: State, g: Gid, m: Meta) {
    && (m.build.Some? ==> (g, m.build.value) in s.claimed)
    && (m.active.Some? ==> (g, m.active.value.version) in s.claimed)
    && (m.status == Building ==> m.build.Some?)
  }

  function Stage(pc: Pc): nat {
    match pc
    case Starting => 0
    case Leasing => 1
    case Acquiring(_) => 2
    case ReadingLedger => 3
    case CheckingClaim(after) => CheckStage(after)
    case CheckingAccess(after) => CheckStage(after)
    case CheckingRows(_, after) => CheckStage(after)
    case Snapshotted => 5
    case ReadingRows(_) => 6
    case GuardingAccount => 7
    case GuardingGrant => 7
    case GuardingSources(_) => 7
    case Loading => 9
    case Composing => 11
    case Putting(_) => 13
    case Verifying(_) => 13
    case Committing => 15
    case Failing => 0
    case Ended => 0
  }

  function CheckStage(after: After): nat {
    match after
    case ToSnapshot => 4
    case ToLoad => 8
    case ToCompose => 10
    case ToUpload => 12
    case ToCommit => 14
  }

  ghost predicate SnapOk(t: Token, w: Worker) {
    w.snap.Some? ==>
      && w.snap.value.status == Building && w.snap.value.build == Some(w.bid)
      && w.snap.value.revision == w.revision && w.snap.value.token == Some(t)
  }

  ghost predicate LedgerVersionsOk(w: Worker) {
    w.ledger.Some? ==>
      && w.ledger.value.sourceVersions == RowVersions(w.rows)
      && w.ledger.value.sourceDescriptions == RowDescriptions(w.rows)
  }

  /** What a worker knows at each stage, whatever the tables say now. */
  ghost predicate WorkerData(t: Token, w: Worker) {
    var g := Stage(w.pc);
    && SnapOk(t, w)
    && (w.pc != Failing && w.pc != Ended ==> (w.acquired.Some? <==> g >= 3))
    && (w.pc == Failing ==> w.acquired.Some?)
    && (w.acquired.Some? ==> w.started / 1000 <= w.acquired.value)
    && (w.pc.Acquiring? ==> w.started / 1000 <= w.pc.now)
    && (g >= 4 ==> w.ledger.Some? ==> LedgerMatches(w.ledger, w))
    && (g >= 5 ==> w.snap.Some?)
    && (w.pc.CheckingRows? ==> w.snap.Some?)
    && (0 < g <= 5 ==> w.rows == map[])
    && (w.pc == Starting ==> w.rows == map[])
    && (g >= 6 ==> ValidMembers(w.snap.value.inputs))
    && (w.pc.ReadingRows? ==> w.rows.Keys + w.pc.todo == MemberIds(w.snap.value.inputs))
    && (g >= 7 ==> w.rows.Keys == MemberIds(w.snap.value.inputs) && LedgerVersionsOk(w))
    && (g >= 10 ==> AllPinned(w.rows))
    && (g >= 12 ==> w.plan.Some? && PlanOk(w, w.plan.value))
    && (g == 13 ==> Cursor(w) < |w.plan.value.uploads|)
  }

  /** How many uploads are known to be in place. */
  function Cursor(w: Worker): nat {
    if w.pc.Putting? || w.pc.Verifying? then w.pc.k
    else if Stage(w.pc) >= 14 && w.plan.Some? then |w.plan.value.uploads|
    else 0
  }

  ghost predicate WorkerStored(s: State, w: Worker) {
    Stage(w.pc) >= 13 && w.plan.Some? && !Dead(s, w.gid, w.bid) ==>
      forall i :: 0 <= i < Cursor(w) && i < |w.plan.value.uploads| ==> Stored(s, w.plan.value.uploads[i])
  }

  ghost predicate WorkerTables(s: State, w: Worker) {
    && (w.acquired.Some? ==> (w.gid, w.bid) in s.claimed && w.acquired.value * 1000 <= s.clock)
    && (w.pc.Acquiring? ==> w.pc.now * 1000 <= s.clock)
    && w.started <= s.clock
    && (Stage(w.pc) >= 4 && w.ledger.None? ==> (w.gid, w.bid) !in s.ledgers)
  }

  /** While a build is reserved, its row carries a lease at least as late as every
      acquisition of that build. */
  ghost predicate LeaseOk(s: State, w: Worker) {
    w.acquired.Some? && w.gid in s.metas && s.metas[w.gid].status == Building
    && s.metas[w.gid].build == Some(w.bid) ==>
      && s.metas[w.gid].token.Some? && s.metas[w.gid].lease.Some?
      && w.acquired.value + LEASE_SECONDS <= s.metas[w.gid].lease.value
  }

  ghost predicate WorkersOk(s: State) {
    forall t :: t in s.workers ==> WorkerOk(s, t, s.workers[t])
  }

  ghost predicate WorkerOk(s: State, t: Token, w: Worker) {
    WorkerData(t, w) && WorkerStored(s, w) && WorkerTables(s, w) && LeaseOk(s, w)
  }

  /** Two acquisitions of one build are more than a lease apart. */
  ghost predicate GapOk(s: State) {
    forall t, u :: t in s.workers && u in s.workers && t != u ==> Apart(s.workers[t], s.workers[u])
  }

  ghost predicate Apart(v: Worker, w: Worker) {
    v.acquired.Some? && w.acquired.Some? && v.gid == w.gid && v.bid == w.bid ==>
      || v.acquired.value + LEASE_SECONDS < w.acquired.value
      || w.acquired.value + LEASE_SECONDS < v.acquired.value
  }

  /** The version a group points at has its manifest, its graph and every file the manifest
      lists, each with its recorded digest, and the pointer row repeats the manifest. */
  ghost predicate Intact(s: State, g: Gid, a: Active) {
    && ManifestKey(g, a.version) in s.store
    && s.store[ManifestKey(g, a.version)].blob.ManifestBlob?
    && var m := s.store[ManifestKey(g, a.version)].blob.manifest;
       && m.gid == g && m.bid == a.version && m.revision == a.revision
       && m.sourceVersions == a.sourceVersions && m.sourceDescriptions == a.sourceDescriptions
       && m.graphKey == GraphKey(g, a.version) && HasDigest(s, m.graphKey, m.graphSha)
       && (forall f :: f in m.files ==>
             m.files[f].key == FileKey(g, a.version, f.0, f.1) && HasDigest(s, m.files[f].key, m.files[f].sha))
  }

  ghost predicate HasDigest(s: State, k: Key, sha: Digest) {
    k in s.store && Sha256(s.store[k].blob) == sha
  }

  ghost predicate ActiveOk(s: State) {
    forall g :: g in s.metas && s.metas[g].status != Deleted && s.metas[g].active.Some? ==>
      Intact(s, g, s.metas[g].active.value)
  }

  ghost predicate SweepOk(s: State, p: Sweep) {
    && p.judged <= |p.page|
    && (forall i :: 0 <= i < |p.page| ==> (p.page[i].0.gid, p.page[i].0.bid) in s.claimed)
    && (forall i :: 0 <= i < |p.page| ==> CacheOk(s, p, p.page[i].0))
    && (forall k :: k in p.discard ==> Dead(s, k.gid, k.bid))
  }

  ghost predicate CacheOk(s: State, p: Sweep, k: Key) {
    k.gid in p.cache && Unpinned(p.cache[k.gid], k.bid) ==> Dead(s, k.gid, k.bid)
  }

  ghost predicate SweepsOk(s: State) {
    forall id :: id in s.sweeps ==> SweepOk(s, s.sweeps[id])
  }

  /** A recorded exit is final: the build is claimed, no longer BUILDING, and a closed
      ledger row still shows the status it was closed with. */
  ghost predicate ExitOk(s: State, e: Exit) {
    && (e.gid, e.bid) in s.claimed && e.gid in s.metas
    && !(s.metas[e.gid].status == Building && s.metas[e.gid].build == Some(e.bid))
    && e.status in {Ready, Partial, Failed}
    && (e.status != Failed && (e.gid, e.bid) in s.ledgers ==> e.ledgerClosed)
    && (e.ledgerClosed ==> (e.gid, e.bid) in s.ledgers && s.ledgers[(e.gid, e.bid)].status == e.status)
  }

  ghost predicate ExitsOk(s: State) {
    && (forall i :: 0 <= i < |s.exits| ==> ExitOk(s, s.exits[i]))
    && (forall i, j :: 0 <= i < j < |s.exits| ==> s.exits[i].gid != s.exits[j].gid || s.exits[i].bid != s.exits[j].bid)
  }

  ghost predicate Inv(s: State) {
    ClaimsOk(s) && WorkersOk(s) && GapOk(s) && ActiveOk(s) && SweepsOk(s) && ExitsOk(s)
  }

  // ---- what never goes back ----

  /** How one step may change a group row. */
  ghost predicate MetaEvolves(s: State, g: Gid, m: Meta, m': Meta) {
    || m' == m
    || EditAllowed(m, m')
    || (m.status != Deleted && m'.active == m.active && m'.build.Some? && (g, m'.build.value) !in s.claimed)
    || (m.status == Building && m' == m.(token := m'.token, lease := m'.lease) && Renewed(m, m'))
    || (m.status == Building && m'.status in {Ready, Partial} && m'.build == m.build && m'.active.Some?
        && m.build == Some(m'.active.value.version))
  }

  /** An acquisition: a token and a lease, no earlier than the lease it takes over. */
  predicate Renewed(m: Meta, m': Meta) {
    && m'.token.Some? && m'.lease.Some?
    && (m.token.Some? ==> m.lease.Some? && m.lease.value < m'.lease.value)
  }

  ghost predicate MetasEvolve(s: State, s': State) {
    && s.claimed <= s'.claimed
    && forall g :: g in s.metas ==> g in s'.metas && MetaEvolves(s, g, s.metas[g], s'.metas[g])
  }

  ghost predicate DeadStays(s: State, s': State) {
    forall g, b :: Dead(s, g, b) ==> Dead(s', g, b)
  }

  /** What a build that is still alive has stored is neither removed nor changed. */
  ghost predicate StoreStays(s: State, s': State) {
    forall k :: k in s.store && !Dead(s', k.gid, k.bid) ==> k in s'.store && s'.store[k].blob == s.store[k].blob
  }

  /** A lost claim stays lost, and every new exit is by a worker that still held its claim. */
  ghost predicate FencedStays(s: State, s': State) {
    && s.workers.Keys <= s'.workers.Keys
    && (forall t :: Fenced(s, t) ==> Fenced(s', t))
    && s.exits <= s'.exits
    && (forall i :: |s.exits| <= i < |s'.exits| ==> !Fenced(s, s'.exits[i].token))
  }

  ghost predicate TablesGrow(s: State, s': State) {
    && s.clock <= s'.clock && s.claimed <= s'.claimed && s.metas.Keys <= s'.metas.Keys
    && (forall gb :: gb in s.claimed ==> (gb in s.ledgers <==> gb in s'.ledgers))
  }

  /** Facts about a state that no later state undoes. */
  ghost predicate Progress(s: State, s': State) {
    TablesGrow(s, s') && DeadStays(s, s') && StoreStays(s, s') && FencedStays(s, s')
  }

  lemma ProgressTransitive(a: State, b: State, c: State)
    requires Progress(a, b) && Progress(b, c)
    ensures Progress(a, c)
  {
    forall k | k in a.store && !Dead(c, k.gid, k.bid)
      ensures k in c.store && c.store[k].blob == a.store[k].blob
    {
      assert !Dead(b, k.gid, k.bid);
    }
    forall i | |a.exits| <= i < |c.exits| ensures !Fenced(a, c.exits[i].token) {
      if i < |b.exits| { assert c.exits[i] == b.exits[i]; }
    }
  }
}
