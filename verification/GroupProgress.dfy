/** What the group build protocol can do: an undisturbed worker publishes, an expired claim can be
    taken over, and what no row pins is reclaimed. */
module GroupProgress {
  import opened Common
  import opened GroupState
  import opened GroupInvariant
  import opened GroupTheorems
  import Runs

  // ---- continuations ----

  /** Some sequence of steps leads from one state to the other. */
  ghost predicate Leads(s: State, s': State) {
    Runs.Leads(Step, s, s')
  }

  lemma OneStep(s: State, a: Action, s': State)
    requires Step(s, a, s')
    ensures Leads(s, s')
  {
    Runs.OneStep(Step, s, a, s');
  }

  lemma ThenLeads(s: State, m: State, s': State)
    requires Leads(s, m) && Leads(m, s')
    ensures Leads(s, s')
  {
    Runs.ThenLeads(Step, s, m, s');
  }

  /** Whatever a run leads to is reached by a run. */
  lemma RunLeads(ss: seq<State>, acts: seq<Action>, s': State)
    requires IsRun(ss, acts) && Leads(ss[|acts|], s')
    ensures exists tt: seq<State>, bb: seq<Action> :: IsRun(tt, bb) && |bb| >= |acts| && tt[..|ss|] == ss && tt[|bb|] == s'
  {
    assert Runs.LeadsBy(Step, ss, acts, ss[0], ss[|acts|]) by {
      forall i | 0 <= i < |acts| ensures Runs.StepAt(Step, ss, acts, i) { assert StepAt(ss, acts, i); }
    }
    var tt: seq<State>, bb: seq<Action> :| Runs.LeadsBy(Step, tt, bb, ss[|acts|], s');
    var uu, cc := Runs.Glued(Step, ss, acts, ss[0], ss[|acts|], tt, bb, s');
    assert uu[..|ss|] == ss;
    forall i | 0 <= i < |cc| ensures StepAt(uu, cc, i) { assert Runs.StepAt(Step, uu, cc, i); }
    assert IsRun(uu, cc);
  }

  // ---- one worker on its own ----

  /** The state in which worker `t` stands at `w`. */
  function At(s: State, t: Token, w: Worker): State {
    s.(workers := s.workers[t := w])
  }

  lemma Works(s: State, t: Token, w: Worker, w': Worker)
    requires Move(At(s, t, w), t, w, w')
    ensures Leads(At(s, t, w), At(s, t, w'))
  {
    assert At(s, t, w).workers[t := w'] == s.workers[t := w'];
    assert StepWorker(At(s, t, w), t, w', At(s, t, w'));
    OneStep(At(s, t, w), Work(t, w'), At(s, t, w'));
  }

  lemma WorksOn(s: State, s': State, t: Token, w: Worker, w': Worker)
    requires Leads(s', At(s, t, w)) && Move(At(s, t, w), t, w, w')
    ensures Leads(s', At(s, t, w'))
  {
    Works(s, t, w, w');
    ThenLeads(s', At(s, t, w), At(s, t, w'));
  }

  /** Worker `t` holds the claim on the build it was invoked for. */
  predicate Claims(s: State, t: Token, w: Worker) {
    && w.gid in s.metas && s.metas[w.gid].status == Building && s.metas[w.gid].build == Some(w.bid)
    && s.metas[w.gid].revision == w.revision && s.metas[w.gid].token == Some(t)
  }

  predicate RowsCurrent(s: State, rows: map<Sid, SourceRow>) {
    forall sid :: sid in rows ==> sid in s.registry && s.registry[sid].fields == rows[sid].fields
  }

  lemma {:induction false} RowsAreChecked(s: State, t: Token, w: Worker, todo: set<Sid>, after: After)
    requires w.pc == CheckingRows(todo, after) && todo <= w.rows.Keys && RowsCurrent(s, w.rows)
    ensures Leads(At(s, t, w), At(s, t, w.(pc := Resume(after))))
    decreases todo
  {
    if todo == {} {
      Works(s, t, w, w.(pc := Resume(after)));
    } else {
      var sid :| sid in todo;
      var next := w.(pc := CheckingRows(todo - {sid}, after));
      assert CheckRow(At(s, t, w), w, todo, after, sid, next);
      Works(s, t, w, next);
      RowsAreChecked(s, t, next, todo - {sid}, after);
      ThenLeads(At(s, t, w), At(s, t, next), At(s, t, w.(pc := Resume(after))));
    }
  }

  /** A checkpoint at which nothing has changed is passed. */
  lemma CheckpointPassed(s: State, t: Token, w: Worker, after: After)
    requires w.pc == CheckingClaim(after) && Claims(s, t, w) && RowsCurrent(s, w.rows)
    requires w.snap.Some? && w.snap.value.inputs == s.metas[w.gid].inputs && w.snap.value.token == Some(t)
    ensures Leads(At(s, t, w), At(s, t, w.(pc := Resume(after))))
  {
    var access, rows := w.(pc := CheckingAccess(after)), w.(pc := CheckingRows(w.rows.Keys, after));
    Works(s, t, w, access);
    WorksOn(s, At(s, t, w), t, access, rows);
    RowsAreChecked(s, t, rows, w.rows.Keys, after);
    ThenLeads(At(s, t, w), At(s, t, rows), At(s, t, w.(pc := Resume(after))));
  }

  lemma FirstCheckpoint(s: State, t: Token, w: Worker)
    requires w.pc == CheckingClaim(ToSnapshot) && Claims(s, t, w) && w.snap.None?
    ensures Leads(At(s, t, w), At(s, t, w.(snap := Some(s.metas[w.gid]), pc := Snapshotted)))
  {
    var access := w.(pc := CheckingAccess(ToSnapshot));
    Works(s, t, w, access);
    WorksOn(s, At(s, t, w), t, access, w.(snap := Some(s.metas[w.gid]), pc := Snapshotted));
  }

  // ---- capturing ----

  function Captured(s: State, ids: set<Sid>): map<Sid, SourceRow> {
    map sid | sid in ids && sid in s.registry :: s.registry[sid]
  }

  /** The ledger row of the build records what a worker would capture now. */
  predicate LedgerCurrent(s: State, w: Worker, l: Ledger) {
    && l.gid == w.gid && l.bid == w.bid && l.revision == w.revision && l.sub == w.sub && l.status in {Queued, Building}
    && w.gid in s.metas && l.sources == s.metas[w.gid].inputs.sources && l.brief == s.metas[w.gid].inputs.brief
    && l.sourceVersions == RowVersions(Captured(s, MemberIds(s.metas[w.gid].inputs)))
    && l.sourceDescriptions == RowDescriptions(Captured(s, MemberIds(s.metas[w.gid].inputs)))
  }

  lemma {:induction false} RowsAreRead(s: State, t: Token, w: Worker, todo: set<Sid>, ids: set<Sid>)
    requires w.pc == ReadingRows(todo) && todo <= ids && ids <= s.registry.Keys && w.rows == Captured(s, ids - todo)
    requires w.ledger.Some? ==> w.ledger.value.sourceVersions == RowVersions(Captured(s, ids))
    requires w.ledger.Some? ==> w.ledger.value.sourceDescriptions == RowDescriptions(Captured(s, ids))
    ensures Leads(At(s, t, w), At(s, t, w.(rows := Captured(s, ids), pc := GuardingAccount)))
    decreases todo
  {
    var done := w.(rows := Captured(s, ids), pc := GuardingAccount);
    if todo == {} {
      assert ids - todo == ids;
      Works(s, t, w, done);
    } else {
      var sid :| sid in todo;
      var next := w.(rows := w.rows[sid := s.registry[sid]], pc := ReadingRows(todo - {sid}));
      assert ReadRow(At(s, t, w), w, todo, sid, next);
      Works(s, t, w, next);
      assert next.rows == Captured(s, ids - (todo - {sid}));
      RowsAreRead(s, t, next, todo - {sid}, ids);
      ThenLeads(At(s, t, w), At(s, t, next), At(s, t, done));
    }
  }

  function GrantsOf(s: State, sub: Sub, ids: set<Sid>): map<Sid, Grant> {
    map sid | sid in ids && SourceGrant(sub, sid) in s.grants :: s.grants[SourceGrant(sub, sid)]
  }

  lemma {:induction false} GrantsAreRead(s: State, t: Token, w: Worker, todo: set<Sid>, ids: set<Sid>)
    requires w.pc == GuardingSources(todo) && todo <= ids && w.sourceGrants == GrantsOf(s, w.sub, ids - todo)
    requires forall sid :: sid in ids ==> SourceGrant(w.sub, sid) in s.grants
    ensures Leads(At(s, t, w), At(s, t, w.(sourceGrants := GrantsOf(s, w.sub, ids), pc := CheckingClaim(ToLoad))))
    decreases todo
  {
    var done := w.(sourceGrants := GrantsOf(s, w.sub, ids), pc := CheckingClaim(ToLoad));
    if todo == {} {
      assert ids - todo == ids;
      Works(s, t, w, done);
    } else {
      var sid :| sid in todo;
      var next := w.(sourceGrants := w.sourceGrants[sid := s.grants[SourceGrant(w.sub, sid)]], pc := GuardingSources(todo - {sid}));
      assert ReadSourceGrant(At(s, t, w), w, todo, sid, next);
      Works(s, t, w, next);
      assert next.sourceGrants == GrantsOf(s, w.sub, ids - (todo - {sid}));
      GrantsAreRead(s, t, next, todo - {sid}, ids);
      ThenLeads(At(s, t, w), At(s, t, next), At(s, t, done));
    }
  }

  // ---- from the claim to the uploads ----

  /** What a worker needs to find for its build to be published: a ledger row, if any, that records what
      it will capture, one to eight distinct members with an active version each, and the grants. */
  predicate InputsReady(s: State, w: Worker) {
    && w.gid in s.metas && ((w.gid, w.bid) in s.ledgers ==> LedgerCurrent(s, w, s.ledgers[(w.gid, w.bid)]))
    && var inputs := s.metas[w.gid].inputs;
       && 1 <= |inputs.sources| <= 8
       && (forall i, j :: 0 <= i < j < |inputs.sources| ==> inputs.sources[i].sid != inputs.sources[j].sid)
       && (forall sid :: sid in MemberIds(inputs) ==> sid in s.registry && s.registry[sid].fields.activeVersion.Some?)
       && AccountDeleted(w.sub) !in s.grants && GroupGrant(w.sub, w.gid) in s.grants
       && forall sid :: sid in MemberIds(inputs) && sid in s.registry && !s.registry[sid].fields.public ==>
            SourceGrant(w.sub, sid) in s.grants
  }

  predicate Buildable(s: State, t: Token, w: Worker) {
    Claims(s, t, w) && InputsReady(s, w)
  }

  function Private(rows: map<Sid, SourceRow>): set<Sid> {
    set sid | sid in rows && NonPublic(rows, sid)
  }

  /** The worker with everything it captures. */
  function Holding(s: State, w: Worker): Worker
    requires w.gid in s.metas && GroupGrant(w.sub, w.gid) in s.grants
  {
    var rows := Captured(s, MemberIds(s.metas[w.gid].inputs));
    w.(ledger := Lookup(s.ledgers, (w.gid, w.bid)), snap := Some(s.metas[w.gid]), rows := rows,
       grant := Some(s.grants[GroupGrant(w.sub, w.gid)]), sourceGrants := GrantsOf(s, w.sub, Private(rows)))
  }

  /** A worker that has captured nothing. */
  predicate Fresh(w: Worker) {
    w.ledger.None? && w.snap.None? && w.rows == map[] && w.grant.None? && w.sourceGrants == map[] && w.plan.None?
  }

  lemma ReadsSnapshot(s: State, t: Token, w: Worker) returns (w': Worker)
    requires Buildable(s, t, w) && Fresh(w) && w.pc == ReadingLedger
    ensures w' == w.(ledger := Lookup(s.ledgers, (w.gid, w.bid)), snap := Some(s.metas[w.gid]),
                     pc := ReadingRows(MemberIds(s.metas[w.gid].inputs)))
    ensures Leads(At(s, t, w), At(s, t, w'))
  {
    var l, m := Lookup(s.ledgers, (w.gid, w.bid)), s.metas[w.gid];
    var read := w.(ledger := l, pc := CheckingClaim(ToSnapshot));
    var snapped := read.(snap := Some(m), pc := Snapshotted);
    w' := snapped.(pc := ReadingRows(MemberIds(m.inputs)));
    Works(s, t, w, read);
    FirstCheckpoint(s, t, read);
    ThenLeads(At(s, t, w), At(s, t, read), At(s, t, snapped));
    assert ReviewSnapshot(snapped, w');
    WorksOn(s, At(s, t, w), t, snapped, w');
  }

  lemma ReadsRows(s: State, t: Token, w: Worker) returns (w': Worker)
    requires Buildable(s, t, w) && w.pc == ReadingRows(MemberIds(s.metas[w.gid].inputs)) && w.rows == map[]
    requires w.ledger == Lookup(s.ledgers, (w.gid, w.bid))
    ensures w' == w.(rows := Captured(s, MemberIds(s.metas[w.gid].inputs)), pc := GuardingAccount)
    ensures Leads(At(s, t, w), At(s, t, w')) && w'.rows.Keys == MemberIds(s.metas[w.gid].inputs) && AllPinned(w'.rows)
  {
    var ids := MemberIds(s.metas[w.gid].inputs);
    w' := w.(rows := Captured(s, ids), pc := GuardingAccount);
    assert ids - ids == {};
    assert Captured(s, {}) == map[];
    RowsAreRead(s, t, w, ids, ids);
  }

  lemma ReadsGrants(s: State, t: Token, w: Worker) returns (w': Worker)
    requires w.pc == GuardingAccount && w.sourceGrants == map[]
    requires AccountDeleted(w.sub) !in s.grants && GroupGrant(w.sub, w.gid) in s.grants
    requires forall sid :: sid in Private(w.rows) ==> SourceGrant(w.sub, sid) in s.grants
    ensures w' == w.(grant := Some(s.grants[GroupGrant(w.sub, w.gid)]),
                     sourceGrants := GrantsOf(s, w.sub, Private(w.rows)), pc := CheckingClaim(ToLoad))
    ensures Leads(At(s, t, w), At(s, t, w'))
  {
    var ids := Private(w.rows);
    var allowed := w.(pc := GuardingGrant);
    var granted := allowed.(grant := Some(s.grants[GroupGrant(w.sub, w.gid)]), pc := GuardingSources(ids));
    w' := granted.(sourceGrants := GrantsOf(s, w.sub, ids), pc := CheckingClaim(ToLoad));
    Works(s, t, w, allowed);
    WorksOn(s, At(s, t, w), t, allowed, granted);
    assert ids - ids == {};
    assert GrantsOf(s, w.sub, {}) == map[];
    GrantsAreRead(s, t, granted, ids, ids);
    ThenLeads(At(s, t, w), At(s, t, granted), At(s, t, w'));
  }

  lemma CheckpointOn(s: State, s': State, t: Token, w: Worker, after: After)
    requires Leads(s', At(s, t, w)) && w.pc == CheckingClaim(after) && Claims(s, t, w) && RowsCurrent(s, w.rows)
    requires w.snap.Some? && w.snap.value.inputs == s.metas[w.gid].inputs && w.snap.value.token == Some(t)
    ensures Leads(s', At(s, t, w.(pc := Resume(after))))
  {
    CheckpointPassed(s, t, w, after);
    ThenLeads(s', At(s, t, w), At(s, t, w.(pc := Resume(after))));
  }

  lemma Loads(s: State, t: Token, w: Worker)
    requires w.pc == CheckingClaim(ToLoad) && Claims(s, t, w) && RowsCurrent(s, w.rows) && AllPinned(w.rows)
    requires w.snap.Some? && w.snap.value.inputs == s.metas[w.gid].inputs && w.snap.value.token == Some(t)
    ensures Leads(At(s, t, w), At(s, t, w.(pc := Composing)))
  {
    var loaded := w.(pc := CheckingClaim(ToCompose));
    CheckpointPassed(s, t, w, ToLoad);
    WorksOn(s, At(s, t, w), t, w.(pc := Loading), loaded);
    CheckpointOn(s, At(s, t, w), t, loaded, ToCompose);
  }

  /** Loading and composing, with three checkpoints. */
  lemma Composes(s: State, t: Token, w: Worker, p: Plan)
    requires w.pc == CheckingClaim(ToLoad) && Claims(s, t, w) && RowsCurrent(s, w.rows) && AllPinned(w.rows) && PlanOk(w, p)
    requires w.snap.Some? && w.snap.value.inputs == s.metas[w.gid].inputs && w.snap.value.token == Some(t)
    ensures Leads(At(s, t, w), At(s, t, w.(plan := Some(p), pc := Putting(0))))
  {
    var composed := w.(plan := Some(p), pc := CheckingClaim(ToUpload));
    Loads(s, t, w);
    assert Compose(w.(pc := Composing), composed);
    WorksOn(s, At(s, t, w), t, w.(pc := Composing), composed);
    CheckpointOn(s, At(s, t, w), t, composed, ToUpload);
  }

  // ---- the uploads ----

  /** Nothing but these very bytes is stored under any key of the plan. */
  predicate NoConflict(store: map<Key, Object>, uploads: seq<Upload>) {
    && (forall i :: 0 <= i < |uploads| && uploads[i].key in store ==> store[uploads[i].key].blob == uploads[i].blob)
    && (forall i, j :: 0 <= i < |uploads| && 0 <= j < |uploads| && uploads[i].key == uploads[j].key ==>
          uploads[i].blob == uploads[j].blob)
  }

  function Put1(s: State, u: Upload): State {
    s.(store := s.store[u.key := Object(u.blob, s.clock)])
  }

  lemma FindsSame(s: State, t: Token, w: Worker, k: nat)
    requires w.plan.Some? && w.pc == Putting(k) && k < |w.plan.value.uploads| && Stored(s, w.plan.value.uploads[k])
    ensures Leads(At(s, t, w), At(s, t, w.(pc := NextPut(w, k))))
  {
    Works(s, t, w, w.(pc := Verifying(k)));
    WorksOn(s, At(s, t, w), t, w.(pc := Verifying(k)), w.(pc := NextPut(w, k)));
  }

  lemma PutsNew(s: State, t: Token, w: Worker, k: nat)
    requires w.plan.Some? && w.pc == Putting(k) && k < |w.plan.value.uploads| && w.plan.value.uploads[k].key !in s.store
    ensures Leads(At(s, t, w), At(Put1(s, w.plan.value.uploads[k]), t, w.(pc := NextPut(w, k))))
  {
    var s', next := Put1(s, w.plan.value.uploads[k]), w.(pc := NextPut(w, k));
    assert At(s, t, w).workers[t := next] == At(s', t, next).workers;
    assert StepPut(At(s, t, w), t, false, At(s', t, next));
    OneStep(At(s, t, w), Put(t, false), At(s', t, next));
  }

  lemma PutKeeps(s: State, uploads: seq<Upload>, k: nat)
    requires k < |uploads| && NoConflict(s.store, uploads)
    ensures NoConflict(Put1(s, uploads[k]).store, uploads) && Stored(Put1(s, uploads[k]), uploads[k])
    ensures forall i :: 0 <= i < |uploads| && Stored(s, uploads[i]) ==> Stored(Put1(s, uploads[k]), uploads[i])
  {
  }

  /** One upload: put, or found there already. */
  lemma Uploads(s: State, t: Token, w: Worker, k: nat) returns (s': State)
    requires w.plan.Some? && w.pc == Putting(k) && k < |w.plan.value.uploads| && NoConflict(s.store, w.plan.value.uploads)
    ensures s' == s.(store := s'.store) && NoConflict(s'.store, w.plan.value.uploads)
    ensures Leads(At(s, t, w), At(s', t, w.(pc := NextPut(w, k)))) && Stored(s', w.plan.value.uploads[k])
    ensures forall i :: 0 <= i < k && Stored(s, w.plan.value.uploads[i]) ==> Stored(s', w.plan.value.uploads[i])
  {
    if w.plan.value.uploads[k].key in s.store {
      s' := s;
      FindsSame(s, t, w, k);
    } else {
      s' := Put1(s, w.plan.value.uploads[k]);
      PutsNew(s, t, w, k);
      PutKeeps(s, w.plan.value.uploads, k);
    }
  }

  lemma {:induction false} UploadsAll(s: State, t: Token, w: Worker, k: nat) returns (s': State)
    requires w.plan.Some? && w.pc == Putting(k) && k < |w.plan.value.uploads| && NoConflict(s.store, w.plan.value.uploads)
    requires forall i :: 0 <= i < k ==> Stored(s, w.plan.value.uploads[i])
    ensures s' == s.(store := s'.store) && Leads(At(s, t, w), At(s', t, w.(pc := CheckingClaim(ToCommit))))
    ensures forall i :: 0 <= i < |w.plan.value.uploads| ==> Stored(s', w.plan.value.uploads[i])
    decreases |w.plan.value.uploads| - k
  {
    var s1 := Uploads(s, t, w, k);
    var next := w.(pc := NextPut(w, k));
    if k + 1 < |w.plan.value.uploads| {
      s' := UploadsAll(s1, t, next, k + 1);
      ThenLeads(At(s, t, w), At(s1, t, next), At(s', t, w.(pc := CheckingClaim(ToCommit))));
    } else {
      s' := s1;
    }
  }

  // ---- the commit ----

  /** The group row shows this plan's build as published: partial if the manifest is, ready otherwise. */
  predicate ShowsBuild(m: Meta, was: Meta, w: Worker, p: Plan) {
    && m.status == (if p.manifest.partial then Partial else Ready)
    && m.active == Some(Active(w.bid, w.revision, p.manifest.sourceVersions, p.manifest.sourceDescriptions))
    && m.token.None? && m.lease.None? && m.build == was.build && m.revision == was.revision && m.inputs == was.inputs
  }

  function CommittedState(s: State, t: Token, w: Worker): State
    requires w.plan.Some? && w.gid in s.metas && (w.ledger.Some? ==> (w.gid, w.bid) in s.ledgers)
  {
    var f := w.plan.value.manifest;
    var status := if f.partial then Partial else Ready;
    var m := s.metas[w.gid].(status := status, token := None, lease := None,
                             active := Some(Active(w.bid, w.revision, f.sourceVersions, f.sourceDescriptions)));
    s.(metas := s.metas[w.gid := m], workers := s.workers[t := w.(pc := Ended)],
       ledgers := if w.ledger.None? then s.ledgers
                  else s.ledgers[(w.gid, w.bid) := s.ledgers[(w.gid, w.bid)].(status := status)],
       exits := s.exits + [Exit(w.gid, w.bid, t, status, w.ledger.Some?)])
  }

  lemma CommitsTo(s: State, t: Token, w: Worker)
    requires w.pc == Committing && w.plan.Some? && CanCommit(s, w) && t in s.workers && s.workers[t] == w
    ensures Leads(s, CommittedState(s, t, w))
  {
    assert StepCommit(s, t, false, CommittedState(s, t, w));
    OneStep(s, Commit(t, false), CommittedState(s, t, w));
  }

  lemma Commits(s: State, t: Token, w: Worker) returns (s': State)
    requires w.pc == Committing && w.plan.Some? && CanCommit(s, w)
    ensures Leads(At(s, t, w), s') && w.gid in s'.metas && s'.store == s.store
    ensures ShowsBuild(s'.metas[w.gid], s.metas[w.gid], w, w.plan.value)
    ensures w.ledger.Some? ==> (w.gid, w.bid) in s'.ledgers && s'.ledgers[(w.gid, w.bid)].status == s'.metas[w.gid].status
  {
    assert CanCommit(At(s, t, w), w);
    CommitsTo(At(s, t, w), t, w);
    s' := CommittedState(At(s, t, w), t, w);
  }

  lemma HoldingCommits(s: State, t: Token, w: Worker, p: Plan)
    requires Buildable(s, t, w)
    ensures CanCommit(s, Holding(s, w).(plan := Some(p), pc := Committing))
  {
  }

  // ---- the claim ----

  /** A worker that can take the claim of its build: no worker holds it, or its lease is over. */
  predicate MayTake(s: State, w: Worker, now: nat) {
    && w.gid in s.metas && s.metas[w.gid].status == Building && s.metas[w.gid].build == Some(w.bid)
    && s.metas[w.gid].revision == w.revision
    && (s.metas[w.gid].token.None? || (s.metas[w.gid].lease.Some? && s.metas[w.gid].lease.value < now))
  }

  function Taken(s: State, t: Token, gid: Gid, now: nat): State
    requires gid in s.metas
  {
    s.(metas := s.metas[gid := s.metas[gid].(token := Some(t), lease := Some(now + 960))])
  }

  /** A claim is taken exactly by a worker that may take it: with its token, and leased for 960 seconds. */
  lemma TakesIffMayTake(s: State, t: Token, lost: bool, s': State)
    requires t in s.workers && s.workers[t].pc.Acquiring?
    ensures var w, now := s.workers[t], s.workers[t].pc.now;
      StepAcquire(s, t, lost, s') <==>
        MayTake(s, w, now)
        && s' == Taken(s, t, w.gid, now).(workers := s.workers[t := w.(acquired := Some(now), pc := if lost then Ended else ReadingLedger)])
  {
  }

  lemma TakesClaim(s: State, t: Token, w: Worker, now: nat)
    requires MayTake(s, w, now) && w.pc == Acquiring(now)
    ensures Leads(At(s, t, w), At(Taken(s, t, w.gid, now), t, w.(acquired := Some(now), pc := ReadingLedger)))
  {
    var taken := At(Taken(s, t, w.gid, now), t, w.(acquired := Some(now), pc := ReadingLedger));
    TakesIffMayTake(At(s, t, w), t, false, taken);
    assert At(s, t, w).workers[t := w.(acquired := Some(now), pc := ReadingLedger)] == taken.workers;
    OneStep(At(s, t, w), Acquire(t, false), taken);
  }

  // ---- what an undisturbed worker does ----

  lemma HolderReads(s: State, t: Token, w: Worker) returns (w': Worker)
    requires Buildable(s, t, w) && Fresh(w) && w.pc == ReadingLedger
    ensures w' == w.(ledger := Lookup(s.ledgers, (w.gid, w.bid)), snap := Some(s.metas[w.gid]),
                     rows := Captured(s, MemberIds(s.metas[w.gid].inputs)), pc := GuardingAccount)
    ensures Leads(At(s, t, w), At(s, t, w'))
  {
    var snapped := ReadsSnapshot(s, t, w);
    w' := ReadsRows(s, t, snapped);
    ThenLeads(At(s, t, w), At(s, t, snapped), At(s, t, w'));
  }

  lemma HolderGuards(s: State, t: Token, w: Worker) returns (w': Worker)
    requires Buildable(s, t, w) && Fresh(w) && w.pc == ReadingLedger
    ensures w' == Holding(s, w).(pc := CheckingClaim(ToLoad))
    ensures Leads(At(s, t, w), At(s, t, w'))
  {
    var read := HolderReads(s, t, w);
    w' := ReadsGrants(s, t, read);
    ThenLeads(At(s, t, w), At(s, t, read), At(s, t, w'));
  }

  /** What a holder of the claim has captured is current. */
  lemma HoldingIsCurrent(s: State, t: Token, w: Worker)
    requires Buildable(s, t, w)
    ensures Claims(s, t, Holding(s, w)) && RowsCurrent(s, Holding(s, w).rows) && AllPinned(Holding(s, w).rows)
    ensures Holding(s, w).snap == Some(s.metas[w.gid]) && s.metas[w.gid].token == Some(t)
  {
  }

  lemma HolderComposes(s: State, t: Token, w: Worker, p: Plan) returns (w': Worker)
    requires Buildable(s, t, w) && Fresh(w) && w.pc == ReadingLedger && PlanOk(Holding(s, w), p)
    ensures w' == Holding(s, w).(plan := Some(p), pc := Putting(0))
    ensures Leads(At(s, t, w), At(s, t, w'))
  {
    var granted := HolderGuards(s, t, w);
    HoldingIsCurrent(s, t, w);
    w' := granted.(plan := Some(p), pc := Putting(0));
    Composes(s, t, granted, p);
    ThenLeads(At(s, t, w), At(s, t, granted), At(s, t, w'));
  }

  lemma HolderUploads(s: State, t: Token, w: Worker, p: Plan) returns (s': State)
    requires Buildable(s, t, w) && Fresh(w) && w.pc == ReadingLedger
    requires PlanOk(Holding(s, w), p) && NoConflict(s.store, p.uploads)
    ensures s' == s.(store := s'.store) && forall i :: 0 <= i < |p.uploads| ==> Stored(s', p.uploads[i])
    ensures Leads(At(s, t, w), At(s', t, Holding(s, w).(plan := Some(p), pc := CheckingClaim(ToCommit))))
  {
    var composed := HolderComposes(s, t, w, p);
    s' := UploadsAll(s, t, composed, 0);
    ThenLeads(At(s, t, w), At(s, t, composed), At(s', t, composed.(pc := CheckingClaim(ToCommit))));
  }

  lemma HolderCommits(s: State, t: Token, w: Worker, p: Plan) returns (s': State)
    requires Buildable(s, t, w)
    ensures var done := Holding(s, w).(plan := Some(p), pc := CheckingClaim(ToCommit));
      Leads(At(s, t, done), s') && w.gid in s'.metas && ShowsBuild(s'.metas[w.gid], s.metas[w.gid], w, p) && s'.store == s.store
    ensures (w.gid, w.bid) in s.ledgers ==>
      (w.gid, w.bid) in s'.ledgers && s'.ledgers[(w.gid, w.bid)].status == s'.metas[w.gid].status
  {
    var done := Holding(s, w).(plan := Some(p), pc := CheckingClaim(ToCommit));
    HoldingIsCurrent(s, t, w);
    HoldingCommits(s, t, w, p);
    CheckpointPassed(s, t, done, ToCommit);
    s' := Commits(s, t, done.(pc := Committing));
    ThenLeads(At(s, t, done), At(s, t, done.(pc := Committing)), s');
  }

  lemma SameTables(s: State, s1: State, t: Token, w: Worker)
    requires Buildable(s, t, w) && s1 == s.(store := s1.store)
    ensures Buildable(s1, t, w) && Holding(s1, w) == Holding(s, w)
  {
  }

  /** A worker that holds the claim and is not disturbed publishes its build, and shows it in the ledger. */
  lemma HolderPublishes(s: State, t: Token, w: Worker, p: Plan) returns (s': State)
    requires Buildable(s, t, w) && Fresh(w) && w.pc == ReadingLedger
    requires PlanOk(Holding(s, w), p) && NoConflict(s.store, p.uploads)
    ensures Leads(At(s, t, w), s') && w.gid in s'.metas && ShowsBuild(s'.metas[w.gid], s.metas[w.gid], w, p)
    ensures forall i :: 0 <= i < |p.uploads| ==> Stored(s', p.uploads[i])
    ensures (w.gid, w.bid) in s.ledgers ==>
      (w.gid, w.bid) in s'.ledgers && s'.ledgers[(w.gid, w.bid)].status == s'.metas[w.gid].status
  {
    var s1 := HolderUploads(s, t, w, p);
    SameTables(s, s1, t, w);
    s' := HolderCommits(s1, t, w, p);
    ThenLeads(At(s, t, w), At(s1, t, Holding(s, w).(plan := Some(p), pc := CheckingClaim(ToCommit))), s');
  }

  // ---- a new worker ----

  /** A clock at which the lease of the row, if it has one, is over. */
  predicate LeaseOver(s: State, gid: Gid)
    requires gid in s.metas
  {
    s.metas[gid].token.Some? ==> s.metas[gid].lease.Some? && s.metas[gid].lease.value < s.clock / 1000
  }

  lemma LongEnough(lease: nat, clock: nat)
    ensures lease < (clock + (lease + 1) * 1000) / 1000
  {
  }

  lemma TimePasses(s: State, gid: Gid) returns (s': State)
    requires gid in s.metas && (s.metas[gid].token.Some? ==> s.metas[gid].lease.Some?)
    ensures Leads(s, s') && s' == s.(clock := s'.clock) && LeaseOver(s', gid)
  {
    var lease: nat := if s.metas[gid].lease.Some? && s.metas[gid].lease.value > 0 then s.metas[gid].lease.value else 0;
    var ms := (lease + 1) * 1000;
    LongEnough(lease, s.clock);
    s' := s.(clock := s.clock + ms);
    OneStep(s, Tick(ms), s');
  }

  lemma SpawnedTakes(s: State, t: Token, gid: Gid, bid: Bid, sub: Sub) returns (s': State, w: Worker)
    requires t !in s.workers && gid in s.metas && s.metas[gid].status == Building && s.metas[gid].build == Some(bid)
    requires LeaseOver(s, gid)
    ensures s' == Taken(s, t, gid, s.clock / 1000) && Leads(s, At(s', t, w))
    ensures Fresh(w) && w.pc == ReadingLedger && w.gid == gid && w.bid == bid && w.revision == s.metas[gid].revision && w.sub == sub
  {
    var now, begun := s.clock / 1000, NewWorker(gid, bid, s.metas[gid].revision, sub, s.clock);
    s' := Taken(s, t, gid, now);
    w := begun.(acquired := Some(now), pc := ReadingLedger);
    OneStep(s, Spawn(t, gid, bid, s.metas[gid].revision, sub), At(s, t, begun));
    WorksOn(s, s, t, begun, begun.(pc := Leasing));
    WorksOn(s, s, t, begun.(pc := Leasing), begun.(pc := Acquiring(now)));
    TakesClaim(s, t, begun.(pc := Acquiring(now)), now);
    ThenLeads(s, At(s, t, begun.(pc := Acquiring(now))), At(s', t, w));
  }

  /** Whoever held the claim of a build, once the lease is over a new worker can take it. */
  lemma NewWorkerTakes(s: State, t: Token, gid: Gid, bid: Bid, sub: Sub) returns (s': State, w: Worker)
    requires t !in s.workers && gid in s.metas && s.metas[gid].status == Building && s.metas[gid].build == Some(bid)
    requires s.metas[gid].token.Some? ==> s.metas[gid].lease.Some?
    ensures Leads(s, At(s', t, w)) && s' == s.(clock := s'.clock, metas := s'.metas) && s'.metas.Keys == s.metas.Keys
    ensures s'.metas[gid] == s.metas[gid].(token := Some(t), lease := s'.metas[gid].lease)
    ensures Fresh(w) && w.pc == ReadingLedger && w.gid == gid && w.bid == bid && w.revision == s.metas[gid].revision && w.sub == sub
  {
    var later := TimePasses(s, gid);
    s', w := SpawnedTakes(later, t, gid, bid, sub);
    ThenLeads(s, later, At(s', t, w));
  }

  lemma StillReady(s: State, s': State, t: Token, v: Worker, w: Worker)
    requires InputsReady(s, v) && v.gid == w.gid && v.bid == w.bid && v.revision == w.revision && v.sub == w.sub
    requires s' == s.(clock := s'.clock, metas := s'.metas) && w.gid in s'.metas && s'.metas[w.gid].inputs == s.metas[w.gid].inputs
    ensures InputsReady(s', w)
    ensures Holding(s', w).rows == Holding(s, v).rows
  {
    assert Captured(s', MemberIds(s.metas[w.gid].inputs)) == Captured(s, MemberIds(s.metas[w.gid].inputs));
  }

  lemma NewWorkerPublishes(s: State, t: Token, gid: Gid, bid: Bid, sub: Sub, p: Plan) returns (s': State)
    requires t !in s.workers && gid in s.metas && s.metas[gid].status == Building && s.metas[gid].build == Some(bid)
    requires s.metas[gid].token.Some? ==> s.metas[gid].lease.Some?
    requires var w := NewWorker(gid, bid, s.metas[gid].revision, sub, 0);
      InputsReady(s, w) && PlanOk(Holding(s, w), p) && NoConflict(s.store, p.uploads)
    ensures Leads(s, s') && gid in s'.metas
    ensures ShowsBuild(s'.metas[gid], s.metas[gid], NewWorker(gid, bid, s.metas[gid].revision, sub, 0), p)
  {
    var v := NewWorker(gid, bid, s.metas[gid].revision, sub, 0);
    var s1, w := NewWorkerTakes(s, t, gid, bid, sub);
    StillReady(s, s1, t, v, w);
    SamePlan(Holding(s, v), Holding(s1, w), p);
    s' := HolderPublishes(s1, t, w, p);
    ThenLeads(s, At(s1, t, w), s');
  }

  lemma SamePlan(v: Worker, w: Worker, p: Plan)
    requires PlanOk(v, p) && v.gid == w.gid && v.bid == w.bid && v.revision == w.revision && v.rows == w.rows
    ensures PlanOk(w, p)
  {
  }

  /**
   * No build is stuck: in any run, a build that is BUILDING, whatever has become of the workers on it,
   * can be published by a new worker once the lease is over, with any content the engine may compose,
   * as long as its inputs are in order and what earlier workers stored under its keys is the same.
   */
  lemma NoBuildIsStuck(ss: seq<State>, acts: seq<Action>, t: Token, gid: Gid, bid: Bid, sub: Sub, p: Plan)
    requires IsRun(ss, acts) && t !in ss[|acts|].workers && gid in ss[|acts|].metas
    requires ss[|acts|].metas[gid].status == Building && ss[|acts|].metas[gid].build == Some(bid)
    requires ss[|acts|].metas[gid].token.Some? ==> ss[|acts|].metas[gid].lease.Some?
    requires var w := NewWorker(gid, bid, ss[|acts|].metas[gid].revision, sub, 0);
      InputsReady(ss[|acts|], w) && PlanOk(Holding(ss[|acts|], w), p) && NoConflict(ss[|acts|].store, p.uploads)
    ensures exists tt: seq<State>, bb: seq<Action> :: IsRun(tt, bb) && |bb| >= |acts| && tt[..|ss|] == ss
              && gid in tt[|bb|].metas && ShowsBuild(tt[|bb|].metas[gid], ss[|acts|].metas[gid],
                   NewWorker(gid, bid, ss[|acts|].metas[gid].revision, sub, 0), p)
  {
    var s' := NewWorkerPublishes(ss[|acts|], t, gid, bid, sub, p);
    RunLeads(ss, acts, s');
  }

  // ---- a first build ----

  function Empty(clock: nat, registry: map<Sid, SourceRow>, grants: map<GrantKey, Grant>): State {
    State(clock, map[], map[], registry, grants, map[], map[], map[], {}, [])
  }

  /** A group whose first build has just been claimed. */
  function ClaimedFrom(s: State, gid: Gid, bid: Bid, inputs: Inputs): State {
    s.(metas := s.metas[gid := Meta(Building, Some(bid), 1, None, None, inputs, None)], claimed := s.claimed + {(gid, bid)})
  }

  lemma CreatesAndClaims(s: State, gid: Gid, bid: Bid, inputs: Inputs)
    requires gid !in s.metas && (gid, bid) !in s.claimed
    ensures Leads(s, ClaimedFrom(s, gid, bid, inputs))
  {
    var s1 := s.(metas := s.metas[gid := Meta(Draft, None, 1, None, None, inputs, None)]);
    var s2 := ClaimedFrom(s, gid, bid, inputs);
    OneStep(s, NewGroup(gid, inputs), s1);
    assert s2.metas == s1.metas[gid := s2.metas[gid]];
    OneStep(s1, Claim(gid, bid, true, None), s2);
    ThenLeads(s, s1, s2);
  }

  /** From the empty system, a group of sources that have active versions, with the grants of the one who
      asks, is created, claimed and published. */
  lemma FirstBuildIsPublished(clock: nat, registry: map<Sid, SourceRow>, grants: map<GrantKey, Grant>,
                              t: Token, gid: Gid, bid: Bid, sub: Sub, inputs: Inputs, p: Plan) returns (s': State)
    requires var s, w := ClaimedFrom(Empty(clock, registry, grants), gid, bid, inputs), NewWorker(gid, bid, 1, sub, 0);
      InputsReady(s, w) && PlanOk(Holding(s, w), p) && NoConflict(map[], p.uploads)
    ensures Init(Empty(clock, registry, grants)) && Leads(Empty(clock, registry, grants), s') && gid in s'.metas
    ensures s'.metas[gid].status == (if p.manifest.partial then Partial else Ready)
    ensures s'.metas[gid].active.Some? && s'.metas[gid].active.value.version == bid
  {
    var s0 := Empty(clock, registry, grants);
    var s := ClaimedFrom(s0, gid, bid, inputs);
    CreatesAndClaims(s0, gid, bid, inputs);
    s' := NewWorkerPublishes(s, t, gid, bid, sub, p);
    ThenLeads(s0, s, s');
  }

  /** A text file of a source. */
  datatype FileText = FileText(sid: Sid, path: Path, text: Doc)

  predicate DistinctFiles(files: seq<FileText>) {
    forall i, j :: 0 <= i < j < |files| ==> files[i].sid != files[j].sid || files[i].path != files[j].path
  }

  function RefsOf(w: Worker, files: seq<FileText>, k: nat): map<(Sid, Path), FileRef>
    requires k <= |files|
  {
    if k == 0 then map[]
    else
      var f := files[k - 1];
      RefsOf(w, files, k - 1)[(f.sid, f.path) := FileRef(FileKey(w.gid, w.bid, f.sid, f.path), Sha256(Text(f.text)))]
  }

  function UploadsOf(w: Worker, files: seq<FileText>): (r: seq<Upload>)
    ensures |r| == |files|
    ensures forall i :: 0 <= i < |files| ==>
      r[i] == Upload(FileKey(w.gid, w.bid, files[i].sid, files[i].path), Text(files[i].text))
  {
    seq(|files|, i requires 0 <= i < |files| => Upload(FileKey(w.gid, w.bid, files[i].sid, files[i].path), Text(files[i].text)))
  }

  lemma {:induction false} RefsMean(w: Worker, files: seq<FileText>, k: nat)
    requires k <= |files| && DistinctFiles(files)
    ensures forall i :: 0 <= i < k ==> (files[i].sid, files[i].path) in RefsOf(w, files, k)
    ensures forall i :: 0 <= i < k ==>
      RefsOf(w, files, k)[(files[i].sid, files[i].path)]
      == FileRef(FileKey(w.gid, w.bid, files[i].sid, files[i].path), Sha256(Text(files[i].text)))
    ensures forall f :: f in RefsOf(w, files, k) ==> exists i :: 0 <= i < k && f == (files[i].sid, files[i].path)
  {
    if k > 0 { RefsMean(w, files, k - 1); }
  }

  function PlanWith(w: Worker, files: seq<FileText>, graph: Doc, pairCache: Doc, partial: bool): Plan {
    var m := Manifest(w.gid, w.bid, w.revision, PinnedVersions(w.rows), RowDescriptions(w.rows),
                      GraphKey(w.gid, w.bid), Sha256(Graph(graph)), RefsOf(w, files, |files|), partial, pairCache);
    Plan(m, Graph(graph), UploadsOf(w, files) + [Upload(GraphKey(w.gid, w.bid), Graph(graph)), Upload(ManifestKey(w.gid, w.bid), ManifestBlob(m))])
  }

  lemma PlanWithOk(w: Worker, files: seq<FileText>, graph: Doc, pairCache: Doc, partial: bool)
    requires DistinctFiles(files) && forall i :: 0 <= i < |files| ==> files[i].sid in w.rows
    ensures PlanOk(w, PlanWith(w, files, graph, pairCache, partial))
  {
    var p, uploads := PlanWith(w, files, graph, pairCache, partial), UploadsOf(w, files);
    RefsMean(w, files, |files|);
    forall f | f in p.manifest.files ensures FileListed(w, p, f) {
      var i :| 0 <= i < |files| && f == (files[i].sid, files[i].path);
      assert p.uploads[i] == uploads[i];
    }
    forall i | 0 <= i < |files| ensures IsFileUpload(w, p.manifest, p.uploads[i]) { assert p.uploads[i] == uploads[i]; }
  }

  lemma KeysApart(w: Worker, files: seq<FileText>, p: Plan, graph: Doc, pairCache: Doc, partial: bool)
    requires DistinctFiles(files) && p == PlanWith(w, files, graph, pairCache, partial)
    ensures NoConflict(map[], p.uploads)
  {
    var uploads := UploadsOf(w, files);
    forall i, j | 0 <= i < j < |p.uploads| ensures p.uploads[i].key != p.uploads[j].key {
      if i < |files| { assert p.uploads[i] == uploads[i]; }
      if j < |files| { assert p.uploads[j] == uploads[j]; }
    }
  }

  /** Any graph and any files of the captured sources make a plan: each file under its own key in the
      build's version, listed with its digest, then the graph, then the manifest. */
  lemma PlanOfFiles(w: Worker, files: seq<FileText>, graph: Doc, pairCache: Doc, partial: bool) returns (p: Plan)
    requires DistinctFiles(files) && forall i :: 0 <= i < |files| ==> files[i].sid in w.rows
    ensures PlanOk(w, p) && NoConflict(map[], p.uploads) && p.manifest.partial == partial && p.graph == Graph(graph)
    ensures |p.uploads| == |files| + 2
    ensures forall i :: 0 <= i < |files| ==>
      p.uploads[i] == Upload(FileKey(w.gid, w.bid, files[i].sid, files[i].path), Text(files[i].text))
  {
    p := PlanWith(w, files, graph, pairCache, partial);
    PlanWithOk(w, files, graph, pairCache, partial);
    KeysApart(w, files, p, graph, pairCache, partial);
  }

  // ---- the collector ----

  function Listed(now: nat, key: Key, modified: nat): Sweep {
    Sweep(now, [(key, modified)], 0, map[], {}, Judging)
  }

  function AtSweep(s: State, id: SweepId, p: Sweep): State {
    s.(sweeps := s.sweeps[id := p])
  }

  lemma JudgesUnpinned(s: State, id: SweepId, key: Key) returns (p: Sweep)
    requires key in s.store && s.clock - s.store[key].modified >= 3_600_000 && key.gid in s.metas
    requires s.metas[key.gid].status == Deleted
             || (s.metas[key.gid].build != Some(key.bid)
                 && (s.metas[key.gid].active.Some? ==> s.metas[key.gid].active.value.version != key.bid))
    ensures p.pc == Deleting && p.discard == {key}
    ensures Leads(AtSweep(s, id, Listed(s.clock, key, s.store[key].modified)), AtSweep(s, id, p))
  {
    var l := Listed(s.clock, key, s.store[key].modified);
    var j := l.(judged := 1, cache := map[key.gid := Some(s.metas[key.gid])], discard := {key});
    p := j.(pc := Deleting);
    assert AtSweep(s, id, l).sweeps[id := j] == s.sweeps[id := j];
    assert AtSweep(s, id, j).sweeps[id := p] == s.sweeps[id := p];
    assert Judge(AtSweep(s, id, l), l) == j;
    assert StepJudge(AtSweep(s, id, l), id, AtSweep(s, id, j));
    OneStep(AtSweep(s, id, l), SweepJudge(id), AtSweep(s, id, j));
    OneStep(AtSweep(s, id, j), SweepJudge(id), AtSweep(s, id, p));
    ThenLeads(AtSweep(s, id, l), AtSweep(s, id, j), AtSweep(s, id, p));
  }

  /** An object at least an hour old whose version its group's row neither shows nor reserves can be reclaimed. */
  lemma UnpinnedIsReclaimed(s: State, id: SweepId, key: Key) returns (s': State)
    requires id !in s.sweeps && key in s.store && s.clock - s.store[key].modified >= 3_600_000 && key.gid in s.metas
    requires s.metas[key.gid].status == Deleted
             || (s.metas[key.gid].build != Some(key.bid)
                 && (s.metas[key.gid].active.Some? ==> s.metas[key.gid].active.value.version != key.bid))
    ensures Leads(s, s') && s'.store == s.store - {key}
  {
    var l := Listed(s.clock, key, s.store[key].modified);
    assert StepList(s, id, s.clock, l.page, AtSweep(s, id, l));
    OneStep(s, SweepList(id, s.clock, l.page), AtSweep(s, id, l));
    var p := JudgesUnpinned(s, id, key);
    ThenLeads(s, AtSweep(s, id, l), AtSweep(s, id, p));
    var judged := AtSweep(s, id, p);
    s' := judged.(store := judged.store - {key});
    assert StepDelete(judged, id, {key}, s');
    OneStep(judged, SweepDelete(id, {key}), s');
    ThenLeads(s, judged, s');
  }
}
