/** What the group build protocol guarantees over every run, under any schedule of claims,
    retried workers that may outlive their lease, edits, revocations and collectors. */
module GroupTheorems {
  import opened Common
  import opened GroupState
  import opened GroupInvariant
  import opened GroupProof

  /** A live group points at `b`, or has it reserved. */
  ghost predicate Pinned(s: State, g: Gid, b: Bid) {
    && g in s.metas && s.metas[g].status != Deleted
    && (s.metas[g].build == Some(b) || (s.metas[g].active.Some? && s.metas[g].active.value.version == b))
  }

  // ---- the pointer is never dangling ----

  lemma ActivePointerIntact(ss: seq<State>, acts: seq<Action>, j: nat, g: Gid)
    requires IsRun(ss, acts) && j < |ss|
    requires g in ss[j].metas && ss[j].metas[g].status != Deleted && ss[j].metas[g].active.Some?
    ensures Intact(ss[j], g, ss[j].metas[g].active.value)
  {
    RunInv(ss, acts, j);
  }

  /** A collector acts on a listing and a row read earlier; whatever it deletes belongs to
      a version that is not active or reserved now and will not be at any later time. */
  lemma SweepDeletesOnlyDead(ss: seq<State>, acts: seq<Action>, i: nat, j: nat, k: Key)
    requires IsRun(ss, acts) && i <= j < |ss| && i < |acts|
    requires acts[i].SweepDelete? && k in acts[i].keys
    ensures !Pinned(ss[j], k.gid, k.bid)
  {
    assert StepAt(ss, acts, i);
    RunInv(ss, acts, i);
    assert SweepOk(ss[i], ss[i].sweeps[acts[i].id]);
    assert Dead(ss[i], k.gid, k.bid);
    RunProgress(ss, acts, i, j);
  }

  // ---- stored bytes are final ----

  /** What a build stored is still there, unchanged, as long as the build is pinned. */
  lemma PinnedContentIsFinal(ss: seq<State>, acts: seq<Action>, i: nat, j: nat, k: Key)
    requires IsRun(ss, acts) && i <= j < |ss| && k in ss[i].store && Pinned(ss[j], k.gid, k.bid)
    ensures k in ss[j].store && ss[j].store[k].blob == ss[i].store[k].blob
  {
    RunProgress(ss, acts, i, j);
  }

  lemma PinnedIsAlive(s: State, g: Gid, b: Bid)
    requires Pinned(s, g, b)
    ensures !Dead(s, g, b)
  {
  }

  /** Whichever of several workers on one build commits, every object of its plan holds the
      bytes that worker composed, then and for as long as its version is the active one. */
  lemma CommittedBytesStay(ss: seq<State>, acts: seq<Action>, i: nat, j: nat, u: nat)
    requires IsRun(ss, acts) && i < j < |ss| && acts[i].Commit?
    requires acts[i].token in ss[i].workers && ss[i].workers[acts[i].token].plan.Some?
    requires u < |ss[i].workers[acts[i].token].plan.value.uploads|
    requires Pinned(ss[j], ss[i].workers[acts[i].token].gid, ss[i].workers[acts[i].token].bid)
    ensures Stored(ss[j], ss[i].workers[acts[i].token].plan.value.uploads[u])
  {
    var w := ss[i].workers[acts[i].token];
    assert StepAt(ss, acts, i);
    RunInv(ss, acts, i);
    RunProgress(ss, acts, i, j);
    PinnedIsAlive(ss[j], w.gid, w.bid);
    CommitterStored(ss[i], acts[i].token, acts[i].lost, ss[i + 1], u);
    PlanKeys(w, w.plan.value, u);
  }

  lemma CommitterStored(s: State, t: Token, lost: bool, s': State, u: nat)
    requires Inv(s) && StepCommit(s, t, lost, s') && u < |s.workers[t].plan.value.uploads|
    ensures Stored(s, s.workers[t].plan.value.uploads[u]) && PlanOk(s.workers[t], s.workers[t].plan.value)
  {
    assert WorkerOk(s, t, s.workers[t]);
    assert !Dead(s, s.workers[t].gid, s.workers[t].bid);
  }

  // ---- a commit is a consistent snapshot ----

  /** The members of a group are one to eight distinct sources; their ids are those of the list and no others. */
  lemma MembersMean(inputs: Inputs)
    ensures ValidMembers(inputs) <==>
      && 1 <= |inputs.sources| <= 8
      && (forall i, j :: 0 <= i < |inputs.sources| && 0 <= j < |inputs.sources| && inputs.sources[i].sid == inputs.sources[j].sid ==> i == j)
    ensures forall sid :: sid in MemberIds(inputs) <==> exists i :: 0 <= i < |inputs.sources| && inputs.sources[i].sid == sid
    ensures ValidMembers(inputs) ==> |MemberIds(inputs)| == |inputs.sources|
  {
    if ValidMembers(inputs) { IdsCounted(inputs.sources, MemberIds(inputs)); }
  }

  lemma {:induction false} IdsCounted(members: seq<Member>, ids: set<Sid>)
    requires ids == set i | 0 <= i < |members| :: members[i].sid
    requires forall i, j :: 0 <= i < j < |members| ==> members[i].sid != members[j].sid
    ensures |ids| == |members|
  {
    if members != [] {
      var last := |members| - 1;
      var fewer := set i | 0 <= i < last :: members[..last][i].sid;
      IdsCounted(members[..last], fewer);
      assert ids == fewer + {members[last].sid};
    }
  }

  /** The registry as the published row describes it. */
  ghost predicate MatchesRegistry(s: State, inputs: Inputs, a: Active) {
    && a.sourceVersions.Keys == MemberIds(inputs) && a.sourceDescriptions.Keys == MemberIds(inputs)
    && forall sid :: sid in MemberIds(inputs) ==>
         && sid in s.registry
         && s.registry[sid].fields.activeVersion == Some(a.sourceVersions[sid])
         && a.sourceDescriptions[sid] == (match s.registry[sid].fields.descriptionVersion case None => 0 case Some(n) => n)
  }

  /** The requester's authority at one instant. */
  ghost predicate Authorized(s: State, sub: Sub, gid: Gid, inputs: Inputs) {
    && AccountDeleted(sub) !in s.grants && GroupGrant(sub, gid) in s.grants
    && forall sid :: sid in MemberIds(inputs) && sid in s.registry && !s.registry[sid].fields.public ==>
         SourceGrant(sub, sid) in s.grants
  }

  /** The ledger row as the published row describes it. */
  ghost predicate LedgerShows(l: Ledger, m: Meta, sub: Sub, a: Active) {
    && l.status == m.status && l.sub == sub && l.sourceDescriptions == a.sourceDescriptions
    && l.sourceVersions.Keys == MemberIds(m.inputs)
    && a.sourceVersions.Keys == MemberIds(m.inputs)
    && forall sid :: sid in MemberIds(m.inputs) ==> l.sourceVersions[sid] == Some(a.sourceVersions[sid])
  }

  /** What a worker about to publish knows. */
  ghost predicate Committer(s: State, t: Token, w: Worker) {
    && SnapOk(t, w) && w.snap.Some? && ValidMembers(w.snap.value.inputs)
    && w.rows.Keys == MemberIds(w.snap.value.inputs) && AllPinned(w.rows) && LedgerVersionsOk(w)
    && w.plan.Some? && PlanOk(w, w.plan.value)
    && if w.ledger.Some? then LedgerMatches(w.ledger, w) else (w.gid, w.bid) !in s.ledgers
  }

  lemma CommittingKnows(s: State, t: Token, w: Worker)
    requires w.pc == Committing && WorkerData(t, w) && WorkerTables(s, w)
    ensures Committer(s, t, w)
  {
  }

  lemma CommitterKnows(s: State, t: Token)
    requires WorkersOk(s) && t in s.workers && s.workers[t].pc == Committing
    ensures Committer(s, t, s.workers[t])
  {
    assert WorkerOk(s, t, s.workers[t]);
    CommittingKnows(s, t, s.workers[t]);
  }

  lemma PinnedKeys(rows: map<Sid, SourceRow>)
    requires AllPinned(rows)
    ensures PinnedVersions(rows).Keys == rows.Keys && RowVersions(rows).Keys == rows.Keys
    ensures forall sid :: sid in rows ==> RowVersions(rows)[sid] == Some(PinnedVersions(rows)[sid])
  {
  }

  lemma CommitLedger(s: State, t: Token, lost: bool, s': State)
    requires t in s.workers && Committer(s, t, s.workers[t]) && StepCommit(s, t, lost, s')
    ensures var w := s.workers[t];
            (w.gid, w.bid) in s'.ledgers ==>
              LedgerShows(s'.ledgers[(w.gid, w.bid)], s'.metas[w.gid], w.sub, s'.metas[w.gid].active.value)
  {
    PinnedKeys(s.workers[t].rows);
  }

  /** At the instant a build is published, the versions it publishes are the registry's
      active versions of exactly the group's members, the requester is still authorized for
      all of them, and the ledger row, if the build has one, records the same inputs. */
  lemma CommitIsConsistentSnapshot(s: State, t: Token, lost: bool, s': State)
    requires Inv(s) && StepCommit(s, t, lost, s')
    ensures var w := s.workers[t];
            var m := s'.metas[w.gid];
            && m.status in {Ready, Partial} && m.active.Some? && m.active.value.version == w.bid
            && m.inputs == s.metas[w.gid].inputs && ValidMembers(m.inputs)
            && MatchesRegistry(s', m.inputs, m.active.value)
            && Authorized(s', w.sub, w.gid, m.inputs)
            && ((w.gid, w.bid) in s'.ledgers ==>
                  LedgerShows(s'.ledgers[(w.gid, w.bid)], m, w.sub, m.active.value))
  {
    CommitterKnows(s, t);
    CommitLedger(s, t, lost, s');
    CommitPublishes(s, t, lost, s');
  }

  lemma CommitPublishes(s: State, t: Token, lost: bool, s': State)
    requires t in s.workers && Committer(s, t, s.workers[t]) && StepCommit(s, t, lost, s')
    ensures var w := s.workers[t];
            var m := s'.metas[w.gid];
            && m.status in {Ready, Partial} && m.active.Some? && m.active.value.version == w.bid
            && m.inputs == s.metas[w.gid].inputs && ValidMembers(m.inputs)
            && MatchesRegistry(s', m.inputs, m.active.value) && Authorized(s', w.sub, w.gid, m.inputs)
  {
    var w := s.workers[t];
    CommitRows(s, t, w);
    var m := s'.metas[w.gid];
    SameTables(s, s', m.inputs, m.active.value, w.sub, w.gid);
  }

  lemma CommitRows(s: State, t: Token, w: Worker)
    requires Committer(s, t, w) && CanCommit(s, w)
    ensures var f := w.plan.value.manifest;
            MatchesRegistry(s, s.metas[w.gid].inputs,
                            Active(w.bid, w.revision, f.sourceVersions, f.sourceDescriptions))
    ensures Authorized(s, w.sub, w.gid, s.metas[w.gid].inputs)
  {
    PinnedKeys(w.rows);
  }

  lemma SameTables(s: State, s': State, inputs: Inputs, a: Active, sub: Sub, gid: Gid)
    requires s'.registry == s.registry && s'.grants == s.grants
    requires MatchesRegistry(s, inputs, a) && Authorized(s, sub, gid, inputs)
    ensures MatchesRegistry(s', inputs, a) && Authorized(s', sub, gid, inputs)
  {
  }

  /** A publication shows its build as partial exactly when the manifest stored for it says so, gives up
      the claim and touches nothing else of the row. */
  lemma PublicationMeans(ss: seq<State>, acts: seq<Action>, i: nat)
    requires IsRun(ss, acts) && i < |acts| && acts[i].Commit?
    ensures acts[i].token in ss[i].workers
    ensures var w := ss[i].workers[acts[i].token];
      && w.gid in ss[i].metas && w.gid in ss[i + 1].metas && ManifestKey(w.gid, w.bid) in ss[i + 1].store
      && ss[i + 1].store[ManifestKey(w.gid, w.bid)].blob.ManifestBlob?
      && var was, m := ss[i].metas[w.gid], ss[i + 1].metas[w.gid];
         && m.status == (if ss[i + 1].store[ManifestKey(w.gid, w.bid)].blob.manifest.partial then Partial else Ready)
         && m.active.Some? && m.active.value.version == w.bid && m.active.value.revision == w.revision
         && m.token.None? && m.lease.None? && m.build == was.build && m.revision == was.revision && m.inputs == was.inputs
  {
    assert StepAt(ss, acts, i);
    RunInv(ss, acts, i);
    PublishedAsStored(ss[i], acts[i].token, acts[i].lost, ss[i + 1]);
  }

  lemma PublishedAsStored(s: State, t: Token, lost: bool, s': State)
    requires Inv(s) && StepCommit(s, t, lost, s')
    ensures var w := s.workers[t];
      && w.plan.Some? && w.gid in s.metas && w.gid in s'.metas && s'.store == s.store
      && ManifestKey(w.gid, w.bid) in s.store
      && s.store[ManifestKey(w.gid, w.bid)].blob == ManifestBlob(w.plan.value.manifest)
      && var f := w.plan.value.manifest;
         s'.metas[w.gid] == s.metas[w.gid].(
           status := if f.partial then Partial else Ready, token := None, lease := None,
           active := Some(Active(w.bid, w.revision, f.sourceVersions, f.sourceDescriptions)))
  {
    CommitterKnows(s, t);
    var w := s.workers[t];
    CommitterStored(s, t, lost, s', |w.plan.value.uploads| - 1);
  }

  /** A failure changes the status of the row to FAILED, gives up the claim and touches nothing else of the row. */
  lemma FailureMeans(s: State, t: Token, s': State)
    requires StepFail(s, t, s')
    ensures var gid := s.workers[t].gid;
      gid in s.metas && gid in s'.metas && s'.metas[gid] == s.metas[gid].(status := Failed, token := None, lease := None)
  {
  }

  // ---- what a commit compares was captured before any artifact was read ----

  /** Worker `t` read this row itself, at a point of the run before it loaded anything. */
  ghost predicate ReadEarly(ss: seq<State>, h: nat, t: Token, sid: Sid, row: SourceRow) {
    && h < |ss| && sid in ss[h].registry && ss[h].registry[sid] == row
    && t in ss[h].workers && ss[h].workers[t].pc.ReadingRows?
  }

  lemma MoveReadsRow(s: State, t: Token, w: Worker, w': Worker, sid: Sid)
    requires Move(s, t, w, w') && sid in w'.rows
    ensures (sid in w.rows && w.rows[sid] == w'.rows[sid])
            || (w.pc.ReadingRows? && sid in s.registry && s.registry[sid] == w'.rows[sid])
  {
  }

  lemma StepRows(s: State, a: Action, s': State, t: Token)
    requires Writes(s, a, s') && t in s'.workers && !(a.Work? && a.token == t)
    ensures t !in s.workers ==> s'.workers[t].rows == map[]
    ensures t in s.workers ==> s'.workers[t].rows == s.workers[t].rows
  {
    if t !in s.workers {
      OnlySpawnAdds(s, a, s', t);
    } else if Actor(a) != Some(t) {
      OthersUntouched(s, a, s', t);
    } else {
      ActorKeepsRows(s, a, s', t);
    }
  }

  lemma ActorKeepsRows(s: State, a: Action, s': State, t: Token)
    requires Writes(s, a, s') && t in s.workers && Actor(a) == Some(t) && !a.Work?
    ensures t in s'.workers && s'.workers[t].rows == s.workers[t].rows
  {
  }

  lemma {:induction false} RowsWereRead(ss: seq<State>, acts: seq<Action>, i: nat, t: Token, sid: Sid)
    requires IsRun(ss, acts) && i < |ss| && t in ss[i].workers && sid in ss[i].workers[t].rows
    ensures exists h :: 0 <= h <= i && ReadEarly(ss, h, t, sid, ss[i].workers[t].rows[sid])
  {
    assert i > 0;
    assert StepAt(ss, acts, i - 1);
    var s, a := ss[i - 1], acts[i - 1];
    if a.Work? && a.token == t {
      MoveReadsRow(s, t, s.workers[t], a.to, sid);
      if sid in s.workers[t].rows && s.workers[t].rows[sid] == a.to.rows[sid] {
        RowsWereRead(ss, acts, i - 1, t, sid);
      } else {
        assert ReadEarly(ss, i - 1, t, sid, ss[i].workers[t].rows[sid]);
      }
    } else {
      StepRows(s, a, ss[i], t);
      RowsWereRead(ss, acts, i - 1, t, sid);
    }
  }

  /** So a published version of a source was that source's active version at two instants of
      the run: when the worker captured it, before loading, and when it committed. */
  lemma PublishedVersionsSpanTheBuild(ss: seq<State>, acts: seq<Action>, i: nat, sid: Sid)
    requires IsRun(ss, acts) && i < |acts| && acts[i].Commit?
    requires acts[i].token in ss[i].workers && sid in ss[i].workers[acts[i].token].rows
    ensures var t := acts[i].token;
            var row := ss[i].workers[t].rows[sid];
            && sid in ss[i].registry && ss[i].registry[sid].fields == row.fields
            && exists h :: 0 <= h <= i && ReadEarly(ss, h, t, sid, row)
  {
    assert StepAt(ss, acts, i);
    RowsWereRead(ss, acts, i, acts[i].token, sid);
  }

  // ---- fencing ----

  /** Once a worker's row carries another token or another build, or is no longer BUILDING,
      that worker records no exit any more: it neither publishes nor marks FAILED. */
  lemma FencedWorkerNeverExits(ss: seq<State>, acts: seq<Action>, i: nat, j: nat, t: Token, e: nat)
    requires IsRun(ss, acts) && i <= j < |ss|
    requires t in ss[i].workers && ss[i].workers[t].acquired.Some?
    requires !Holds(ss[i], t, ss[i].workers[t])
    requires |ss[i].exits| <= e < |ss[j].exits|
    ensures ss[j].exits[e].token != t
  {
    RunProgress(ss, acts, i, j);
    assert Fenced(ss[i], t);
  }

  /** No build leaves BUILDING twice by a worker's transaction. */
  lemma BuildExitsOnce(ss: seq<State>, acts: seq<Action>, j: nat, d: nat, e: nat)
    requires IsRun(ss, acts) && j < |ss| && d < |ss[j].exits| && e < |ss[j].exits|
    requires ss[j].exits[d].gid == ss[j].exits[e].gid && ss[j].exits[d].bid == ss[j].exits[e].bid
    ensures d == e
  {
    RunInv(ss, acts, j);
  }

  /** The exit last recorded, and the row it goes with. */
  predicate Exited(s: State, w: Worker, t: Token, s': State) {
    && |s'.exits| == |s.exits| + 1 && s'.exits[|s.exits|].token == t && s'.exits[|s.exits|].gid == w.gid
    && s'.exits[|s.exits|].bid == w.bid && w.gid in s'.metas && s'.metas[w.gid].status == s'.exits[|s.exits|].status
  }

  /** The ledger row of the build shows the status of its group row. */
  predicate RowsAgree(s: State, w: Worker) {
    w.gid in s.metas && (w.gid, w.bid) in s.ledgers && s.ledgers[(w.gid, w.bid)].status == s.metas[w.gid].status
  }

  lemma CommitSetsBothRows(s: State, t: Token, lost: bool, s': State)
    requires t in s.workers && Committer(s, t, s.workers[t]) && StepCommit(s, t, lost, s')
    ensures Exited(s, s.workers[t], t, s')
    ensures (s.workers[t].gid, s.workers[t].bid) in s.ledgers ==> RowsAgree(s', s.workers[t])
  {
  }

  lemma FailSetsBothRows(s: State, t: Token, s': State)
    requires StepFail(s, t, s')
    ensures Exited(s, s.workers[t], t, s')
    ensures var w := s.workers[t];
      (w.gid, w.bid) in s.ledgers ==>
        (RowsAgree(s', w) <==> LedgerMatches(w.ledger, w) || s.ledgers[(w.gid, w.bid)].status == Failed)
  {
  }

  /** A worker's exit writes the row and its ledger together. After a publication they
      agree; after a failure they agree exactly when the worker had captured a matching
      ledger row, or the ledger was already FAILED. */
  lemma ExitSetsBothRows(s: State, a: Action, s': State)
    requires Inv(s) && Step(s, a, s') && (a.Commit? || a.Fail?)
    ensures a.token in s.workers && Exited(s, s.workers[a.token], a.token, s')
    ensures var w := s.workers[a.token];
      (w.gid, w.bid) in s.ledgers ==>
        (RowsAgree(s', w) <==> a.Commit? || LedgerMatches(w.ledger, w) || s.ledgers[(w.gid, w.bid)].status == Failed)
  {
    if a.Commit? {
      CommitterKnows(s, a.token);
      CommitSetsBothRows(s, a.token, a.lost, s');
    } else {
      FailSetsBothRows(s, a.token, s');
    }
  }

  /** In every later state the ledger of a published build still shows how it was published. */
  lemma PublishedLedgerStays(ss: seq<State>, acts: seq<Action>, j: nat, e: nat)
    requires IsRun(ss, acts) && j < |ss| && e < |ss[j].exits| && ss[j].exits[e].status != Failed
    ensures var x := ss[j].exits[e];
            (x.gid, x.bid) in ss[j].ledgers ==> ss[j].ledgers[(x.gid, x.bid)].status == x.status
  {
    RunInv(ss, acts, j);
    assert ExitOk(ss[j], ss[j].exits[e]);
  }

  /** A worker that acquired a claim, has not ended, and is within the Lambda limit. */
  ghost predicate Live(s: State, t: Token) {
    && t in s.workers && s.workers[t].acquired.Some? && s.workers[t].pc != Ended
    && s.clock <= s.workers[t].started + 900_000
  }

  /** The 960 second lease outlasts the 900 second limit, whole-second clocks included. */
  lemma NoTwoLiveHolders(ss: seq<State>, acts: seq<Action>, j: nat, t: Token, u: Token)
    requires IsRun(ss, acts) && j < |ss| && Live(ss[j], t) && Live(ss[j], u)
    requires ss[j].workers[t].gid == ss[j].workers[u].gid && ss[j].workers[t].bid == ss[j].workers[u].bid
    ensures t == u
  {
    RunInv(ss, acts, j);
    assert WorkerOk(ss[j], t, ss[j].workers[t]) && WorkerOk(ss[j], u, ss[j].workers[u]);
    assert t != u ==> Apart(ss[j].workers[t], ss[j].workers[u]);
  }

  // ---- where the two rows can part ----

  lemma ExtendRun(ss: seq<State>, acts: seq<Action>, a: Action, s': State)
    requires IsRun(ss, acts) && Step(ss[|ss| - 1], a, s')
    ensures IsRun(ss + [s'], acts + [a])
  {
    var tt, bb := ss + [s'], acts + [a];
    forall i | 0 <= i < |bb| ensures StepAt(tt, bb, i) {
      if i < |acts| { assert StepAt(ss, acts, i); }
    }
  }

  ghost predicate Reaches(s: State) {
    exists ss, acts :: IsRun(ss, acts) && ss[|ss| - 1] == s
  }

  lemma ReachStep(s: State, a: Action, s': State)
    requires Reaches(s) && Step(s, a, s')
    ensures Reaches(s')
  {
    var ss, acts :| IsRun(ss, acts) && ss[|ss| - 1] == s;
    ExtendRun(ss, acts, a, s');
    var tt := ss + [s'];
    assert tt[|tt| - 1] == s';
  }

  lemma InitReached(s: State)
    requires Init(s)
    ensures Reaches(s)
  {
    assert IsRun([s], []);
    assert [s][|[s]| - 1] == s;
  }

  lemma ClaimedState(s0: State, gid: Gid, bid: Bid, inputs: Inputs, row: Ledger) returns (s: State)
    requires Init(s0) && row.status == Queued
    ensures Reaches(s) && s.workers == map[]
    ensures s.metas == map[gid := Meta(Building, Some(bid), 1, None, None, inputs, None)]
    ensures s.ledgers == map[(gid, bid) := row]
  {
    InitReached(s0);
    var m := Meta(Draft, None, 1, None, None, inputs, None);
    var s1 := s0.(metas := s0.metas[gid := m]);
    ReachStep(s0, NewGroup(gid, inputs), s1);
    s := s1.(metas := s1.metas[gid := m.(status := Building, build := Some(bid), token := None, lease := None)],
             ledgers := s1.ledgers[(gid, bid) := row], claimed := s1.claimed + {(gid, bid)});
    ReachStep(s1, Claim(gid, bid, true, Some(row)), s);
  }

  /** A claimed build whose worker holds the claim and has not read the ledger row yet. */
  lemma AcquiredState(s0: State, gid: Gid, bid: Bid, inputs: Inputs, row: Ledger, t: Token, sub: Sub) returns (s: State)
    requires Init(s0) && row.status == Queued
    ensures Reaches(s) && t in s.workers && s.workers[t].pc == ReadingLedger
    ensures s.workers[t].acquired.Some? && s.workers[t].ledger.None?
    ensures s.workers[t].gid == gid && s.workers[t].bid == bid && s.workers[t].revision == 1
    ensures gid in s.metas && s.metas[gid].status == Building && s.metas[gid].build == Some(bid)
    ensures s.metas[gid].revision == 1 && s.metas[gid].token == Some(t)
    ensures (gid, bid) in s.ledgers && s.ledgers[(gid, bid)] == row
  {
    var s2 := ClaimedState(s0, gid, bid, inputs, row);
    var w := NewWorker(gid, bid, 1, sub, s2.clock);
    var s3 := s2.(workers := s2.workers[t := w]);
    ReachStep(s2, Spawn(t, gid, bid, 1, sub), s3);
    var s4 := ReachWork(s3, t, w.(pc := Leasing));
    var now := s4.clock / 1000;
    var s5 := ReachWork(s4, t, w.(pc := Acquiring(now)));
    s := ReachAcquire(s5, t, w, now);
  }

  lemma ReachWork(s: State, t: Token, w': Worker) returns (s': State)
    requires Reaches(s) && t in s.workers && Move(s, t, s.workers[t], w')
    ensures Reaches(s') && s' == s.(workers := s.workers[t := w'])
  {
    s' := s.(workers := s.workers[t := w']);
    ReachStep(s, Work(t, w'), s');
  }

  lemma ReachAcquire(s: State, t: Token, w: Worker, now: nat) returns (s': State)
    requires Reaches(s) && t in s.workers && s.workers[t] == w.(pc := Acquiring(now))
    requires CanAcquire(Lookup(s.metas, w.gid), w, now)
    ensures Reaches(s')
    ensures s' == s.(metas := s.metas[w.gid := s.metas[w.gid].(token := Some(t), lease := Some(now + LEASE_SECONDS))],
                     workers := s.workers[t := w.(acquired := Some(now), pc := ReadingLedger)])
  {
    s' := s.(metas := s.metas[w.gid := s.metas[w.gid].(token := Some(t), lease := Some(now + LEASE_SECONDS))],
             workers := s.workers[t := w.(acquired := Some(now), pc := ReadingLedger)]);
    ReachStep(s, Acquire(t, false), s');
  }

  /** When the read of the ledger row itself raises, the build fails with its row FAILED and
      its ledger still QUEUED. */
  lemma FailureCanLeaveLedgerQueued(s0: State, gid: Gid, bid: Bid, inputs: Inputs, row: Ledger, t: Token, sub: Sub)
    requires Init(s0) && row.status == Queued
    ensures exists s :: Reaches(s) && gid in s.metas && s.metas[gid].status == Failed
                        && (gid, bid) in s.ledgers && s.ledgers[(gid, bid)].status == Queued
  {
    var s := AcquiredState(s0, gid, bid, inputs, row, t, sub);
    var w := Faulted(s.workers[t]);
    var s1 := s.(workers := s.workers[t := w]);
    ReachStep(s, Fault(t), s1);
    var s2 := s1.(metas := s1.metas[gid := s1.metas[gid].(status := Failed, token := None, lease := None)],
                  workers := s1.workers[t := w.(pc := Ended)],
                  exits := s1.exits + [Exit(gid, bid, t, Failed, false)]);
    ReachStep(s1, Fail(t), s2);
  }
}
