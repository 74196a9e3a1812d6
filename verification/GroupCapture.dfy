/**
 What a group build is published against was captured by its worker before it loaded
 anything: the group row, the requester's grants, the source rows and the ledger row. Each
 capture is a read at some earlier instant of the run, and the commit finds it unchanged.
 */
module GroupCapture {
  import opened Common
  import opened GroupState
  import opened GroupInvariant
  import opened GroupProof
  import opened GroupTheorems

  // ---- the reads of a worker ----

  /** Worker `t` read its group row at instant `h`, for the first time. */
  ghost predicate MetaRead(ss: seq<State>, h: nat, t: Token, gid: Gid, m: Meta) {
    && h < |ss| && Lookup(ss[h].metas, gid) == Some(m)
    && t in ss[h].workers && ss[h].workers[t].pc.CheckingAccess? && ss[h].workers[t].snap.None?
  }

  ghost predicate GrantRead(ss: seq<State>, h: nat, t: Token, k: GrantKey, g: Grant) {
    && h < |ss| && Lookup(ss[h].grants, k) == Some(g) && t in ss[h].workers
    && (if k.SourceGrant? then ss[h].workers[t].pc.GuardingSources? else ss[h].workers[t].pc.GuardingGrant?)
  }

  ghost predicate LedgerRead(ss: seq<State>, h: nat, t: Token, gb: (Gid, Bid), l: Ledger) {
    && h < |ss| && Lookup(ss[h].ledgers, gb) == Some(l)
    && t in ss[h].workers && ss[h].workers[t].pc == ReadingLedger
  }

  /** A worker's identity never changes. */
  predicate SameJob(w: Worker, w': Worker) {
    w'.gid == w.gid && w'.bid == w.bid && w'.revision == w.revision && w'.sub == w.sub
  }

  /** What a worker carries from its captures. */
  predicate SameCaptures(w: Worker, w': Worker) {
    w'.snap == w.snap && w'.ledger == w.ledger && w'.grant == w.grant && w'.sourceGrants == w.sourceGrants
  }

  predicate NoCaptures(w: Worker) {
    w.snap.None? && w.ledger.None? && w.grant.None? && w.sourceGrants == map[]
  }

  /** A local step carries a capture on, or makes it from the tables it reads. */
  lemma AccessSnap(s: State, t: Token, w: Worker, after: After, w': Worker)
    requires w.pc == CheckingAccess(after) && CheckAccess(s, t, w, after, w')
    ensures SameJob(w, w') && (w'.snap == w.snap || (w.snap.None? && w'.snap == Lookup(s.metas, w.gid)))
  {
  }

  lemma OthersKeepSnap(s: State, t: Token, w: Worker, w': Worker)
    requires Move(s, t, w, w') && !w.pc.CheckingAccess?
    ensures SameJob(w, w') && w'.snap == w.snap
  {
  }

  lemma MoveSnap(s: State, t: Token, w: Worker, w': Worker)
    requires Move(s, t, w, w')
    ensures SameJob(w, w')
    ensures w'.snap == w.snap
            || (w.pc.CheckingAccess? && w.snap.None? && w'.snap == Lookup(s.metas, w.gid))
  {
    if w.pc.CheckingAccess? { AccessSnap(s, t, w, w.pc.after, w'); } else { OthersKeepSnap(s, t, w, w'); }
  }

  lemma MoveLedger(s: State, t: Token, w: Worker, w': Worker)
    requires Move(s, t, w, w')
    ensures w'.ledger == w.ledger || (w.pc == ReadingLedger && w'.ledger == Lookup(s.ledgers, (w.gid, w.bid)))
  {
  }

  lemma MoveGrant(s: State, t: Token, w: Worker, w': Worker)
    requires Move(s, t, w, w')
    ensures w'.grant == w.grant || (w.pc == GuardingGrant && w'.grant == Lookup(s.grants, GroupGrant(w.sub, w.gid)))
  {
  }

  lemma MoveSourceGrant(s: State, t: Token, w: Worker, w': Worker, sid: Sid)
    requires Move(s, t, w, w')
    ensures Lookup(w'.sourceGrants, sid) == Lookup(w.sourceGrants, sid)
            || (w.pc.GuardingSources? && Lookup(w'.sourceGrants, sid) == Lookup(s.grants, SourceGrant(w.sub, sid)))
  {
  }

  lemma ActorKeepsCaptures(s: State, a: Action, s': State, t: Token)
    requires Writes(s, a, s') && t in s.workers && Actor(a) == Some(t) && !a.Work?
    ensures t in s'.workers && SameCaptures(s.workers[t], s'.workers[t]) && SameJob(s.workers[t], s'.workers[t])
  {
  }

  /** Only a worker's own local step captures anything. */
  lemma StepCaptures(s: State, a: Action, s': State, t: Token)
    requires Writes(s, a, s') && t in s'.workers && !(a.Work? && a.token == t)
    ensures t !in s.workers ==> NoCaptures(s'.workers[t])
    ensures t in s.workers ==> SameCaptures(s.workers[t], s'.workers[t]) && SameJob(s.workers[t], s'.workers[t])
  {
    if t !in s.workers { OnlySpawnAdds(s, a, s', t); }
    else if Actor(a) != Some(t) { OthersUntouched(s, a, s', t); }
    else { ActorKeepsCaptures(s, a, s', t); }
  }

  lemma {:induction false} SnapWasRead(ss: seq<State>, acts: seq<Action>, i: nat, t: Token)
    requires IsRun(ss, acts) && i < |ss| && t in ss[i].workers && ss[i].workers[t].snap.Some?
    ensures exists h :: 0 <= h <= i && MetaRead(ss, h, t, ss[i].workers[t].gid, ss[i].workers[t].snap.value)
  {
    assert i > 0;
    assert StepAt(ss, acts, i - 1);
    var s, a := ss[i - 1], acts[i - 1];
    if a.Work? && a.token == t {
      MoveSnap(s, t, s.workers[t], a.to);
      if a.to.snap == s.workers[t].snap { SnapWasRead(ss, acts, i - 1, t); }
      else { assert MetaRead(ss, i - 1, t, a.to.gid, a.to.snap.value); }
    } else {
      StepCaptures(s, a, ss[i], t);
      SnapWasRead(ss, acts, i - 1, t);
    }
  }

  lemma {:induction false} LedgerWasRead(ss: seq<State>, acts: seq<Action>, i: nat, t: Token)
    requires IsRun(ss, acts) && i < |ss| && t in ss[i].workers && ss[i].workers[t].ledger.Some?
    ensures var w := ss[i].workers[t];
            exists h :: 0 <= h <= i && LedgerRead(ss, h, t, (w.gid, w.bid), w.ledger.value)
  {
    assert i > 0;
    assert StepAt(ss, acts, i - 1);
    var s, a := ss[i - 1], acts[i - 1];
    if a.Work? && a.token == t {
      MoveSnap(s, t, s.workers[t], a.to);
      MoveLedger(s, t, s.workers[t], a.to);
      if a.to.ledger == s.workers[t].ledger { LedgerWasRead(ss, acts, i - 1, t); }
      else { assert LedgerRead(ss, i - 1, t, (a.to.gid, a.to.bid), a.to.ledger.value); }
    } else {
      StepCaptures(s, a, ss[i], t);
      LedgerWasRead(ss, acts, i - 1, t);
    }
  }

  lemma {:induction false} GrantWasRead(ss: seq<State>, acts: seq<Action>, i: nat, t: Token)
    requires IsRun(ss, acts) && i < |ss| && t in ss[i].workers && ss[i].workers[t].grant.Some?
    ensures var w := ss[i].workers[t];
            exists h :: 0 <= h <= i && GrantRead(ss, h, t, GroupGrant(w.sub, w.gid), w.grant.value)
  {
    assert i > 0;
    assert StepAt(ss, acts, i - 1);
    var s, a := ss[i - 1], acts[i - 1];
    if a.Work? && a.token == t {
      MoveSnap(s, t, s.workers[t], a.to);
      MoveGrant(s, t, s.workers[t], a.to);
      if a.to.grant == s.workers[t].grant { GrantWasRead(ss, acts, i - 1, t); }
      else { assert GrantRead(ss, i - 1, t, GroupGrant(a.to.sub, a.to.gid), a.to.grant.value); }
    } else {
      StepCaptures(s, a, ss[i], t);
      GrantWasRead(ss, acts, i - 1, t);
    }
  }

  lemma {:induction false} SourceGrantWasRead(ss: seq<State>, acts: seq<Action>, i: nat, t: Token, sid: Sid)
    requires IsRun(ss, acts) && i < |ss| && t in ss[i].workers && sid in ss[i].workers[t].sourceGrants
    ensures var w := ss[i].workers[t];
            exists h :: 0 <= h <= i && GrantRead(ss, h, t, SourceGrant(w.sub, sid), w.sourceGrants[sid])
  {
    assert i > 0;
    assert StepAt(ss, acts, i - 1);
    var s, a := ss[i - 1], acts[i - 1];
    if a.Work? && a.token == t {
      MoveSnap(s, t, s.workers[t], a.to);
      MoveSourceGrant(s, t, s.workers[t], a.to, sid);
      if Lookup(a.to.sourceGrants, sid) == Lookup(s.workers[t].sourceGrants, sid) {
        SourceGrantWasRead(ss, acts, i - 1, t, sid);
      } else {
        assert GrantRead(ss, i - 1, t, SourceGrant(a.to.sub, sid), a.to.sourceGrants[sid]);
      }
    } else {
      StepCaptures(s, a, ss[i], t);
      SourceGrantWasRead(ss, acts, i - 1, t, sid);
    }
  }

  // ---- the ledger row ----

  /** A ledger row changes only its status and its notes. */
  predicate SameEntry(l: Ledger, l': Ledger) {
    l'.(status := l.status, note := l.note) == l
  }

  lemma OwnerKeepsEntry(s: State, a: Action, s': State, gb: (Gid, Bid))
    requires Writes(s, a, s') && (a.Claim? || a.EditLedger?) && gb in s.ledgers
    ensures gb in s'.ledgers && SameEntry(s.ledgers[gb], s'.ledgers[gb])
  {
  }

  lemma ExitKeepsEntry(s: State, a: Action, s': State, gb: (Gid, Bid))
    requires Writes(s, a, s') && (a.Commit? || a.Fail?) && gb in s.ledgers
    ensures gb in s'.ledgers && SameEntry(s.ledgers[gb], s'.ledgers[gb])
  {
  }

  lemma StepKeepsEntry(s: State, a: Action, s': State, gb: (Gid, Bid))
    requires Writes(s, a, s') && gb in s.ledgers
    ensures gb in s'.ledgers && SameEntry(s.ledgers[gb], s'.ledgers[gb])
  {
    if a.Claim? || a.EditLedger? { OwnerKeepsEntry(s, a, s', gb); }
    else if a.Commit? || a.Fail? { ExitKeepsEntry(s, a, s', gb); }
    else { LedgersKept(s, a, s'); }
  }

  lemma {:induction false} LedgerEntryStays(ss: seq<State>, acts: seq<Action>, i: nat, j: nat, gb: (Gid, Bid))
    requires IsRun(ss, acts) && i <= j < |ss| && gb in ss[i].ledgers
    ensures gb in ss[j].ledgers && SameEntry(ss[i].ledgers[gb], ss[j].ledgers[gb])
    decreases j
  {
    if i < j {
      LedgerEntryStays(ss, acts, i, j - 1, gb);
      assert StepAt(ss, acts, j - 1);
      StepKeepsEntry(ss[j - 1], acts[j - 1], ss[j], gb);
    }
  }

  /** From the review of the snapshot on, the ledger row is one written for its inputs. */
  ghost predicate LedgerForSnap(w: Worker) {
    Stage(w.pc) >= 6 && w.ledger.Some? && w.snap.Some? ==>
      && w.ledger.value.sources == w.snap.value.inputs.sources
      && w.ledger.value.brief == w.snap.value.inputs.brief
  }

  lemma MoveKeepsReview(s: State, t: Token, w: Worker, w': Worker)
    requires Move(s, t, w, w') && LedgerForSnap(w) && (Stage(w.pc) >= 6 ==> w.snap.Some?)
    ensures LedgerForSnap(w')
  {
    match w.pc
    case CheckingAccess(after) => AccessKeepsReview(s, t, w, after, w');
    case Snapshotted =>
    case _ => OthersKeepReview(s, t, w, w');
  }

  lemma AccessKeepsReview(s: State, t: Token, w: Worker, after: After, w': Worker)
    requires w.pc == CheckingAccess(after) && CheckAccess(s, t, w, after, w')
    requires LedgerForSnap(w) && (Stage(w.pc) >= 6 ==> w.snap.Some?)
    ensures LedgerForSnap(w')
  {
  }

  lemma OthersKeepReview(s: State, t: Token, w: Worker, w': Worker)
    requires Move(s, t, w, w') && LedgerForSnap(w) && !w.pc.CheckingAccess? && !w.pc.Snapshotted?
    ensures LedgerForSnap(w')
  {
  }

  lemma ActorKeepsReview(s: State, a: Action, s': State, t: Token)
    requires Writes(s, a, s') && t in s.workers && Actor(a) == Some(t) && !a.Work? && LedgerForSnap(s.workers[t])
    ensures t in s'.workers && LedgerForSnap(s'.workers[t])
  {
    ActorKeepsCaptures(s, a, s', t);
    if a.Put? { } else { ActorStops(s, a, s', t); }
  }

  lemma ActorStops(s: State, a: Action, s': State, t: Token)
    requires Writes(s, a, s') && t in s.workers && Actor(a) == Some(t) && !a.Work? && !a.Put?
    ensures t in s'.workers && Stage(s'.workers[t].pc) <= 3
  {
  }

  lemma {:induction false} RunKeepsReview(ss: seq<State>, acts: seq<Action>, i: nat, t: Token)
    requires IsRun(ss, acts) && i < |ss| && t in ss[i].workers
    ensures LedgerForSnap(ss[i].workers[t])
  {
    assert i > 0;
    assert StepAt(ss, acts, i - 1);
    var s, a := ss[i - 1], acts[i - 1];
    if t !in s.workers { StepCaptures(s, a, ss[i], t); }
    else {
      RunKeepsReview(ss, acts, i - 1, t);
      if Actor(a) != Some(t) { OthersUntouched(s, a, ss[i], t); }
      else if a.Work? {
        WorkerKnows(ss, acts, i - 1, t);
        MoveKeepsReview(s, t, s.workers[t], a.to);
      } else { ActorKeepsReview(s, a, ss[i], t); }
    }
  }

  lemma WorkerKnows(ss: seq<State>, acts: seq<Action>, i: nat, t: Token)
    requires IsRun(ss, acts) && i < |ss| && t in ss[i].workers
    ensures WorkerOk(ss[i], t, ss[i].workers[t])
    ensures Stage(ss[i].workers[t].pc) >= 6 ==> ss[i].workers[t].snap.Some?
  {
    RunInv(ss, acts, i);
    assert WorkerOk(ss[i], t, ss[i].workers[t]);
  }

  // ---- the commit finds every capture unchanged ----

  /** Everything of a group row that a build depends on. */
  predicate SameBuild(m: Meta, m': Meta) {
    m'.status == m.status && m'.build == m.build && m'.revision == m.revision
    && m'.inputs == m.inputs && m'.token == m.token
  }

  ghost predicate MetaAsRead(ss: seq<State>, h: nat, i: nat, t: Token, gid: Gid) {
    && h <= i < |ss| && gid in ss[h].metas && gid in ss[i].metas
    && MetaRead(ss, h, t, gid, ss[h].metas[gid]) && SameBuild(ss[h].metas[gid], ss[i].metas[gid])
  }

  /** Every field the row had is there with its value. */
  predicate FieldsKept(g: Grant, g': Grant) {
    forall f :: f in g ==> f in g' && g'[f] == g[f]
  }

  ghost predicate GrantAsRead(ss: seq<State>, h: nat, i: nat, t: Token, k: GrantKey) {
    && h <= i < |ss| && k in ss[h].grants && k in ss[i].grants
    && GrantRead(ss, h, t, k, ss[h].grants[k]) && FieldsKept(ss[h].grants[k], ss[i].grants[k])
  }

  ghost predicate RowAsRead(ss: seq<State>, h: nat, i: nat, t: Token, sid: Sid) {
    && h <= i < |ss| && sid in ss[h].registry && sid in ss[i].registry
    && ReadEarly(ss, h, t, sid, ss[h].registry[sid]) && ss[i].registry[sid].fields == ss[h].registry[sid].fields
  }

  ghost predicate LedgerAsRead(ss: seq<State>, h: nat, i: nat, t: Token, gb: (Gid, Bid)) {
    && h <= i < |ss| && gb in ss[h].ledgers && gb in ss[i].ledgers
    && LedgerRead(ss, h, t, gb, ss[h].ledgers[gb])
    && ss[i].ledgers[gb].(note := ss[h].ledgers[gb].note) == ss[h].ledgers[gb]
  }

  /** The ledger row describes exactly this build of these inputs. */
  predicate LedgerRecords(l: Ledger, w: Worker, inputs: Inputs, f: Manifest) {
    && l.gid == w.gid && l.bid == w.bid && l.revision == w.revision && l.sub == w.sub
    && l.sources == inputs.sources && l.brief == inputs.brief
    && l.sourceVersions == (map sid | sid in f.sourceVersions :: Some(f.sourceVersions[sid]))
    && l.sourceDescriptions == f.sourceDescriptions
  }

  lemma CommitterKnows(ss: seq<State>, acts: seq<Action>, i: nat, t: Token)
    requires IsRun(ss, acts) && i < |acts| && acts[i].Commit? && acts[i].token == t
    ensures t in ss[i].workers
    ensures var w := ss[i].workers[t];
            && CanCommit(ss[i], w) && w.snap.Some? && w.rows.Keys == MemberIds(w.snap.value.inputs)
            && AllPinned(w.rows) && PlanOk(w, w.plan.value) && LedgerVersionsOk(w) && Stage(w.pc) == 15
            && LedgerForSnap(w) && (w.ledger.Some? ==> LedgerMatches(w.ledger, w))
            && (w.ledger.None? ==> (w.gid, w.bid) !in ss[i].ledgers)
  {
    assert StepAt(ss, acts, i);
    WorkerKnows(ss, acts, i, t);
    RunKeepsReview(ss, acts, i, t);
  }

  lemma CommitFindsMeta(ss: seq<State>, acts: seq<Action>, i: nat, t: Token)
    requires IsRun(ss, acts) && i < |acts| && acts[i].Commit? && acts[i].token == t
    ensures t in ss[i].workers && exists h :: MetaAsRead(ss, h, i, t, ss[i].workers[t].gid)
  {
    CommitterKnows(ss, acts, i, t);
    SnapWasRead(ss, acts, i, t);
    var w := ss[i].workers[t];
    var h :| 0 <= h <= i && MetaRead(ss, h, t, w.gid, w.snap.value);
    assert MetaAsRead(ss, h, i, t, w.gid);
  }

  /** The requester's grants: present at the commit, with every field they had when read. */
  lemma CommitFindsGrants(ss: seq<State>, acts: seq<Action>, i: nat, t: Token)
    requires IsRun(ss, acts) && i < |acts| && acts[i].Commit? && acts[i].token == t
    ensures t in ss[i].workers && AccountDeleted(ss[i].workers[t].sub) !in ss[i].grants
    ensures exists h :: GrantAsRead(ss, h, i, t, GroupGrant(ss[i].workers[t].sub, ss[i].workers[t].gid))
    ensures forall sid :: sid in ss[i].workers[t].rows && NonPublic(ss[i].workers[t].rows, sid) ==>
              exists h :: GrantAsRead(ss, h, i, t, SourceGrant(ss[i].workers[t].sub, sid))
  {
    CommitterKnows(ss, acts, i, t);
    GrantWasRead(ss, acts, i, t);
    var w := ss[i].workers[t];
    var k := GroupGrant(w.sub, w.gid);
    var h :| 0 <= h <= i && GrantRead(ss, h, t, k, w.grant.value);
    assert GrantAsRead(ss, h, i, t, k);
    forall sid | sid in w.rows && NonPublic(w.rows, sid)
      ensures exists h :: GrantAsRead(ss, h, i, t, SourceGrant(w.sub, sid))
    {
      SourceGrantWasRead(ss, acts, i, t, sid);
      var g :| 0 <= g <= i && GrantRead(ss, g, t, SourceGrant(w.sub, sid), w.sourceGrants[sid]);
      assert GrantAsRead(ss, g, i, t, SourceGrant(w.sub, sid));
    }
  }

  lemma CommitFindsRows(ss: seq<State>, acts: seq<Action>, i: nat, t: Token)
    requires IsRun(ss, acts) && i < |acts| && acts[i].Commit? && acts[i].token == t
    ensures t in ss[i].workers && ss[i].workers[t].gid in ss[i].metas
    ensures forall sid :: sid in MemberIds(ss[i].metas[ss[i].workers[t].gid].inputs) ==>
              exists h :: RowAsRead(ss, h, i, t, sid)
  {
    CommitterKnows(ss, acts, i, t);
    var w := ss[i].workers[t];
    forall sid | sid in MemberIds(ss[i].metas[w.gid].inputs) ensures exists h :: RowAsRead(ss, h, i, t, sid) {
      RowsWereRead(ss, acts, i, t, sid);
      var h :| 0 <= h <= i && ReadEarly(ss, h, t, sid, w.rows[sid]);
      assert RowAsRead(ss, h, i, t, sid);
    }
  }

  /** The ledger row, if the build has one, is still the row the worker read, notes apart,
      and it records exactly the inputs and versions that are published. */
  lemma CommitFindsLedger(ss: seq<State>, acts: seq<Action>, i: nat, t: Token)
    requires IsRun(ss, acts) && i < |acts| && acts[i].Commit? && acts[i].token == t
    requires t in ss[i].workers && (ss[i].workers[t].gid, ss[i].workers[t].bid) in ss[i].ledgers
    ensures var w := ss[i].workers[t];
            && (exists h :: LedgerAsRead(ss, h, i, t, (w.gid, w.bid)))
            && w.gid in ss[i].metas && w.plan.Some?
            && LedgerRecords(ss[i].ledgers[(w.gid, w.bid)], w, ss[i].metas[w.gid].inputs, w.plan.value.manifest)
  {
    CommitterKnows(ss, acts, i, t);
    LedgerWasRead(ss, acts, i, t);
    var w := ss[i].workers[t];
    var gb := (w.gid, w.bid);
    var h :| 0 <= h <= i && LedgerRead(ss, h, t, gb, w.ledger.value);
    LedgerEntryStays(ss, acts, h, i, gb);
    assert LedgerAsRead(ss, h, i, t, gb);
    assert RowVersions(w.rows) == map sid | sid in PinnedVersions(w.rows) :: Some(PinnedVersions(w.rows)[sid]);
  }

  // ---- every stage of the work starts from a confirmed capture ----

  /** The checkpoint before `after` read the group row at instant `h` and found the inputs
      and the claim it had captured. */
  ghost predicate Confirmed(ss: seq<State>, h: nat, t: Token, after: After, m: Meta, gid: Gid) {
    && h < |ss| && t in ss[h].workers && ss[h].workers[t].pc == CheckingAccess(after)
    && gid in ss[h].metas && ss[h].metas[gid].inputs == m.inputs && ss[h].metas[gid].token == m.token
    && ss[h].metas[gid].status == Building && ss[h].metas[gid].build == m.build
  }

  /** The worker is past the group row of the checkpoint before `after`. */
  predicate Past(w: Worker, after: After) {
    after != ToSnapshot && ((w.pc.CheckingRows? && w.pc.after == after) || w.pc == Resume(after))
  }

  lemma VerifyEntersNothing(s: State, w: Worker, k: nat, w': Worker, after: After)
    requires w.pc == Verifying(k) && VerifyPut(s, w, k, w')
    ensures !Past(w', after)
  {
  }

  lemma OthersEnterNothing(s: State, t: Token, w: Worker, w': Worker, after: After)
    requires Move(s, t, w, w') && !w.pc.CheckingAccess? && !w.pc.CheckingRows? && !w.pc.Verifying?
    ensures !Past(w', after)
  {
  }

  /** A stage is entered only through its own checkpoint. */
  lemma MoveEnters(s: State, t: Token, w: Worker, w': Worker, after: After)
    requires Move(s, t, w, w') && Past(w', after) && !w.pc.CheckingAccess?
    ensures Past(w, after) && w'.snap == w.snap && w'.gid == w.gid
  {
    match w.pc
    case Verifying(k) => VerifyEntersNothing(s, w, k, w', after);
    case CheckingRows(todo, a) =>
    case _ => OthersEnterNothing(s, t, w, w', after);
  }

  lemma AccessConfirms(s: State, t: Token, w: Worker, after: After, w': Worker, b: After)
    requires w.pc == CheckingAccess(after) && CheckAccess(s, t, w, after, w') && WorkerData(t, w) && Past(w', b)
    ensures b == after && w'.snap == w.snap && w'.gid == w.gid && w.snap.Some? && w.gid in s.metas
    ensures s.metas[w.gid].inputs == w.snap.value.inputs && s.metas[w.gid].token == w.snap.value.token
    ensures s.metas[w.gid].status == Building && s.metas[w.gid].build == w.snap.value.build
  {
  }

  /** No service call of a worker leads past a checkpoint. */
  lemma ActorEntersNothing(s: State, a: Action, s': State, t: Token, after: After)
    requires Writes(s, a, s') && t in s.workers && Actor(a) == Some(t) && !a.Work?
    ensures t in s'.workers && !Past(s'.workers[t], after)
    ensures forall sid :: !PastRow(s'.workers[t], after, sid)
  {
  }

  /** In one step a worker stays past a checkpoint, or its row is confirmed by it. */
  lemma StepConfirms(s: State, a: Action, s': State, t: Token, after: After)
    requires Step(s, a, s') && t in s'.workers && Past(s'.workers[t], after)
    requires t in s.workers ==> WorkerData(t, s.workers[t])
    ensures t in s.workers && s'.workers[t].snap == s.workers[t].snap && s'.workers[t].gid == s.workers[t].gid
    ensures Past(s.workers[t], after) || ConfirmsNow(s, t, s.workers[t], after)
  {
    if t !in s.workers { OnlySpawnAdds(s, a, s', t); }
    else if Actor(a) != Some(t) { OthersUntouched(s, a, s', t); }
    else if !a.Work? {
      ActorEntersNothing(s, a, s', t, after);
    } else if s.workers[t].pc.CheckingAccess? {
      AccessConfirms(s, t, s.workers[t], s.workers[t].pc.after, a.to, after);
    } else {
      MoveEnters(s, t, s.workers[t], a.to, after);
    }
  }

  ghost predicate ConfirmsNow(s: State, t: Token, w: Worker, after: After) {
    && w.pc == CheckingAccess(after) && w.snap.Some? && w.gid in s.metas
    && s.metas[w.gid].inputs == w.snap.value.inputs && s.metas[w.gid].token == w.snap.value.token
    && s.metas[w.gid].status == Building && s.metas[w.gid].build == w.snap.value.build
  }

  /** Loading, composing, uploading and committing each start after a checkpoint that found
      the group's inputs and the claim as captured. */
  lemma {:induction false} StageConfirmed(ss: seq<State>, acts: seq<Action>, i: nat, t: Token, after: After)
    requires IsRun(ss, acts) && i < |ss| && t in ss[i].workers && Past(ss[i].workers[t], after)
    ensures ss[i].workers[t].snap.Some?
    ensures exists h :: 0 <= h <= i && Confirmed(ss, h, t, after, ss[i].workers[t].snap.value, ss[i].workers[t].gid)
  {
    assert i > 0;
    var before := i - 1;
    assert StepAt(ss, acts, before);
    if t in ss[before].workers { WorkerKnows(ss, acts, before, t); }
    StepConfirms(ss[before], acts[before], ss[i], t, after);
    if Past(ss[before].workers[t], after) { StageConfirmed(ss, acts, before, t, after); }
    else { assert Confirmed(ss, before, t, after, ss[i].workers[t].snap.value, ss[i].workers[t].gid); }
  }

  /** ... and each captured source row as it was captured. */
  ghost predicate RowConfirmed(ss: seq<State>, h: nat, t: Token, after: After, sid: Sid, row: SourceRow) {
    && h < |ss| && t in ss[h].workers && ss[h].workers[t].pc.CheckingRows? && ss[h].workers[t].pc.after == after
    && sid in ss[h].registry && ss[h].registry[sid].fields == row.fields
  }

  /** The checkpoint before `after` is done with source `sid`. */
  predicate PastRow(w: Worker, after: After, sid: Sid) {
    after != ToSnapshot && sid in w.rows
    && ((w.pc.CheckingRows? && w.pc.after == after && sid !in w.pc.todo) || w.pc == Resume(after))
  }

  lemma RowsEnter(s: State, w: Worker, todo: set<Sid>, after: After, w': Worker, b: After, sid: Sid)
    requires w.pc == CheckingRows(todo, after) && CheckRows(s, w, todo, after, w') && PastRow(w', b, sid)
    ensures w'.rows == w.rows
    ensures PastRow(w, b, sid) || (b == after && sid in s.registry && s.registry[sid].fields == w.rows[sid].fields)
  {
  }

  lemma AccessEnters(s: State, t: Token, w: Worker, after: After, w': Worker, b: After, sid: Sid)
    requires w.pc == CheckingAccess(after) && CheckAccess(s, t, w, after, w') && WorkerData(t, w)
    ensures !PastRow(w', b, sid)
  {
  }

  lemma MoveEntersRow(s: State, t: Token, w: Worker, w': Worker, after: After, sid: Sid)
    requires Move(s, t, w, w') && WorkerData(t, w) && PastRow(w', after, sid)
    ensures w.pc.CheckingRows? && w'.rows == w.rows
    ensures PastRow(w, after, sid) || (w.pc.after == after && sid in s.registry && s.registry[sid].fields == w.rows[sid].fields)
  {
    match w.pc
    case CheckingRows(todo, a) => RowsEnter(s, w, todo, a, w', after, sid);
    case CheckingAccess(a) => AccessEnters(s, t, w, a, w', after, sid);
    case Verifying(k) => VerifyEntersNothing(s, w, k, w', after);
    case _ => OthersEnterNothing(s, t, w, w', after);
  }

  lemma StepConfirmsRow(s: State, a: Action, s': State, t: Token, after: After, sid: Sid)
    requires Step(s, a, s') && t in s'.workers && PastRow(s'.workers[t], after, sid)
    requires t in s.workers ==> WorkerData(t, s.workers[t])
    ensures t in s.workers && s'.workers[t].rows == s.workers[t].rows
    ensures PastRow(s.workers[t], after, sid)
            || (s.workers[t].pc.CheckingRows? && s.workers[t].pc.after == after
                && sid in s.registry && s.registry[sid].fields == s.workers[t].rows[sid].fields)
  {
    if t !in s.workers { OnlySpawnAdds(s, a, s', t); }
    else if Actor(a) != Some(t) { OthersUntouched(s, a, s', t); }
    else if !a.Work? {
      ActorEntersNothing(s, a, s', t, after);
    } else {
      MoveEntersRow(s, t, s.workers[t], a.to, after, sid);
    }
  }

  lemma {:induction false} StageRowsConfirmed(ss: seq<State>, acts: seq<Action>, i: nat, t: Token, after: After, sid: Sid)
    requires IsRun(ss, acts) && i < |ss| && t in ss[i].workers && PastRow(ss[i].workers[t], after, sid)
    ensures exists h :: 0 <= h <= i && RowConfirmed(ss, h, t, after, sid, ss[i].workers[t].rows[sid])
  {
    assert i > 0;
    var before := i - 1;
    assert StepAt(ss, acts, before);
    if t in ss[before].workers { WorkerKnows(ss, acts, before, t); }
    StepConfirmsRow(ss[before], acts[before], ss[i], t, after, sid);
    if PastRow(ss[before].workers[t], after, sid) { StageRowsConfirmed(ss, acts, before, t, after, sid); }
    else { assert RowConfirmed(ss, before, t, after, sid, ss[i].workers[t].rows[sid]); }
  }
}
