/** Every step of the group protocol keeps the invariant and only moves forward. */
module GroupProof {
  import opened Common
  import opened GroupState
  import opened GroupInvariant

  /** The worker an action is taken by. */
  function Actor(a: Action): Option<Token> {
    match a
    case Work(t, _) => Some(t)
    case Fault(t) => Some(t)
    case Crash(t) => Some(t)
    case Acquire(t, _) => Some(t)
    case Put(t, _) => Some(t)
    case Commit(t, _) => Some(t)
    case Fail(t) => Some(t)
    case _ => None
  }

  // ---- nothing goes back ----

  /** The actions that write a group row. */
  predicate TouchesMetas(a: Action) {
    a.NewGroup? || a.Claim? || a.EditMeta? || a.Acquire? || a.Commit? || a.Fail?
  }

  lemma MetasKept(s: State, a: Action, s': State)
    requires Writes(s, a, s') && !TouchesMetas(a)
    ensures s'.metas == s.metas && s'.claimed == s.claimed
  {
  }

  lemma StoreKept(s: State, a: Action, s': State)
    requires Writes(s, a, s') && !a.Put? && !a.SweepDelete?
    ensures s'.store == s.store
  {
  }

  lemma ExitsKept(s: State, a: Action, s': State)
    requires Writes(s, a, s') && !a.Commit? && !a.Fail?
    ensures s'.exits == s.exits
  {
  }

  /** The actions that write a ledger row. */
  predicate TouchesLedgers(a: Action) {
    a.Claim? || a.EditLedger? || a.Commit? || a.Fail?
  }

  lemma LedgersKept(s: State, a: Action, s': State)
    requires Writes(s, a, s') && !TouchesLedgers(a)
    ensures s'.ledgers == s.ledgers
  {
  }

  lemma OwnerEvolves(s: State, a: Action, s': State)
    requires (a.NewGroup? || a.Claim? || a.EditMeta?) && Writes(s, a, s')
    ensures MetasEvolve(s, s')
  {
  }

  lemma WorkerEvolves(s: State, a: Action, s': State)
    requires (a.Acquire? || a.Commit? || a.Fail?) && Writes(s, a, s')
    requires a.Commit? ==> a.token in s.workers && SnapOk(a.token, s.workers[a.token])
    ensures MetasEvolve(s, s')
  {
  }

  lemma StepMetasEvolve(s: State, a: Action, s': State)
    requires a.Commit? ==> a.token in s.workers && SnapOk(a.token, s.workers[a.token])
    requires Writes(s, a, s')
    ensures MetasEvolve(s, s')
  {
    if !TouchesMetas(a) { MetasKept(s, a, s'); }
    else if a.NewGroup? || a.Claim? || a.EditMeta? { OwnerEvolves(s, a, s'); }
    else { WorkerEvolves(s, a, s'); }
  }

  lemma EvolvedDeadStays(s: State, s': State)
    requires ClaimsOk(s) && MetasEvolve(s, s')
    ensures DeadStays(s, s')
  {
    forall g, b | Dead(s, g, b) ensures Dead(s', g, b) {
      assert MetaOk(s, g, s.metas[g]) && MetaEvolves(s, g, s.metas[g], s'.metas[g]);
    }
  }

  lemma StepStoreStays(s: State, a: Action, s': State)
    requires a.SweepDelete? && a.id in s.sweeps ==> SweepOk(s, s.sweeps[a.id])
    requires Writes(s, a, s') && DeadStays(s, s')
    ensures StoreStays(s, s')
  {
    if a.SweepDelete? { DeleteStays(s, a, s'); }
    else if a.Put? { }
    else { StoreKept(s, a, s'); }
  }

  lemma DeleteStays(s: State, a: Action, s': State)
    requires a.SweepDelete? && a.id in s.sweeps && SweepOk(s, s.sweeps[a.id])
    requires StepDelete(s, a.id, a.keys, s') && DeadStays(s, s')
    ensures StoreStays(s, s')
  {
  }

  lemma StepTablesGrow(s: State, a: Action, s': State)
    requires Writes(s, a, s')
    ensures TablesGrow(s, s')
  {
    ClockGrows(s, a, s');
    if TouchesMetas(a) { TouchGrows(s, a, s'); } else { MetasKept(s, a, s'); }
    if TouchesLedgers(a) { LedgersGrow(s, a, s'); } else { LedgersKept(s, a, s'); }
  }

  lemma ClockGrows(s: State, a: Action, s': State)
    requires Writes(s, a, s')
    ensures s.clock <= s'.clock
  {
    if a.Tick? { } else if OfWorker(a) { WorkerKeepsClock(s, a, s'); } else { OthersKeepWorkers(s, a, s'); }
  }

  predicate OfWorker(a: Action) {
    a.Spawn? || a.Work? || a.Fault? || a.Crash? || a.Acquire? || a.Put? || a.Commit? || a.Fail?
  }

  lemma WorkerKeepsClock(s: State, a: Action, s': State)
    requires OfWorker(a) && Writes(s, a, s')
    ensures s'.clock == s.clock && s.workers.Keys <= s'.workers.Keys
  {
  }

  lemma OthersKeepWorkers(s: State, a: Action, s': State)
    requires !OfWorker(a) && !a.Tick? && Writes(s, a, s')
    ensures s'.clock == s.clock && s'.workers == s.workers
  {
  }

  lemma TouchGrows(s: State, a: Action, s': State)
    requires TouchesMetas(a) && Writes(s, a, s')
    ensures s.claimed <= s'.claimed && s.metas.Keys <= s'.metas.Keys
  {
  }

  lemma LedgersGrow(s: State, a: Action, s': State)
    requires TouchesLedgers(a) && Writes(s, a, s')
    ensures forall gb :: gb in s.claimed ==> (gb in s.ledgers <==> gb in s'.ledgers)
  {
  }

  /** A worker keeps its identity, and what it acquired. */
  ghost predicate SameClaim(w: Worker, w': Worker) {
    && w'.gid == w.gid && w'.bid == w.bid && w'.started == w.started
    && (w.acquired.Some? ==> w'.acquired == w.acquired)
  }

  lemma MoveKeepsClaim(s: State, t: Token, w: Worker, w': Worker)
    requires Move(s, t, w, w')
    ensures SameClaim(w, w')
  {
  }

  lemma OthersUntouched(s: State, a: Action, s': State, t: Token)
    requires t in s.workers && Actor(a) != Some(t) && Writes(s, a, s')
    ensures t in s'.workers && s'.workers[t] == s.workers[t]
  {
  }

  lemma ActorKeepsClaim(s: State, a: Action, s': State, t: Token)
    requires t in s.workers && (s.workers[t].pc.Acquiring? ==> s.workers[t].acquired.None?)
    requires Actor(a) == Some(t) && !a.Work? && Writes(s, a, s')
    ensures t in s'.workers && SameClaim(s.workers[t], s'.workers[t])
  {
  }

  lemma StepKeepsClaim(s: State, a: Action, s': State, t: Token)
    requires t in s.workers && (s.workers[t].pc.Acquiring? ==> s.workers[t].acquired.None?) && Step(s, a, s')
    ensures t in s'.workers && SameClaim(s.workers[t], s'.workers[t])
  {
    if Actor(a) != Some(t) { OthersUntouched(s, a, s', t); }
    else if a.Work? { MoveKeepsClaim(s, t, s.workers[t], a.to); }
    else { ActorKeepsClaim(s, a, s', t); }
  }

  /** Only an acquisition writes a token, and only the acquiring worker's own. */
  lemma StepTokens(s: State, a: Action, s': State, g: Gid)
    requires g in s.metas && Writes(s, a, s')
    ensures g in s'.metas
    ensures s'.metas[g].token == s.metas[g].token || s'.metas[g].token.None?
            || (a.Acquire? && a.token in s.workers && s.workers[a.token].pc.Acquiring? && s'.metas[g].token == Some(a.token))
  {
    if !TouchesMetas(a) { MetasKept(s, a, s'); }
    else { TouchTokens(s, a, s', g); }
  }

  lemma TouchTokens(s: State, a: Action, s': State, g: Gid)
    requires g in s.metas && TouchesMetas(a) && Writes(s, a, s')
    ensures g in s'.metas
    ensures s'.metas[g].token == s.metas[g].token || s'.metas[g].token.None?
            || (a.Acquire? && a.token in s.workers && s.workers[a.token].pc.Acquiring? && s'.metas[g].token == Some(a.token))
  {
  }

  lemma StepKeepsFence(s: State, a: Action, s': State, t: Token)
    requires Fenced(s, t) && WorkerData(t, s.workers[t]) && Step(s, a, s') && MetasEvolve(s, s')
    requires (s.workers[t].gid, s.workers[t].bid) in s.claimed && s.workers[t].gid in s.metas
    ensures Fenced(s', t)
  {
    var w := s.workers[t];
    StepKeepsClaim(s, a, s', t);
    StepTokens(s, a, s', w.gid);
    assert MetaEvolves(s, w.gid, s.metas[w.gid], s'.metas[w.gid]);
  }

  lemma StepExits(s: State, a: Action, s': State)
    requires a.Commit? ==> a.token in s.workers && SnapOk(a.token, s.workers[a.token])
    requires Writes(s, a, s')
    ensures s.workers.Keys <= s'.workers.Keys && s.exits <= s'.exits
    ensures forall i :: |s.exits| <= i < |s'.exits| ==> !Fenced(s, s'.exits[i].token)
  {
    WorkersGrow(s, a, s');
    if a.Commit? || a.Fail? { NewExits(s, a, s'); } else { ExitsKept(s, a, s'); }
  }

  lemma WorkersGrow(s: State, a: Action, s': State)
    requires Writes(s, a, s')
    ensures s.workers.Keys <= s'.workers.Keys
  {
    if a.Tick? { } else if OfWorker(a) { WorkerKeepsClock(s, a, s'); } else { OthersKeepWorkers(s, a, s'); }
  }

  lemma NewExits(s: State, a: Action, s': State)
    requires a.Commit? || a.Fail?
    requires a.Commit? ==> a.token in s.workers && SnapOk(a.token, s.workers[a.token])
    requires Writes(s, a, s')
    ensures s.exits <= s'.exits
    ensures forall i :: |s.exits| <= i < |s'.exits| ==> !Fenced(s, s'.exits[i].token)
  {
  }

  lemma StepProgresses(s: State, a: Action, s': State)
    requires Inv(s) && Step(s, a, s')
    ensures Progress(s, s') && MetasEvolve(s, s')
  {
    if Actor(a).Some? { assert WorkerOk(s, Actor(a).value, s.workers[Actor(a).value]); }
    StepMetasEvolve(s, a, s');
    EvolvedDeadStays(s, s');
    StepStoreStays(s, a, s');
    StepTablesGrow(s, a, s');
    StepExits(s, a, s');
    StepKeepsFences(s, a, s');
  }

  lemma StepKeepsFences(s: State, a: Action, s': State)
    requires ClaimsOk(s) && WorkersOk(s) && Step(s, a, s') && MetasEvolve(s, s')
    ensures forall t :: Fenced(s, t) ==> Fenced(s', t)
  {
    forall t | Fenced(s, t) ensures Fenced(s', t) {
      assert WorkerOk(s, t, s.workers[t]);
      StepKeepsFence(s, a, s', t);
    }
  }

  // ---- the tables ----

  lemma StepKeepsClaims(s: State, a: Action, s': State)
    requires Inv(s) && Step(s, a, s') && Progress(s, s') && MetasEvolve(s, s')
    ensures ClaimsOk(s')
  {
    StepKeepsRows(s, a, s');
    if a.Put? { assert WorkerOk(s, a.token, s.workers[a.token]); PutKey(s, a, s'); }
    forall k | k in s'.store ensures (k.gid, k.bid) in s'.claimed { StepKeysClaimed(s, a, s', k); }
  }

  lemma StepKeepsRows(s: State, a: Action, s': State)
    requires ClaimsOk(s) && Writes(s, a, s') && TablesGrow(s, s') && MetasEvolve(s, s')
    ensures forall gb :: gb in s'.claimed ==> gb.0 in s'.metas
    ensures forall gb :: gb in s'.ledgers ==> gb in s'.claimed
    ensures forall g :: g in s'.metas ==> MetaOk(s', g, s'.metas[g])
  {
    forall gb | gb in s'.claimed ensures gb.0 in s'.metas { StepClaimsRows(s, a, s', gb); }
    forall gb | gb in s'.ledgers ensures gb in s'.claimed { StepLedgersClaimed(s, a, s', gb); }
    forall g | g in s'.metas ensures MetaOk(s', g, s'.metas[g]) { StepMetaOk(s, a, s', g); }
  }

  lemma StepClaimsRows(s: State, a: Action, s': State, gb: (Gid, Bid))
    requires ClaimsOk(s) && Writes(s, a, s') && gb in s'.claimed
    ensures gb.0 in s'.metas
  {
    if !TouchesMetas(a) {
      MetasKept(s, a, s');
    } else {
      TouchClaims(s, a, s', gb);
      assert gb in s.claimed ==> gb.0 in s.metas;
    }
  }

  lemma TouchClaims(s: State, a: Action, s': State, gb: (Gid, Bid))
    requires TouchesMetas(a) && Writes(s, a, s') && gb in s'.claimed
    ensures s.metas.Keys <= s'.metas.Keys && (gb in s.claimed || gb.0 in s'.metas)
  {
  }

  lemma StepLedgersClaimed(s: State, a: Action, s': State, gb: (Gid, Bid))
    requires ClaimsOk(s) && Writes(s, a, s') && TablesGrow(s, s') && gb in s'.ledgers
    ensures gb in s'.claimed
  {
    if TouchesLedgers(a) { TouchLedgersClaimed(s, a, s', gb); } else { LedgersKept(s, a, s'); }
  }

  lemma TouchLedgersClaimed(s: State, a: Action, s': State, gb: (Gid, Bid))
    requires ClaimsOk(s) && TouchesLedgers(a) && Writes(s, a, s') && gb in s'.ledgers
    ensures gb in s'.claimed
  {
  }

  lemma StepMetaOk(s: State, a: Action, s': State, g: Gid)
    requires ClaimsOk(s) && Writes(s, a, s') && MetasEvolve(s, s') && g in s'.metas
    ensures MetaOk(s', g, s'.metas[g])
  {
    if g in s.metas {
      assert MetaOk(s, g, s.metas[g]) && MetaEvolves(s, g, s.metas[g], s'.metas[g]);
    }
    if !TouchesMetas(a) { MetasKept(s, a, s'); }
    else { TouchBuild(s, a, s', g); }
  }

  /** A build name put into a row is claimed, and BUILDING comes with one. */
  lemma TouchBuild(s: State, a: Action, s': State, g: Gid)
    requires TouchesMetas(a) && Writes(s, a, s') && g in s'.metas
    ensures g !in s.metas ==> s'.metas[g].build.None? && s'.metas[g].active.None? && s'.metas[g].status != Building
    ensures g in s.metas ==> s'.metas[g].build == s.metas[g].build
                             || (s'.metas[g].build.Some? && (g, s'.metas[g].build.value) in s'.claimed)
                             || (s'.metas[g].build.None? && s'.metas[g].status != Building)
  {
  }

  /** A worker writes only below its own build's prefix. */
  lemma PutKey(s: State, a: Action, s': State)
    requires a.Put? && Writes(s, a, s') && WorkerData(a.token, s.workers[a.token])
    ensures var w := s.workers[a.token];
            var u := w.plan.value.uploads[w.pc.k];
            u.key.gid == w.gid && u.key.bid == w.bid
  {
  }

  lemma StepKeysClaimed(s: State, a: Action, s': State, k: Key)
    requires ClaimsOk(s) && Writes(s, a, s') && k in s'.store
    requires a.Put? ==>
               var w := s.workers[a.token];
               var u := w.plan.value.uploads[w.pc.k];
               u.key.gid == w.gid && u.key.bid == w.bid && (w.gid, w.bid) in s.claimed
    requires TablesGrow(s, s')
    ensures (k.gid, k.bid) in s'.claimed
  {
    if a.Put? || a.SweepDelete? { } else { StoreKept(s, a, s'); }
  }

  // ---- the workers ----

  lemma EarlyMoveKeepsData(s: State, t: Token, w: Worker, w': Worker)
    requires WorkerData(t, w) && w.started <= s.clock && Move(s, t, w, w')
    requires w.pc.Starting? || w.pc.Leasing? || w.pc.Acquiring? || w.pc.ReadingLedger? || w.pc.Failing?
    ensures WorkerData(t, w')
  {
  }

  lemma ResumeKeepsData(t: Token, w: Worker, after: After, w': Worker)
    requires WorkerData(t, w) && Stage(w.pc) == CheckStage(after)
    requires w.snap.Some? && w' == w.(pc := Resume(after))
    ensures WorkerData(t, w')
  {
  }

  lemma CheckClaimKeepsData(s: State, t: Token, w: Worker, after: After, w': Worker)
    requires WorkerData(t, w) && w.pc == CheckingClaim(after) && CheckClaim(s, t, w, after, w')
    ensures WorkerData(t, w')
  {
  }

  lemma FirstReadKeepsData(t: Token, w: Worker, m: Meta, after: After)
    requires WorkerData(t, w) && w.pc == CheckingAccess(after) && w.snap.None?
    requires Claimed(Some(m), w.bid, w.revision, Some(t))
    ensures WorkerData(t, w.(snap := Some(m), pc := Resume(after)))
  {
  }

  lemma AccessKeepsData(t: Token, w: Worker, after: After)
    requires WorkerData(t, w) && w.pc == CheckingAccess(after) && w.snap.Some?
    ensures WorkerData(t, w.(pc := CheckingRows(w.rows.Keys, after)))
  {
  }

  lemma GiveUpKeepsData(t: Token, w: Worker, pc: Pc)
    requires WorkerData(t, w) && w.acquired.Some? && (pc == Failing || pc == Ended)
    ensures WorkerData(t, w.(pc := pc))
  {
  }

  lemma CheckAccessKeepsData(s: State, t: Token, w: Worker, after: After, w': Worker)
    requires WorkerData(t, w) && w.pc == CheckingAccess(after) && CheckAccess(s, t, w, after, w')
    ensures WorkerData(t, w')
  {
    assert w.acquired.Some?;
    GiveUpKeepsData(t, w, Failing);
    GiveUpKeepsData(t, w, Ended);
    if w.snap.Some? {
      AccessKeepsData(t, w, after);
    } else if w'.snap.Some? {
      FirstReadKeepsData(t, w, s.metas[w.gid], after);
    }
  }

  lemma CheckRowsKeepsData(s: State, t: Token, w: Worker, todo: set<Sid>, after: After, w': Worker)
    requires WorkerData(t, w) && w.pc == CheckingRows(todo, after) && CheckRows(s, w, todo, after, w')
    ensures WorkerData(t, w')
  {
    if todo == {} { ResumeKeepsData(t, w, after, w'); }
    else { var sid :| sid in todo && CheckRow(s, w, todo, after, sid, w'); CheckRowKeepsData(s, t, w, todo, after, sid, w'); }
  }

  lemma CheckRowKeepsData(s: State, t: Token, w: Worker, todo: set<Sid>, after: After, sid: Sid, w': Worker)
    requires WorkerData(t, w) && w.pc == CheckingRows(todo, after) && CheckRow(s, w, todo, after, sid, w')
    ensures WorkerData(t, w')
  {
  }

  lemma SnapshotMoveKeepsData(s: State, t: Token, w: Worker, w': Worker)
    requires WorkerData(t, w) && w.pc == Snapshotted && ReviewSnapshot(w, w')
    ensures WorkerData(t, w')
  {
  }

  lemma ReadRowsKeepsData(s: State, t: Token, w: Worker, todo: set<Sid>, w': Worker)
    requires WorkerData(t, w) && w.pc == ReadingRows(todo) && ReadRows(s, w, todo, w')
    ensures WorkerData(t, w')
  {
  }

  lemma GuardMoveKeepsData(s: State, t: Token, w: Worker, w': Worker)
    requires WorkerData(t, w) && Move(s, t, w, w')
    requires w.pc.GuardingAccount? || w.pc.GuardingGrant?
    ensures WorkerData(t, w')
  {
  }

  lemma GuardSourcesKeepsData(s: State, t: Token, w: Worker, w': Worker)
    requires WorkerData(t, w) && w.pc.GuardingSources? && Move(s, t, w, w')
    ensures WorkerData(t, w')
  {
    var todo := w.pc.todo;
    if todo != {} {
      var sid :| sid in todo && ReadSourceGrant(s, w, todo, sid, w');
      SourceGrantKeepsData(s, t, w, todo, sid, w');
    }
  }

  lemma SourceGrantKeepsData(s: State, t: Token, w: Worker, todo: set<Sid>, sid: Sid, w': Worker)
    requires WorkerData(t, w) && w.pc == GuardingSources(todo) && ReadSourceGrant(s, w, todo, sid, w')
    ensures WorkerData(t, w')
  {
  }

  lemma LoadKeepsData(s: State, t: Token, w: Worker, w': Worker)
    requires WorkerData(t, w) && w.pc.Loading? && Move(s, t, w, w')
    ensures WorkerData(t, w')
  {
  }

  lemma ComposeKeepsData(t: Token, w: Worker, w': Worker)
    requires WorkerData(t, w) && w.pc.Composing? && Compose(w, w')
    ensures WorkerData(t, w')
  {
  }

  lemma VerifyKeepsData(s: State, t: Token, w: Worker, k: nat, w': Worker)
    requires WorkerData(t, w) && w.pc == Verifying(k) && VerifyPut(s, w, k, w')
    ensures WorkerData(t, w')
  {
  }

  lemma PutMoveKeepsData(s: State, t: Token, w: Worker, w': Worker)
    requires WorkerData(t, w) && Move(s, t, w, w') && (w.pc.Putting? || w.pc.Committing?)
    ensures WorkerData(t, w')
  {
  }

  lemma CheckMoveKeepsData(s: State, t: Token, w: Worker, w': Worker)
    requires WorkerData(t, w) && Move(s, t, w, w')
    requires w.pc.CheckingClaim? || w.pc.CheckingAccess? || w.pc.CheckingRows?
    ensures WorkerData(t, w')
  {
    match w.pc
    case CheckingClaim(after) => CheckClaimKeepsData(s, t, w, after, w');
    case CheckingAccess(after) => CheckAccessKeepsData(s, t, w, after, w');
    case CheckingRows(todo, after) => CheckRowsKeepsData(s, t, w, todo, after, w');
  }

  lemma LateMoveKeepsData(s: State, t: Token, w: Worker, w': Worker)
    requires WorkerData(t, w) && Move(s, t, w, w')
    requires w.pc.Composing? || w.pc.Verifying? || w.pc.Putting? || w.pc.Committing?
    ensures WorkerData(t, w')
  {
    match w.pc
    case Composing => ComposeKeepsData(t, w, w');
    case Verifying(k) => VerifyKeepsData(s, t, w, k, w');
    case Putting(k) => PutMoveKeepsData(s, t, w, w');
    case Committing => PutMoveKeepsData(s, t, w, w');
  }

  lemma MoveKeepsData(s: State, t: Token, w: Worker, w': Worker)
    requires WorkerData(t, w) && w.started <= s.clock && Move(s, t, w, w')
    ensures WorkerData(t, w')
  {
    match w.pc
    case CheckingClaim(_) => CheckMoveKeepsData(s, t, w, w');
    case CheckingAccess(_) => CheckMoveKeepsData(s, t, w, w');
    case CheckingRows(_, _) => CheckMoveKeepsData(s, t, w, w');
    case Snapshotted => SnapshotMoveKeepsData(s, t, w, w');
    case ReadingRows(todo) => ReadRowsKeepsData(s, t, w, todo, w');
    case GuardingAccount => GuardMoveKeepsData(s, t, w, w');
    case GuardingGrant => GuardMoveKeepsData(s, t, w, w');
    case GuardingSources(todo) => GuardSourcesKeepsData(s, t, w, w');
    case Loading => LoadKeepsData(s, t, w, w');
    case Composing => LateMoveKeepsData(s, t, w, w');
    case Verifying(_) => LateMoveKeepsData(s, t, w, w');
    case Putting(_) => LateMoveKeepsData(s, t, w, w');
    case Committing => LateMoveKeepsData(s, t, w, w');
    case Ended =>
    case _ => EarlyMoveKeepsData(s, t, w, w');
  }

  /** A worker that takes no step keeps what it knows about the tables. */
  lemma IdleWorkerOk(s: State, s': State, t: Token, w: Worker)
    requires WorkerOk(s, t, w) && ClaimsOk(s) && Progress(s, s') && MetasEvolve(s, s')
    ensures WorkerOk(s', t, w)
  {
    if w.acquired.Some? { IdleLeaseOk(s, s', w); }
    else if w.gid in s.metas { }
    if Stage(w.pc) >= 13 { IdleStored(s, s', t, w); }
  }

  lemma IdleLeaseOk(s: State, s': State, w: Worker)
    requires LeaseOk(s, w) && w.acquired.Some? && (w.gid, w.bid) in s.claimed && ClaimsOk(s) && MetasEvolve(s, s')
    ensures LeaseOk(s', w)
  {
    assert w.gid in s.metas;
    assert MetaEvolves(s, w.gid, s.metas[w.gid], s'.metas[w.gid]);
  }

  lemma IdleStored(s: State, s': State, t: Token, w: Worker)
    requires WorkerStored(s, w) && WorkerData(t, w) && Progress(s, s')
    ensures WorkerStored(s', w)
  {
    if Stage(w.pc) >= 13 && !Dead(s', w.gid, w.bid) {
      forall i | 0 <= i < Cursor(w) && i < |w.plan.value.uploads| ensures Stored(s', w.plan.value.uploads[i]) {
        PlanKeys(w, w.plan.value, i);
        assert Stored(s, w.plan.value.uploads[i]);
      }
    }
  }

  lemma PlanKeys(w: Worker, p: Plan, i: nat)
    requires PlanOk(w, p) && i < |p.uploads|
    ensures p.uploads[i].key.gid == w.gid && p.uploads[i].key.bid == w.bid
  {
  }

  lemma CheckLearns(s: State, t: Token, w: Worker, after: After, w': Worker)
    requires w.pc == CheckingAccess(after) && CheckAccess(s, t, w, after, w')
    ensures w'.acquired == w.acquired && w'.ledger == w.ledger && !w'.pc.Acquiring?
  {
  }

  lemma ReadLearns(s: State, t: Token, w: Worker, w': Worker)
    requires Move(s, t, w, w') && (w.pc.ReadingRows? || w.pc.GuardingAccount? || w.pc.GuardingGrant? || w.pc.GuardingSources?)
    ensures w'.acquired == w.acquired && w'.ledger == w.ledger && !w'.pc.Acquiring?
  {
  }

  lemma WorkLearns(s: State, t: Token, w: Worker, w': Worker)
    requires Move(s, t, w, w')
    requires w.pc.Snapshotted? || w.pc.Loading? || w.pc.Composing? || w.pc.Putting? || w.pc.Verifying? || w.pc.Committing?
    ensures w'.acquired == w.acquired && w'.ledger == w.ledger && !w'.pc.Acquiring?
  {
  }

  lemma LateLearns(s: State, t: Token, w: Worker, w': Worker)
    requires Move(s, t, w, w') && Stage(w.pc) >= 4
    ensures w'.acquired == w.acquired && w'.ledger == w.ledger && !w'.pc.Acquiring?
  {
    match w.pc
    case CheckingAccess(after) => CheckLearns(s, t, w, after, w');
    case CheckingClaim(after) =>
    case CheckingRows(todo, after) =>
    case ReadingRows(_) => ReadLearns(s, t, w, w');
    case GuardingAccount => ReadLearns(s, t, w, w');
    case GuardingGrant => ReadLearns(s, t, w, w');
    case GuardingSources(_) => ReadLearns(s, t, w, w');
    case _ => WorkLearns(s, t, w, w');
  }

  lemma EarlyLearns(s: State, t: Token, w: Worker, w': Worker)
    requires Move(s, t, w, w') && Stage(w.pc) < 4
    ensures w'.acquired == w.acquired && (w'.pc.Acquiring? ==> w'.pc.now == s.clock / 1000)
    ensures Stage(w'.pc) >= 4 && w'.ledger.None? ==> w.pc == ReadingLedger && (w.gid, w.bid) !in s.ledgers
  {
  }

  /** What a local step learns from the tables it reads. */
  lemma MoveLearns(s: State, t: Token, w: Worker, w': Worker)
    requires Move(s, t, w, w')
    ensures w'.acquired == w.acquired && (w'.pc.Acquiring? ==> w'.pc.now == s.clock / 1000)
    ensures Stage(w'.pc) >= 4 && w'.ledger.None? ==>
              (w.pc == ReadingLedger && (w.gid, w.bid) !in s.ledgers) || (Stage(w.pc) >= 4 && w.ledger.None?)
  {
    if Stage(w.pc) >= 4 { LateLearns(s, t, w, w'); } else { EarlyLearns(s, t, w, w'); }
  }

  /** A local step counts an upload as in place only after reading it back. */
  lemma MoveVerifies(s: State, t: Token, w: Worker, w': Worker)
    requires Move(s, t, w, w') && Stage(w'.pc) >= 13
    ensures Stage(w.pc) >= 12 && w'.plan == w.plan && w'.gid == w.gid && w'.bid == w.bid
    ensures || Cursor(w') <= Cursor(w)
            || (w.pc.Verifying? && w.plan.Some? && w.pc.k < |w.plan.value.uploads| && Cursor(w') <= w.pc.k + 1
                && Stored(s, w.plan.value.uploads[w.pc.k]))
  {
    match w.pc
    case Verifying(k) => VerifyVerifies(s, w, k, w');
    case _ => OtherMoves(s, t, w, w');
  }

  lemma VerifyVerifies(s: State, w: Worker, k: nat, w': Worker)
    requires w.pc == Verifying(k) && VerifyPut(s, w, k, w') && Stage(w'.pc) >= 13
    ensures w'.plan == w.plan && w'.gid == w.gid && w'.bid == w.bid
    ensures w.plan.Some? && k < |w.plan.value.uploads| && Cursor(w') <= k + 1 && Stored(s, w.plan.value.uploads[k])
  {
  }

  lemma OtherMoves(s: State, t: Token, w: Worker, w': Worker)
    requires Move(s, t, w, w') && Stage(w'.pc) >= 13 && !w.pc.Verifying?
    ensures Stage(w.pc) >= 12 && w'.plan == w.plan && w'.gid == w.gid && w'.bid == w.bid && Cursor(w') <= Cursor(w)
  {
    match w.pc
    case CheckingClaim(after) => ClaimMoves(s, t, w, after, w');
    case CheckingAccess(after) => AccessMoves(s, t, w, after, w');
    case CheckingRows(todo, after) => RowMoves(s, w, todo, after, w');
    case _ =>
  }

  lemma ClaimMoves(s: State, t: Token, w: Worker, after: After, w': Worker)
    requires w.pc == CheckingClaim(after) && CheckClaim(s, t, w, after, w') && Stage(w'.pc) >= 13
    ensures Stage(w.pc) >= 12 && w'.plan == w.plan && w'.gid == w.gid && w'.bid == w.bid && Cursor(w') <= Cursor(w)
  {
  }

  lemma RowMoves(s: State, w: Worker, todo: set<Sid>, after: After, w': Worker)
    requires w.pc == CheckingRows(todo, after) && CheckRows(s, w, todo, after, w') && Stage(w'.pc) >= 13
    ensures Stage(w.pc) >= 12 && w'.plan == w.plan && w'.gid == w.gid && w'.bid == w.bid && Cursor(w') <= Cursor(w)
  {
  }

  lemma AccessMoves(s: State, t: Token, w: Worker, after: After, w': Worker)
    requires w.pc == CheckingAccess(after) && CheckAccess(s, t, w, after, w') && Stage(w'.pc) >= 13
    ensures Stage(w.pc) >= 12 && w'.plan == w.plan && w'.gid == w.gid && w'.bid == w.bid && Cursor(w') <= Cursor(w)
  {
  }

  lemma MoveKeepsTables(s: State, t: Token, w: Worker, w': Worker)
    requires WorkerTables(s, w) && LeaseOk(s, w) && Move(s, t, w, w')
    ensures WorkerTables(s, w') && LeaseOk(s, w')
  {
    MoveKeepsClaim(s, t, w, w');
    MoveLearns(s, t, w, w');
  }

  lemma MoveKeepsStored(s: State, t: Token, w: Worker, w': Worker)
    requires WorkerStored(s, w) && Move(s, t, w, w')
    ensures WorkerStored(s, w')
  {
    if Stage(w'.pc) >= 13 { MoveVerifies(s, t, w, w'); }
  }

  lemma MoveKeepsWorker(s: State, t: Token, w: Worker, w': Worker)
    requires WorkerOk(s, t, w) && Move(s, t, w, w')
    ensures WorkerOk(s, t, w')
  {
    MoveKeepsData(s, t, w, w');
    MoveKeepsTables(s, t, w, w');
    MoveKeepsStored(s, t, w, w');
  }

  lemma StoppedWorkerOk(s: State, t: Token, w: Worker, pc: Pc)
    requires WorkerOk(s, t, w) && (pc == Ended || (pc == Failing && w.acquired.Some?))
    ensures WorkerOk(s, t, w.(pc := pc))
  {
  }

  lemma AcquirerOk(s: State, t: Token, lost: bool, s': State)
    requires StepAcquire(s, t, lost, s') && WorkerOk(s, t, s.workers[t]) && ClaimsOk(s)
    ensures WorkerOk(s', t, s'.workers[t])
  {
  }

  lemma PutterOk(s: State, t: Token, lost: bool, s': State)
    requires StepPut(s, t, lost, s') && WorkerOk(s, t, s.workers[t]) && Progress(s, s') && MetasEvolve(s, s')
    requires ClaimsOk(s)
    ensures WorkerOk(s', t, s'.workers[t])
  {
    var w := s.workers[t];
    if lost {
      StoppedWorkerOk(s, t, w, Failing);
      IdleWorkerOk(s, s', t, w.(pc := Failing));
    } else {
      IdleWorkerOk(s, s', t, w);
      PutAdvances(s', t, w);
    }
  }

  lemma PutAdvances(s: State, t: Token, w: Worker)
    requires WorkerOk(s, t, w) && w.pc.Putting? && w.plan.Some? && w.pc.k < |w.plan.value.uploads|
    requires Stored(s, w.plan.value.uploads[w.pc.k])
    ensures WorkerOk(s, t, w.(pc := NextPut(w, w.pc.k)))
  {
    PutAdvancesData(t, w);
    PutAdvancesStored(s, w);
  }

  lemma PutAdvancesData(t: Token, w: Worker)
    requires WorkerData(t, w) && w.pc.Putting? && w.plan.Some? && w.pc.k < |w.plan.value.uploads|
    ensures WorkerData(t, w.(pc := NextPut(w, w.pc.k)))
  {
  }

  lemma PutAdvancesStored(s: State, w: Worker)
    requires WorkerStored(s, w) && w.pc.Putting? && w.plan.Some? && w.pc.k < |w.plan.value.uploads|
    requires Stored(s, w.plan.value.uploads[w.pc.k])
    ensures WorkerStored(s, w.(pc := NextPut(w, w.pc.k)))
  {
  }

  lemma StopsOrFails(s: State, a: Action, s': State, t: Token)
    requires Writes(s, a, s') && Actor(a) == Some(t) && (a.Fault? || a.Crash? || a.Commit? || a.Fail?)
    requires t in s.workers && (a.Commit? ==> s.workers[t].acquired.Some?)
    ensures t in s'.workers
    ensures var pc := s'.workers[t].pc;
            s'.workers[t] == s.workers[t].(pc := pc) && (pc == Ended || (pc == Failing && s.workers[t].acquired.Some?))
  {
  }

  lemma StopperOk(s: State, a: Action, s': State, t: Token)
    requires Actor(a) == Some(t) && t in s.workers && WorkerOk(s, t, s.workers[t]) && ClaimsOk(s)
    requires (a.Fault? || a.Crash? || a.Commit? || a.Fail?) && Writes(s, a, s') && Progress(s, s') && MetasEvolve(s, s')
    ensures t in s'.workers && WorkerOk(s', t, s'.workers[t])
  {
    StopsOrFails(s, a, s', t);
    StoppedStays(s, s', t, s.workers[t], s'.workers[t].pc);
  }

  lemma StoppedStays(s: State, s': State, t: Token, w: Worker, pc: Pc)
    requires WorkerOk(s, t, w) && ClaimsOk(s) && Progress(s, s') && MetasEvolve(s, s')
    requires pc == Ended || (pc == Failing && w.acquired.Some?)
    ensures WorkerOk(s', t, w.(pc := pc))
  {
    StoppedWorkerOk(s, t, w, pc);
    IdleWorkerOk(s, s', t, w.(pc := pc));
  }

  lemma ActorOk(s: State, a: Action, s': State, t: Token)
    requires Actor(a) == Some(t) && t in s.workers && WorkerOk(s, t, s.workers[t]) && ClaimsOk(s)
    requires Step(s, a, s') && Progress(s, s') && MetasEvolve(s, s')
    ensures t in s'.workers && WorkerOk(s', t, s'.workers[t])
  {
    if a.Work? {
      MoveKeepsWorker(s, t, s.workers[t], a.to);
      IdleWorkerOk(s, s', t, a.to);
    } else if a.Acquire? {
      AcquirerOk(s, t, a.lost, s');
    } else if a.Put? {
      PutterOk(s, t, a.lost, s');
    } else {
      StopperOk(s, a, s', t);
    }
  }

  lemma StepKeepsWorkers(s: State, a: Action, s': State)
    requires Inv(s) && Step(s, a, s') && Progress(s, s') && MetasEvolve(s, s')
    ensures WorkersOk(s')
  {
    forall t | t in s'.workers ensures WorkerOk(s', t, s'.workers[t]) {
      if Actor(a) == Some(t) { assert WorkerOk(s, t, s.workers[t]); ActorOk(s, a, s', t); }
      else if t in s.workers {
        OthersUntouched(s, a, s', t);
        assert WorkerOk(s, t, s.workers[t]);
        IdleWorkerOk(s, s', t, s.workers[t]);
      } else {
        SpawnedIsNew(s, a, s', t);
      }
    }
  }

  lemma SpawnedIsNew(s: State, a: Action, s': State, t: Token)
    requires Writes(s, a, s') && t in s'.workers && t !in s.workers
    ensures WorkerOk(s', t, s'.workers[t]) && s'.workers[t].acquired.None?
  {
    OnlySpawnAdds(s, a, s', t);
    FreshWorkerOk(s', t, a.gid, a.bid, a.revision, a.sub);
  }

  lemma OnlySpawnAdds(s: State, a: Action, s': State, t: Token)
    requires Writes(s, a, s') && t in s'.workers && t !in s.workers
    ensures a.Spawn? && s'.clock == s.clock && s'.workers[t] == NewWorker(a.gid, a.bid, a.revision, a.sub, s.clock)
  {
  }

  lemma FreshWorkerOk(s: State, t: Token, gid: Gid, bid: Bid, revision: nat, sub: Sub)
    ensures WorkerOk(s, t, NewWorker(gid, bid, revision, sub, s.clock)) && NewWorker(gid, bid, revision, sub, s.clock).acquired.None?
  {
  }

  // ---- leases ----

  lemma AcquireKeepsApart(s: State, t: Token, lost: bool, s': State, u: Token)
    requires StepAcquire(s, t, lost, s') && u in s.workers && u != t && LeaseOk(s, s.workers[u])
    ensures Apart(s'.workers[t], s.workers[u])
  {
  }

  lemma StepKeepsGap(s: State, a: Action, s': State)
    requires Inv(s) && Step(s, a, s')
    ensures GapOk(s')
  {
    forall t, u | t in s'.workers && u in s'.workers && t != u
      ensures Apart(s'.workers[t], s'.workers[u])
    {
      PairStaysApart(s, a, s', t, u);
    }
  }

  lemma StepKeepsAcquired(s: State, a: Action, s': State, t: Token)
    requires WorkersOk(s) && Step(s, a, s') && t in s'.workers
    ensures t !in s.workers ==> s'.workers[t].acquired.None?
    ensures t in s.workers ==>
              SameClaim(s.workers[t], s'.workers[t])
              && (s'.workers[t].acquired == s.workers[t].acquired || (a.Acquire? && a.token == t))
  {
    if t in s.workers {
      assert WorkerOk(s, t, s.workers[t]);
      StepKeepsClaim(s, a, s', t);
      if Actor(a) != Some(t) { OthersUntouched(s, a, s', t); }
      else if a.Work? { MoveLearns(s, t, s.workers[t], a.to); }
    } else { SpawnedIsNew(s, a, s', t); }
  }

  lemma PairStaysApart(s: State, a: Action, s': State, t: Token, u: Token)
    requires Inv(s) && Step(s, a, s') && t in s'.workers && u in s'.workers && t != u
    ensures Apart(s'.workers[t], s'.workers[u])
  {
    StepKeepsAcquired(s, a, s', t);
    StepKeepsAcquired(s, a, s', u);
    if t in s.workers && u in s.workers {
      assert WorkerOk(s, t, s.workers[t]) && WorkerOk(s, u, s.workers[u]);
      if a.Acquire? && a.token == t {
        OthersUntouched(s, a, s', u);
        AcquireKeepsApart(s, t, a.lost, s', u);
      } else if a.Acquire? && a.token == u {
        OthersUntouched(s, a, s', t);
        AcquireKeepsApart(s, u, a.lost, s', t);
      } else {
        assert Apart(s.workers[t], s.workers[u]);
      }
    }
  }

  // ---- the active pointer ----

  lemma StepPointers(s: State, a: Action, s': State, g: Gid)
    requires Writes(s, a, s') && g in s'.metas
    ensures g !in s.metas ==> s'.metas[g].active.None?
    ensures g in s.metas && !(a.Commit? && a.token in s.workers && s.workers[a.token].gid == g) ==>
              && s'.metas[g].active == s.metas[g].active
              && (s.metas[g].status == Deleted ==> s'.metas[g].status == Deleted)
  {
    if !TouchesMetas(a) { MetasKept(s, a, s'); }
    else if a.Commit? || a.Fail? || a.Acquire? { ExitPointers(s, a, s', g); }
  }

  lemma ExitPointers(s: State, a: Action, s': State, g: Gid)
    requires (a.Commit? || a.Fail? || a.Acquire?) && Writes(s, a, s') && g in s'.metas
    ensures g in s.metas
    ensures !(a.Commit? && a.token in s.workers && s.workers[a.token].gid == g) ==>
              && s'.metas[g].active == s.metas[g].active
              && (s.metas[g].status == Deleted ==> s'.metas[g].status == Deleted)
  {
  }

  /** What a live build points at stays in place. */
  lemma IntactStays(s: State, s': State, g: Gid, a: Active)
    requires Intact(s, g, a) && StoreStays(s, s') && !Dead(s', g, a.version)
    ensures Intact(s', g, a)
  {
    var m := s.store[ManifestKey(g, a.version)].blob.manifest;
    assert HasDigest(s, m.graphKey, m.graphSha);
    forall f | f in m.files ensures HasDigest(s', m.files[f].key, m.files[f].sha) {
      assert HasDigest(s, m.files[f].key, m.files[f].sha);
    }
  }

  /** All uploads of a plan in place are an intact version. */
  lemma UploadedIntact(s: State, w: Worker)
    requires w.plan.Some? && PlanOk(w, w.plan.value)
    requires forall i :: 0 <= i < |w.plan.value.uploads| ==> Stored(s, w.plan.value.uploads[i])
    ensures var m := w.plan.value.manifest;
            Intact(s, w.gid, Active(w.bid, w.revision, m.sourceVersions, m.sourceDescriptions))
  {
    var p := w.plan.value;
    var m := p.manifest;
    assert Stored(s, p.uploads[|p.uploads| - 1]) && Stored(s, p.uploads[|p.uploads| - 2]);
    forall f | f in m.files
      ensures m.files[f].key == FileKey(w.gid, w.bid, f.0, f.1) && HasDigest(s, m.files[f].key, m.files[f].sha)
    {
      assert FileListed(w, p, f);
      var i :| 0 <= i < |p.uploads| - 2 && p.uploads[i].key == m.files[f].key;
      assert IsFileUpload(w, m, p.uploads[i]) && Stored(s, p.uploads[i]);
    }
  }

  lemma CommitIntact(s: State, t: Token, lost: bool, s': State)
    requires StepCommit(s, t, lost, s') && WorkerOk(s, t, s.workers[t])
    ensures var w := s.workers[t];
            w.gid in s'.metas && s'.metas[w.gid].active.Some? && Intact(s', w.gid, s'.metas[w.gid].active.value)
  {
    var w := s.workers[t];
    assert !Dead(s, w.gid, w.bid);
    UploadedIntact(s, w);
    var m := w.plan.value.manifest;
    var a := Active(w.bid, w.revision, m.sourceVersions, m.sourceDescriptions);
    assert s'.store == s.store;
    IntactStays(s, s', w.gid, a);
  }

  lemma StepKeepsActive(s: State, a: Action, s': State)
    requires Inv(s) && Step(s, a, s') && Progress(s, s')
    ensures ActiveOk(s')
  {
    forall g | g in s'.metas && s'.metas[g].status != Deleted && s'.metas[g].active.Some?
      ensures Intact(s', g, s'.metas[g].active.value)
    {
      if a.Commit? && a.token in s.workers && s.workers[a.token].gid == g {
        assert WorkerOk(s, a.token, s.workers[a.token]);
        CommitIntact(s, a.token, a.lost, s');
      } else {
        ActiveStays(s, a, s', g);
      }
    }
  }

  lemma ActiveStays(s: State, a: Action, s': State, g: Gid)
    requires ActiveOk(s) && Writes(s, a, s') && StoreStays(s, s')
    requires g in s'.metas && s'.metas[g].status != Deleted && s'.metas[g].active.Some?
    requires !(a.Commit? && a.token in s.workers && s.workers[a.token].gid == g)
    ensures Intact(s', g, s'.metas[g].active.value)
  {
    StepPointers(s, a, s', g);
    PointedAlive(s', g);
    IntactStays(s, s', g, s'.metas[g].active.value);
  }

  lemma PointedAlive(s: State, g: Gid)
    requires g in s.metas && s.metas[g].status != Deleted && s.metas[g].active.Some?
    ensures !Dead(s, g, s.metas[g].active.value.version)
  {
  }

  // ---- the collector ----

  lemma JudgeOk(s: State, p: Sweep)
    requires ClaimsOk(s) && SweepOk(s, p) && p.judged < |p.page|
    ensures SweepOk(s, Judge(s, p))
  {
    var key := p.page[p.judged].0;
    var q := Judge(s, p);
    forall i | 0 <= i < |q.page| ensures CacheOk(s, q, q.page[i].0) {
      assert CacheOk(s, p, p.page[i].0);
    }
    assert CacheOk(s, q, key);
  }

  lemma SweepStays(s: State, s': State, p: Sweep)
    requires SweepOk(s, p) && DeadStays(s, s') && s.claimed <= s'.claimed
    ensures SweepOk(s', p)
  {
    forall i | 0 <= i < |p.page| ensures CacheOk(s', p, p.page[i].0) {
      assert CacheOk(s, p, p.page[i].0);
    }
  }

  lemma OtherSweeps(s: State, a: Action, s': State, id: SweepId)
    requires Writes(s, a, s') && id in s'.sweeps && !(a.SweepJudge? && a.id == id)
    ensures || (id in s.sweeps && s'.sweeps[id] == s.sweeps[id])
            || (a.SweepList? && s'.sweeps[id] == Sweep(a.now, a.page, 0, map[], {}, Judging)
                && forall i :: 0 <= i < |a.page| ==> a.page[i].0 in s.store)
  {
  }

  lemma StepKeepsSweeps(s: State, a: Action, s': State)
    requires Inv(s) && Step(s, a, s') && Progress(s, s')
    ensures SweepsOk(s')
  {
    forall id | id in s'.sweeps ensures SweepOk(s', s'.sweeps[id]) {
      SweepKept(s, a, s', id);
    }
  }

  lemma SweepKept(s: State, a: Action, s': State, id: SweepId)
    requires ClaimsOk(s) && SweepsOk(s) && Writes(s, a, s') && DeadStays(s, s') && s.claimed <= s'.claimed
    requires id in s'.sweeps
    ensures SweepOk(s', s'.sweeps[id])
  {
    if a.SweepJudge? && a.id == id {
      JudgedKept(s, id, s');
    } else {
      OtherSweeps(s, a, s', id);
      if id in s.sweeps && s'.sweeps[id] == s.sweeps[id] {
        assert SweepOk(s, s.sweeps[id]);
        SweepStays(s, s', s.sweeps[id]);
      }
    }
  }

  lemma JudgedKept(s: State, id: SweepId, s': State)
    requires ClaimsOk(s) && SweepsOk(s) && StepJudge(s, id, s') && DeadStays(s, s') && s.claimed <= s'.claimed
    ensures SweepOk(s', s'.sweeps[id])
  {
    var p := s.sweeps[id];
    assert SweepOk(s, p);
    if p.judged < |p.page| {
      JudgeOk(s, p);
      SweepStays(s, s', Judge(s, p));
    } else {
      SweepStays(s, s', p);
    }
  }

  // ---- exits ----

  /** A build that has left BUILDING does not come back to it. */
  lemma LeftStaysLeft(s: State, s': State, g: Gid, b: Bid)
    requires (g, b) in s.claimed && g in s.metas && MetasEvolve(s, s')
    requires !(s.metas[g].status == Building && s.metas[g].build == Some(b))
    ensures g in s'.metas && !(s'.metas[g].status == Building && s'.metas[g].build == Some(b))
  {
    assert MetaEvolves(s, g, s.metas[g], s'.metas[g]);
  }

  predicate Terminal(status: Status) {
    status in {Ready, Partial, Failed}
  }

  /** A terminal ledger row keeps its status, unless a worker closes it with its build. */
  ghost predicate LedgersStay(s: State, a: Action, s': State) {
    forall gb :: gb in s.ledgers && Terminal(s.ledgers[gb].status) && !Exits(s, a, gb) ==>
      gb in s'.ledgers && s'.ledgers[gb].status == s.ledgers[gb].status
  }

  /** The step ends this build. */
  predicate Exits(s: State, a: Action, gb: (Gid, Bid)) {
    (a.Commit? || a.Fail?) && a.token in s.workers && (s.workers[a.token].gid, s.workers[a.token].bid) == gb
  }

  lemma StepLedgers(s: State, a: Action, s': State)
    requires Writes(s, a, s')
    ensures LedgersStay(s, a, s')
  {
    if a.Commit? || a.Fail? { ExitLeavesLedgers(s, a, s'); }
    else if a.Claim? || a.EditLedger? { }
    else { LedgersKept(s, a, s'); }
  }

  lemma ExitLeavesLedgers(s: State, a: Action, s': State)
    requires (a.Commit? || a.Fail?) && Writes(s, a, s')
    ensures LedgersStay(s, a, s')
  {
  }

  /** The worker held its claim, and the exit it records is sound. */
  ghost predicate RecordsExit(s: State, t: Token, s': State) {
    && t in s.workers && Holds(s, t, s.workers[t]) && |s'.exits| == |s.exits| + 1 && s.exits <= s'.exits
    && var e := s'.exits[|s.exits|];
       e.gid == s.workers[t].gid && e.bid == s.workers[t].bid && e.token == t && ExitOk(s', e)
  }

  lemma CommitRecords(s: State, t: Token, lost: bool, s': State)
    requires StepCommit(s, t, lost, s') && WorkerOk(s, t, s.workers[t]) && ClaimsOk(s)
    ensures RecordsExit(s, t, s')
  {
  }

  lemma FailRecords(s: State, t: Token, s': State)
    requires StepFail(s, t, s') && WorkerOk(s, t, s.workers[t]) && ClaimsOk(s)
    ensures RecordsExit(s, t, s')
  {
  }

  lemma OldExitOk(s: State, a: Action, s': State, e: Exit)
    requires ExitOk(s, e) && LedgersStay(s, a, s') && TablesGrow(s, s') && MetasEvolve(s, s')
    requires !Exits(s, a, (e.gid, e.bid))
    ensures ExitOk(s', e)
  {
    LeftStaysLeft(s, s', e.gid, e.bid);
  }

  /** A worker that still holds its claim has an exit nobody recorded before. */
  lemma HeldHasNoExit(s: State, t: Token, w: Worker, e: Exit)
    requires Holds(s, t, w) && ExitOk(s, e)
    ensures e.gid != w.gid || e.bid != w.bid
  {
  }

  lemma OldExitsOk(s: State, a: Action, s': State)
    requires ExitsOk(s) && LedgersStay(s, a, s') && TablesGrow(s, s') && MetasEvolve(s, s')
    requires forall i :: 0 <= i < |s.exits| ==> !Exits(s, a, (s.exits[i].gid, s.exits[i].bid))
    ensures forall i :: 0 <= i < |s.exits| ==> ExitOk(s', s.exits[i])
  {
    forall i | 0 <= i < |s.exits| ensures ExitOk(s', s.exits[i]) {
      assert ExitOk(s, s.exits[i]);
      OldExitOk(s, a, s', s.exits[i]);
    }
  }

  lemma NewExitDistinct(s: State, t: Token, w: Worker)
    requires ExitsOk(s) && Holds(s, t, w)
    ensures forall i :: 0 <= i < |s.exits| ==> s.exits[i].gid != w.gid || s.exits[i].bid != w.bid
  {
    forall i | 0 <= i < |s.exits| ensures s.exits[i].gid != w.gid || s.exits[i].bid != w.bid {
      HeldHasNoExit(s, t, w, s.exits[i]);
    }
  }

  lemma ExitsExtend(s: State, s': State)
    requires ExitsOk(s) && s.exits <= s'.exits && |s'.exits| <= |s.exits| + 1
    requires forall i :: 0 <= i < |s'.exits| ==> ExitOk(s', s'.exits[i])
    requires |s'.exits| > |s.exits| ==>
               var e := s'.exits[|s.exits|];
               forall i :: 0 <= i < |s.exits| ==> s.exits[i].gid != e.gid || s.exits[i].bid != e.bid
    ensures ExitsOk(s')
  {
  }

  /** The exit a worker records is sound, and of a build that had none. */
  ghost predicate AddsExit(s: State, a: Action, s': State) {
    && |s'.exits| == |s.exits| + 1 && s.exits <= s'.exits && ExitOk(s', s'.exits[|s.exits|])
    && Exits(s, a, (s'.exits[|s.exits|].gid, s'.exits[|s.exits|].bid))
    && forall i :: 0 <= i < |s.exits| ==> !Exits(s, a, (s.exits[i].gid, s.exits[i].bid))
  }

  lemma ExitIsNew(s: State, a: Action, s': State)
    requires ExitsOk(s) && (a.Commit? || a.Fail?) && RecordsExit(s, a.token, s')
    ensures AddsExit(s, a, s')
  {
    NewExitDistinct(s, a.token, s.workers[a.token]);
  }

  lemma WorkerExitsOk(s: State, a: Action, s': State)
    requires ExitsOk(s) && AddsExit(s, a, s') && LedgersStay(s, a, s') && TablesGrow(s, s') && MetasEvolve(s, s')
    ensures ExitsOk(s')
  {
    OldExitsOk(s, a, s');
    ExitsExtend(s, s');
  }

  lemma QuietExitsOk(s: State, a: Action, s': State)
    requires ExitsOk(s) && LedgersStay(s, a, s') && TablesGrow(s, s') && MetasEvolve(s, s') && !a.Commit? && !a.Fail?
    requires s'.exits == s.exits
    ensures ExitsOk(s')
  {
    OldExitsOk(s, a, s');
  }

  lemma StepKeepsExits(s: State, a: Action, s': State)
    requires Inv(s) && Step(s, a, s') && TablesGrow(s, s') && MetasEvolve(s, s')
    ensures ExitsOk(s')
  {
    StepLedgers(s, a, s');
    if a.Commit? || a.Fail? {
      assert WorkerOk(s, a.token, s.workers[a.token]);
      if a.Commit? { CommitRecords(s, a.token, a.lost, s'); } else { FailRecords(s, a.token, s'); }
      ExitIsNew(s, a, s');
      WorkerExitsOk(s, a, s');
    } else {
      ExitsKept(s, a, s');
      QuietExitsOk(s, a, s');
    }
  }

  // ---- the whole invariant ----

  lemma StepKeepsInv(s: State, a: Action, s': State)
    requires Inv(s) && Step(s, a, s')
    ensures Inv(s') && Progress(s, s')
  {
    StepProgresses(s, a, s');
    StepKeepsClaims(s, a, s');
    StepKeepsWorkers(s, a, s');
    StepKeepsGap(s, a, s');
    StepKeepsActive(s, a, s');
    StepKeepsSweeps(s, a, s');
    StepKeepsExits(s, a, s');
  }

  lemma ProgressReflexive(s: State)
    ensures Progress(s, s)
  {
  }

  lemma RunStep(ss: seq<State>, acts: seq<Action>, j: nat)
    requires IsRun(ss, acts) && j < |acts| && Inv(ss[j])
    ensures Step(ss[j], acts[j], ss[j + 1]) && Inv(ss[j + 1]) && Progress(ss[j], ss[j + 1])
  {
    assert StepAt(ss, acts, j);
    StepKeepsInv(ss[j], acts[j], ss[j + 1]);
  }

  lemma InitInv(s: State)
    requires Init(s)
    ensures Inv(s)
  {
  }

  /** Every state of every run satisfies the invariant. */
  lemma {:induction false} RunInv(ss: seq<State>, acts: seq<Action>, j: nat)
    requires IsRun(ss, acts) && j < |ss|
    ensures Inv(ss[j])
    decreases j
  {
    if j == 0 { InitInv(ss[0]); }
    else { RunInv(ss, acts, j - 1); RunStep(ss, acts, j - 1); }
  }

  /** Later states of a run undo nothing that earlier ones settled. */
  lemma {:induction false} RunProgress(ss: seq<State>, acts: seq<Action>, i: nat, j: nat)
    requires IsRun(ss, acts) && i <= j < |ss|
    ensures Progress(ss[i], ss[j])
    decreases j
  {
    if i == j { ProgressReflexive(ss[i]); }
    else {
      var before := j - 1;
      RunProgress(ss, acts, i, before);
      RunInv(ss, acts, before);
      RunStep(ss, acts, before);
      ProgressTransitive(ss[i], ss[before], ss[j]);
    }
  }
}
