/** The invariants of concurrent page transcription, and what they give over every interleaving. */
module OcrProof {
  import opened Common
  import opened OcrRecord
  import opened OcrState

  // ---- sums over calls ----

  /** What a call has contributed to a counter. */
  function Weight(g: Counter, c: Call): nat {
    match g
    case Pages => if c.pc.Idle? then 0 else 1
    case TranscribedPages => if Counting(c.pc) && c.pc.entry.page.status.Transcribed? then 1 else 0
    case BlankPages => if Counting(c.pc) && c.pc.entry.page.status.Blank? then 1 else 0
    case Errors => if c.pc.Raised? then 1 else 0
    case CacheHits => if Counting(c.pc) && !c.pc.source.Fresh? then 1 else 0
    case LocalHits => if Counting(c.pc) && c.pc.source.Local? then 1 else 0
    case RemoteHits => if Counting(c.pc) && c.pc.source.Remote? then 1 else 0
    case ApiAttempts => c.calls
    case Retries => if c.calls > 0 then c.calls - 1 else 0
  }

  /** The success has been counted. */
  predicate Counting(pc: Pc) { pc.Leaving? || pc.Returned? }

  function Total(g: Counter, cs: seq<Call>, k: nat): nat
    requires k <= |cs|
  {
    if k == 0 then 0 else Total(g, cs, k - 1) + Weight(g, cs[k - 1])
  }

  lemma {:induction false} TotalUpdate(g: Counter, cs: seq<Call>, i: nat, c: Call, k: nat)
    requires i < |cs| && k <= |cs|
    ensures Total(g, cs[i := c], k) == Total(g, cs, k) + if i < k then Weight(g, c) - Weight(g, cs[i]) else 0
  {
    if k > 0 { TotalUpdate(g, cs, i, c, k - 1); }
  }

  /** The tokens of one kind that the calls spent. */
  function TotalSpent(name: string, cs: seq<Call>, k: nat): nat
    requires k <= |cs|
  {
    if k == 0 then 0 else TotalSpent(name, cs, k - 1) + Spent(cs[k - 1].spent, name)
  }

  lemma {:induction false} SpentUpdate(name: string, cs: seq<Call>, i: nat, c: Call, k: nat)
    requires i < |cs| && k <= |cs|
    ensures TotalSpent(name, cs[i := c], k)
            == TotalSpent(name, cs, k) + if i < k then Spent(c.spent, name) - Spent(cs[i].spent, name) else 0
  {
    if k > 0 { SpentUpdate(name, cs, i, c, k - 1); }
  }

  /** Every counter is the sum of what the calls contributed, and so is every kind of token. */
  ghost predicate Exact(s: State) {
    && HasAll(s.counters)
    && (forall g: Counter :: s.counters[g] == Total(g, s.calls, |s.calls|))
    && forall name: string :: Spent(s.usage, name) == TotalSpent(name, s.calls, |s.calls|)
  }

  /** A step of one call changes each counter by what that call's contribution changes. */
  ghost predicate Accounts(s: State, i: nat, t: State) {
    && i < |s.calls| && |t.calls| == |s.calls| && t.calls == s.calls[i := t.calls[i]]
    && HasAll(s.counters) && HasAll(t.counters)
    && (forall g: Counter :: t.counters[g] + Weight(g, s.calls[i]) == s.counters[g] + Weight(g, t.calls[i]))
    && forall name: string :: SpentMoves(s, i, t, name)
  }

  predicate SpentMoves(s: State, i: nat, t: State, name: string)
    requires i < |s.calls| && i < |t.calls|
  {
    Spent(t.usage, name) + Spent(s.calls[i].spent, name) == Spent(s.usage, name) + Spent(t.calls[i].spent, name)
  }

  lemma AccountsKeepsExact(s: State, i: nat, t: State)
    requires Exact(s) && Accounts(s, i, t)
    ensures Exact(t)
  {
    forall g: Counter ensures t.counters[g] == Total(g, t.calls, |t.calls|) {
      TotalUpdate(g, s.calls, i, t.calls[i], |s.calls|);
    }
    forall name: string ensures Spent(t.usage, name) == TotalSpent(name, t.calls, |t.calls|) {
      SpentUpdate(name, s.calls, i, t.calls[i], |s.calls|);
      assert SpentMoves(s, i, t, name);
    }
  }

  /** Nothing a counter sees changes. */
  predicate SameWeights(c: Call, d: Call) {
    && c.calls == d.calls && c.spent == d.spent
    && c.pc.Idle? == d.pc.Idle? && c.pc.Raised? == d.pc.Raised?
    && Counting(c.pc) == Counting(d.pc)
    && (Counting(c.pc) ==> c.pc.entry == d.pc.entry && c.pc.source == d.pc.source)
  }

  /** A step that counts nothing. */
  ghost predicate Quiet(s: State, i: nat, t: State) {
    && i < |s.calls| && |t.calls| == |s.calls| && t.calls == s.calls[i := t.calls[i]]
    && t.counters == s.counters && t.usage == s.usage && SameWeights(s.calls[i], t.calls[i])
  }

  lemma MoveQuiet(s: State, i: nat, pc: Pc, t: State)
    requires i < |s.calls| && t == Move(s, i, pc)
    requires !s.calls[i].pc.Idle? && !s.calls[i].pc.Raised? && !Counting(s.calls[i].pc)
    requires !pc.Idle? && !pc.Raised? && !Counting(pc)
    ensures Quiet(s, i, t)
  {
  }

  lemma QuietRefuse(s: State, i: nat, t: State)
    requires StepRefuse(s, i, t)
    ensures Quiet(s, i, t)
  {
  }

  lemma QuietBind(s: State, i: nat, key: Key, t: State)
    requires StepBind(s, i, key, t)
    ensures Quiet(s, i, t)
  {
  }

  lemma QuietGiveUp(s: State, i: nat, t: State)
    requires StepGiveUp(s, i, t)
    ensures Quiet(s, i, t)
  {
  }

  lemma QuietAcquire(s: State, i: nat, t: State)
    requires StepAcquire(s, i, t)
    ensures Quiet(s, i, t)
  {
  }

  lemma QuietReadLocal(s: State, i: nat, t: State)
    requires StepReadLocal(s, i, t)
    ensures Quiet(s, i, t)
  {
    if KeyAt(s, i) in s.local { MoveQuiet(s, i, Finishing(Read(s.local[KeyAt(s, i)], KeyAt(s, i)), Local), t); }
  }

  lemma QuietReadRemote(s: State, i: nat, t: State)
    requires StepReadRemote(s, i, t)
    ensures Quiet(s, i, t)
  {
    if KeyAt(s, i) in s.remote { MoveQuiet(s, i, Copying(Read(s.remote[KeyAt(s, i)], KeyAt(s, i))), t); }
  }

  lemma QuietCopy(s: State, i: nat, t: State)
    requires StepCopy(s, i, t)
    ensures Quiet(s, i, t)
  {
  }

  lemma QuietReserve(s: State, i: nat, t: State)
    requires StepReserve(s, i, t)
    ensures Quiet(s, i, t)
  {
  }

  lemma QuietSkip(s: State, i: nat, t: State)
    requires StepSkip(s, i, t)
    ensures Quiet(s, i, t)
  {
  }

  lemma QuietJudge(s: State, i: nat, t: State)
    requires StepJudge(s, i, t)
    ensures Quiet(s, i, t)
  {
  }

  lemma QuietPutRemote(s: State, i: nat, t: State)
    requires StepPutRemote(s, i, t)
    ensures Quiet(s, i, t)
  {
  }

  lemma QuietPutThenFail(s: State, i: nat, t: State)
    requires StepPutThenFail(s, i, t)
    ensures Quiet(s, i, t)
  {
  }

  lemma QuietKeep(s: State, i: nat, t: State)
    requires StepKeep(s, i, t)
    ensures Quiet(s, i, t)
  {
  }

  lemma QuietLeave(s: State, i: nat, t: State)
    requires StepLeave(s, i, t)
    ensures Quiet(s, i, t)
  {
  }

  lemma QuietFail(s: State, i: nat, t: State)
    requires StepFail(s, i, t)
    ensures Quiet(s, i, t)
  {
  }

  lemma QuietAccounts(s: State, i: nat, t: State)
    requires Quiet(s, i, t) && HasAll(s.counters)
    ensures Accounts(s, i, t)
  {
    forall g: Counter ensures Weight(g, s.calls[i]) == Weight(g, t.calls[i]) {
      SameWeightsCount(s.calls[i], t.calls[i], g);
    }
  }

  lemma SameWeightsCount(c: Call, d: Call, g: Counter)
    requires SameWeights(c, d)
    ensures Weight(g, c) == Weight(g, d)
  {
  }

  lemma ArriveAccounts(s: State, i: nat, t: State)
    requires StepArrive(s, i, t)
    ensures Accounts(s, i, t)
  {
  }

  lemma AttemptAccounts(s: State, i: nat, t: State)
    requires StepAttempt(s, i, t)
    ensures Accounts(s, i, t)
  {
  }

  lemma AnswerAccounts(s: State, i: nat, reported: map<string, Json>, answer: Answer, t: State)
    requires StepAnswer(s, i, reported, answer, t) && HasAll(s.counters)
    ensures Accounts(s, i, t)
  {
    forall name: string ensures SpentMoves(s, i, t, name) {
      assert Spent(t.usage, name) == Spent(s.usage, name) + Reported(reported, name);
    }
  }

  lemma FreshWeights(s: State, i: nat, t: State, g: Counter)
    requires StepCount(s, i, t) && HasAll(t.counters) && s.calls[i].pc.source.Fresh?
    ensures t.counters[g] + Weight(g, s.calls[i]) == s.counters[g] + Weight(g, t.calls[i])
  {
  }

  lemma HitWeights(s: State, i: nat, t: State, g: Counter)
    requires StepCount(s, i, t) && HasAll(t.counters) && !s.calls[i].pc.source.Fresh?
    ensures t.counters[g] + Weight(g, s.calls[i]) == s.counters[g] + Weight(g, t.calls[i])
  {
  }

  lemma CountWeights(s: State, i: nat, t: State, g: Counter)
    requires StepCount(s, i, t) && HasAll(t.counters)
    ensures t.counters[g] + Weight(g, s.calls[i]) == s.counters[g] + Weight(g, t.calls[i])
  {
    if s.calls[i].pc.source.Fresh? { FreshWeights(s, i, t, g); } else { HitWeights(s, i, t, g); }
  }

  lemma CountAccounts(s: State, i: nat, t: State)
    requires StepCount(s, i, t)
    ensures Accounts(s, i, t)
  {
    assert HasAll(t.counters);
    forall g: Counter ensures t.counters[g] + Weight(g, s.calls[i]) == s.counters[g] + Weight(g, t.calls[i]) {
      CountWeights(s, i, t, g);
    }
    forall name: string ensures SpentMoves(s, i, t, name) { }
  }

  lemma CountErrorAccounts(s: State, i: nat, t: State)
    requires StepCountError(s, i, t)
    ensures Accounts(s, i, t)
  {
  }

  /** The steps that count something. */
  predicate Counts(a: Action) {
    a.Arrive? || a.Attempt? || a.Answer? || a.Count? || a.CountError?
  }

  lemma QuietStep(s: State, i: nat, a: Action, t: State)
    requires CallStep(s, i, a, t) && !Counts(a)
    ensures Quiet(s, i, t)
  {
    match a
    case Refuse => QuietRefuse(s, i, t);
    case Bind(key) => QuietBind(s, i, key, t);
    case GiveUp => QuietGiveUp(s, i, t);
    case Acquire => QuietAcquire(s, i, t);
    case ReadLocal => QuietReadLocal(s, i, t);
    case ReadRemote => QuietReadRemote(s, i, t);
    case Copy => QuietCopy(s, i, t);
    case Reserve => QuietReserve(s, i, t);
    case Skip => QuietSkip(s, i, t);
    case Judge => QuietJudge(s, i, t);
    case PutRemote => QuietPutRemote(s, i, t);
    case PutThenFail => QuietPutThenFail(s, i, t);
    case Keep => QuietKeep(s, i, t);
    case Leave => QuietLeave(s, i, t);
    case Fail => QuietFail(s, i, t);
  }

  lemma CountingStep(s: State, i: nat, a: Action, t: State)
    requires CallStep(s, i, a, t) && Counts(a) && HasAll(s.counters)
    ensures Accounts(s, i, t)
  {
    match a
    case Arrive => ArriveAccounts(s, i, t);
    case Attempt => AttemptAccounts(s, i, t);
    case Answer(reported, answer) => AnswerAccounts(s, i, reported, answer, t);
    case Count => CountAccounts(s, i, t);
    case CountError => CountErrorAccounts(s, i, t);
  }

  lemma CallStepAccounts(s: State, i: nat, a: Action, t: State)
    requires CallStep(s, i, a, t) && HasAll(s.counters)
    ensures Accounts(s, i, t)
  {
    if Counts(a) {
      CountingStep(s, i, a, t);
    } else {
      QuietStep(s, i, a, t);
      QuietAccounts(s, i, t);
    }
  }

  // ---- what holds of each call ----

  /** Judging, storing: the page is being generated, or has just been. */
  predicate Spends(pc: Pc) {
    pc.Generating? || pc.Calling? || pc.Answered? || pc.Storing? || pc.Keeping?
  }

  predicate HasEntry(pc: Pc) {
    pc.Copying? || pc.Storing? || pc.Keeping? || pc.Finishing? || pc.Leaving? || pc.Returned?
  }

  /** An entry this call generated itself. */
  predicate IsOwn(pc: Pc) {
    pc.Storing? || pc.Keeping? || ((pc.Finishing? || pc.Leaving? || pc.Returned?) && pc.source.Fresh?)
  }

  /** An entry found in a cache. */
  predicate IsHit(pc: Pc) {
    pc.Copying? || ((pc.Finishing? || pc.Leaving? || pc.Returned?) && !pc.source.Fresh?)
  }

  /** The local file was missing when this call looked, and it has not yet written it. */
  predicate SawNoLocal(pc: Pc) {
    pc.ReadingRemote? || pc.Copying? || pc.Missing? || Spends(pc)
  }

  /** Neither file was there, and it has not yet written the remote one. */
  predicate SawNeither(pc: Pc) {
    pc.Missing? || pc.Generating? || pc.Calling? || pc.Answered? || pc.Storing?
  }

  predicate LockOk(s: State, i: nat, c: Call) {
    Holds(c.pc) ==> c.key.Some? && c.key.value in s.locks && s.locks[c.key.value] == i
  }

  predicate ReservedOk(s: State, c: Call) {
    Spends(c.pc) && c.key.Some? ==> c.key.value in s.reserved
  }

  predicate AbsentOk(s: State, c: Call) {
    c.key.Some? && c.key.value !in s.touched ==>
      && (SawNoLocal(c.pc) ==> c.key.value !in s.local)
      && (SawNeither(c.pc) && s.bucket ==> c.key.value !in s.remote)
  }

  predicate EntryOk(s: State, c: Call) {
    HasEntry(c.pc) ==>
      && c.key.Some? && c.pc.entry.key == c.key.value
      && (c.key.value !in s.touched || IsOwn(c.pc) ==> c.pc.entry in s.made)
  }

  /** Tokens are spent by calls that generate; a hit costs nothing. */
  predicate SpentOk(c: Call) {
    && (c.calls == 0 ==> c.spent == ZERO_USAGE)
    && (IsOwn(c.pc) ==> c.calls > 0 && c.pc.entry.usage == c.spent)
    && (IsHit(c.pc) || c.pc.Idle? || c.pc.Counted? || c.pc.Waiting? || c.pc.Reading? || c.pc.ReadingRemote? || c.pc.Missing?
        ==> c.calls == 0)
    && (c.pc.Calling? || c.pc.Answered? ==> c.calls > 0)
    && (c.pc.Idle? || c.pc.Counted? ==> c.key.None?)
  }

  ghost predicate CallOk(s: State, i: nat, c: Call) {
    LockOk(s, i, c) && ReservedOk(s, c) && AbsentOk(s, c) && EntryOk(s, c) && SpentOk(c)
  }

  ghost predicate CallsOk(s: State) {
    forall i :: 0 <= i < |s.calls| ==> CallOk(s, i, s.calls[i])
  }

  ghost predicate StoresOk(s: State) {
    Intact(s.local, s.touched, s.made) && Intact(s.remote, s.touched, s.made)
  }

  /** The budget counts the reserved keys. */
  predicate BudgetOk(s: State) {
    s.newPages == |s.reserved| && s.newPages <= s.maxNew
  }

  // ---- what a step leaves alone ----

  predicate SameOutside(a: map<Key, Blob>, b: map<Key, Blob>, key: Key) {
    Without(a, key) == Without(b, key)
  }

  function Without<V>(m: map<Key, V>, key: Key): map<Key, V> { m - {key} }

  /** Only the call's own key is affected, and the cache files of it only by the holder of its lock. */
  ghost predicate Effect(s: State, i: nat, t: State) {
    && i < |s.calls| && |t.calls| == |s.calls| && t.calls == s.calls[i := t.calls[i]]
    && t.bucket == s.bucket && t.touched == s.touched && s.made <= t.made && s.reserved <= t.reserved
    && s.local.Keys <= t.local.Keys && s.remote.Keys <= t.remote.Keys
    && if Holds(s.calls[i].pc) then
         && s.calls[i].key.Some?
         && (var k := s.calls[i].key.value;
             SameOutside(s.local, t.local, k) && SameOutside(s.remote, t.remote, k) && Without(s.locks, k) == Without(t.locks, k))
       else
         && t.local == s.local && t.remote == s.remote
         && (t.locks == s.locks
             || (s.calls[i].key.Some? && s.calls[i].key.value !in s.locks && t.locks == s.locks[s.calls[i].key.value := i]))
  }

  /** Before the lock is held, and after the error. */
  predicate Enters(a: Action) {
    a.Arrive? || a.Refuse? || a.Bind? || a.GiveUp? || a.Acquire? || a.CountError?
  }

  /** Once a fresh entry exists, or any entry is counted, or an exception leaves the lock. */
  predicate Finishes(a: Action) {
    a.PutRemote? || a.PutThenFail? || a.Keep? || a.Count? || a.Leave? || a.Fail?
  }

  lemma MoveEffect(s: State, i: nat, pc: Pc, t: State)
    requires HasKey(s, i) && t == Move(s, i, pc)
    ensures Effect(s, i, t)
  {
  }

  lemma EffectArrive(s: State, i: nat, t: State)
    requires StepArrive(s, i, t)
    ensures Effect(s, i, t)
  {
  }

  lemma EffectRefuse(s: State, i: nat, t: State)
    requires StepRefuse(s, i, t)
    ensures Effect(s, i, t)
  {
  }

  lemma EffectBind(s: State, i: nat, key: Key, t: State)
    requires StepBind(s, i, key, t)
    ensures Effect(s, i, t)
  {
  }

  lemma EffectGiveUp(s: State, i: nat, t: State)
    requires StepGiveUp(s, i, t)
    ensures Effect(s, i, t)
  {
  }

  lemma EffectAcquire(s: State, i: nat, t: State)
    requires StepAcquire(s, i, t)
    ensures Effect(s, i, t)
  {
  }

  lemma EffectCountError(s: State, i: nat, t: State)
    requires StepCountError(s, i, t)
    ensures Effect(s, i, t)
  {
  }

  lemma EffectReadLocal(s: State, i: nat, t: State)
    requires StepReadLocal(s, i, t)
    ensures Effect(s, i, t)
  {
    if KeyAt(s, i) in s.local { MoveEffect(s, i, Finishing(Read(s.local[KeyAt(s, i)], KeyAt(s, i)), Local), t); }
  }

  lemma EffectReadRemote(s: State, i: nat, t: State)
    requires StepReadRemote(s, i, t)
    ensures Effect(s, i, t)
  {
    if KeyAt(s, i) in s.remote { MoveEffect(s, i, Copying(Read(s.remote[KeyAt(s, i)], KeyAt(s, i))), t); }
  }

  lemma EffectCopy(s: State, i: nat, t: State)
    requires StepCopy(s, i, t)
    ensures Effect(s, i, t)
  {
  }

  lemma EffectReserve(s: State, i: nat, t: State)
    requires StepReserve(s, i, t)
    ensures Effect(s, i, t)
  {
  }

  lemma EffectAttempt(s: State, i: nat, t: State)
    requires StepAttempt(s, i, t)
    ensures Effect(s, i, t)
  {
  }

  lemma EffectSkip(s: State, i: nat, t: State)
    requires StepSkip(s, i, t)
    ensures Effect(s, i, t)
  {
  }

  lemma EffectAnswer(s: State, i: nat, reported: map<string, Json>, answer: Answer, t: State)
    requires StepAnswer(s, i, reported, answer, t)
    ensures Effect(s, i, t)
  {
  }

  lemma EffectJudge(s: State, i: nat, t: State)
    requires StepJudge(s, i, t)
    ensures Effect(s, i, t)
  {
    if s.calls[i].pc.answer.Transient? { MoveEffect(s, i, Generating(s.calls[i].pc.attempt + 1), t); }
  }

  lemma EffectPutRemote(s: State, i: nat, t: State)
    requires StepPutRemote(s, i, t)
    ensures Effect(s, i, t)
  {
  }

  lemma EffectPutThenFail(s: State, i: nat, t: State)
    requires StepPutThenFail(s, i, t)
    ensures Effect(s, i, t)
  {
  }

  lemma EffectKeep(s: State, i: nat, t: State)
    requires StepKeep(s, i, t)
    ensures Effect(s, i, t)
  {
  }

  lemma EffectCount(s: State, i: nat, t: State)
    requires StepCount(s, i, t)
    ensures Effect(s, i, t)
  {
  }

  lemma EffectLeave(s: State, i: nat, t: State)
    requires StepLeave(s, i, t)
    ensures Effect(s, i, t)
  {
  }

  lemma EffectFail(s: State, i: nat, t: State)
    requires StepFail(s, i, t)
    ensures Effect(s, i, t)
  {
  }

  lemma EnteringEffect(s: State, i: nat, a: Action, t: State)
    requires CallStep(s, i, a, t) && Enters(a)
    ensures Effect(s, i, t)
  {
    match a
    case Arrive => EffectArrive(s, i, t);
    case Refuse => EffectRefuse(s, i, t);
    case Bind(key) => EffectBind(s, i, key, t);
    case GiveUp => EffectGiveUp(s, i, t);
    case Acquire => EffectAcquire(s, i, t);
    case CountError => EffectCountError(s, i, t);
  }

  lemma WorkingEffect(s: State, i: nat, a: Action, t: State)
    requires CallStep(s, i, a, t) && !Enters(a) && !Finishes(a)
    ensures Effect(s, i, t)
  {
    match a
    case ReadLocal => EffectReadLocal(s, i, t);
    case ReadRemote => EffectReadRemote(s, i, t);
    case Copy => EffectCopy(s, i, t);
    case Reserve => EffectReserve(s, i, t);
    case Attempt => EffectAttempt(s, i, t);
    case Skip => EffectSkip(s, i, t);
    case Answer(reported, answer) => EffectAnswer(s, i, reported, answer, t);
    case Judge => EffectJudge(s, i, t);
  }

  lemma FinishingEffect(s: State, i: nat, a: Action, t: State)
    requires CallStep(s, i, a, t) && Finishes(a)
    ensures Effect(s, i, t)
  {
    match a
    case PutRemote => EffectPutRemote(s, i, t);
    case PutThenFail => EffectPutThenFail(s, i, t);
    case Keep => EffectKeep(s, i, t);
    case Count => EffectCount(s, i, t);
    case Leave => EffectLeave(s, i, t);
    case Fail => EffectFail(s, i, t);
  }

  /** No step of a call affects what other calls rely on. */
  lemma CallStepEffect(s: State, i: nat, a: Action, t: State)
    requires CallStep(s, i, a, t)
    ensures Effect(s, i, t)
  {
    if Enters(a) { EnteringEffect(s, i, a, t); }
    else if Finishes(a) { FinishingEffect(s, i, a, t); }
    else { WorkingEffect(s, i, a, t); }
  }

  /** Two calls never hold the lock of one key. */
  lemma OtherKey(s: State, i: nat, j: nat)
    requires i < |s.calls| && j < |s.calls| && i != j
    requires LockOk(s, i, s.calls[i]) && LockOk(s, j, s.calls[j]) && Holds(s.calls[i].pc) && Holds(s.calls[j].pc)
    ensures s.calls[i].key != s.calls[j].key
  {
  }

  lemma SameAt<V>(a: map<Key, V>, b: map<Key, V>, key: Key, other: Key)
    requires Without(a, key) == Without(b, key) && other != key
    ensures other in a <==> other in b
    ensures other in a ==> a[other] == b[other]
  {
    assert other in a <==> other in Without(a, key);
    assert other in b <==> other in Without(b, key);
    assert other in a ==> Without(a, key)[other] == a[other];
    assert other in b ==> Without(b, key)[other] == b[other];
  }

  lemma OthersKept(s: State, i: nat, t: State, j: nat)
    requires Effect(s, i, t) && j < |s.calls| && j != i
    requires LockOk(s, i, s.calls[i]) && CallOk(s, j, s.calls[j])
    ensures CallOk(t, j, t.calls[j])
  {
    var c := s.calls[j];
    assert t.calls[j] == c;
    if Holds(c.pc) && Holds(s.calls[i].pc) {
      OtherKey(s, i, j);
      var k, other := s.calls[i].key.value, c.key.value;
      SameAt(s.locks, t.locks, k, other);
      SameAt(s.local, t.local, k, other);
      SameAt(s.remote, t.remote, k, other);
    }
  }

  // ---- the moving call and the stores ----

  /** What a step needs and keeps: the call itself, the stores and the budget. */
  ghost predicate Here(s: State, i: nat) {
    i < |s.calls| && CallOk(s, i, s.calls[i]) && StoresOk(s) && BudgetOk(s)
  }

  lemma HereArrive(s: State, i: nat, t: State)
    requires StepArrive(s, i, t) && Here(s, i)
    ensures Here(t, i)
  {
  }

  lemma HereRefuse(s: State, i: nat, t: State)
    requires StepRefuse(s, i, t) && Here(s, i)
    ensures Here(t, i)
  {
  }

  lemma HereBind(s: State, i: nat, key: Key, t: State)
    requires StepBind(s, i, key, t) && Here(s, i)
    ensures Here(t, i)
  {
  }

  lemma HereGiveUp(s: State, i: nat, t: State)
    requires StepGiveUp(s, i, t) && Here(s, i)
    ensures Here(t, i)
  {
  }

  lemma HereCountError(s: State, i: nat, t: State)
    requires StepCountError(s, i, t) && Here(s, i)
    ensures Here(t, i)
  {
  }

  /** A file written for an entry reads back as that entry. */
  lemma WrittenIntact(store: map<Key, Blob>, touched: set<Key>, made: set<Entry>, e: Entry)
    requires Intact(store, touched, made) && (e.key !in touched ==> e in made)
    ensures Intact(store[e.key := File(Encode(e))], touched, made)
  {
    GeneratedIsAccepted(e);
  }

  lemma HereAcquire(s: State, i: nat, t: State)
    requires StepAcquire(s, i, t) && Here(s, i)
    ensures Here(t, i)
  {
  }

  /** A call goes on with an entry it found. */
  lemma FoundHere(s: State, i: nat, e: Entry, pc: Pc, t: State)
    requires Here(s, i) && HasKey(s, i) && t == Move(s, i, pc)
    requires (s.calls[i].pc.Reading? && pc == Finishing(e, Local)) || (s.calls[i].pc.ReadingRemote? && pc == Copying(e))
    requires e.key == KeyAt(s, i) && (e.key !in s.touched ==> e in s.made)
    ensures Here(t, i)
  {
  }

  lemma HereReadLocal(s: State, i: nat, t: State)
    requires StepReadLocal(s, i, t) && Here(s, i)
    ensures Here(t, i)
  {
    var k := KeyAt(s, i);
    if k in s.local { FoundHere(s, i, Read(s.local[k], k), Finishing(Read(s.local[k], k), Local), t); }
  }

  lemma HereReadRemote(s: State, i: nat, t: State)
    requires StepReadRemote(s, i, t) && Here(s, i)
    ensures Here(t, i)
  {
    var k := KeyAt(s, i);
    if k in s.remote { FoundHere(s, i, Read(s.remote[k], k), Copying(Read(s.remote[k], k)), t); }
  }

  lemma HereCopy(s: State, i: nat, t: State)
    requires StepCopy(s, i, t) && Here(s, i)
    ensures Here(t, i)
  {
    var e := s.calls[i].pc.entry;
    WrittenIntact(s.local, s.touched, s.made, e);
  }

  lemma StartHere(s: State, i: nat, t: State)
    requires Here(s, i) && At(s, i, Missing) && HasKey(s, i) && KeyAt(s, i) in s.reserved
    requires t == Move(s, i, Generating(1))
    ensures Here(t, i)
  {
  }

  lemma ReservedHere(s: State, i: nat, key: Key)
    requires Here(s, i) && key !in s.reserved && s.newPages < s.maxNew
    ensures Here(s.(reserved := s.reserved + {key}, newPages := s.newPages + 1), i)
  {
  }

  lemma HereReserve(s: State, i: nat, t: State)
    requires StepReserve(s, i, t) && Here(s, i)
    ensures Here(t, i)
  {
    var k := KeyAt(s, i);
    if k in s.reserved {
      StartHere(s, i, t);
    } else {
      ReservedHere(s, i, k);
      StartHere(s.(reserved := s.reserved + {k}, newPages := s.newPages + 1), i, t);
    }
  }

  lemma HereAttempt(s: State, i: nat, t: State)
    requires StepAttempt(s, i, t) && Here(s, i)
    ensures Here(t, i)
  {
  }

  lemma HereSkip(s: State, i: nat, t: State)
    requires StepSkip(s, i, t) && Here(s, i)
    ensures Here(t, i)
  {
  }

  lemma HereAnswer(s: State, i: nat, reported: map<string, Json>, answer: Answer, t: State)
    requires StepAnswer(s, i, reported, answer, t) && Here(s, i)
    ensures Here(t, i)
  {
  }

  lemma RetryHere(s: State, i: nat, attempt: nat, t: State)
    requires Here(s, i) && HasKey(s, i) && s.calls[i].pc.Answered? && t == Move(s, i, Generating(attempt))
    ensures Here(t, i)
  {
  }

  lemma MadeHere(s: State, i: nat, e: Entry)
    requires Here(s, i)
    ensures Here(s.(made := s.made + {e}), i)
  {
  }

  lemma StoreHere(s: State, i: nat, e: Entry, t: State)
    requires Here(s, i) && HasKey(s, i) && s.calls[i].pc.Answered? && t == Move(s, i, Storing(e))
    requires e in s.made && e.key == KeyAt(s, i) && e.usage == s.calls[i].spent
    ensures Here(t, i)
  {
  }

  lemma HereJudge(s: State, i: nat, t: State)
    requires StepJudge(s, i, t) && Here(s, i)
    ensures Here(t, i)
  {
    var c := s.calls[i];
    if c.pc.answer.Transient? {
      RetryHere(s, i, c.pc.attempt + 1, t);
    } else {
      var e := t.calls[i].pc.entry;
      MadeHere(s, i, e);
      StoreHere(s.(made := s.made + {e}), i, e, t);
    }
  }

  lemma HerePutRemote(s: State, i: nat, t: State)
    requires StepPutRemote(s, i, t) && Here(s, i)
    ensures Here(t, i)
  {
    var e := s.calls[i].pc.entry;
    WrittenIntact(s.remote, s.touched, s.made, e);
  }

  lemma HerePutThenFail(s: State, i: nat, t: State)
    requires StepPutThenFail(s, i, t) && Here(s, i)
    ensures Here(t, i)
  {
    var e := s.calls[i].pc.entry;
    WrittenIntact(s.remote, s.touched, s.made, e);
  }

  lemma HereKeep(s: State, i: nat, t: State)
    requires StepKeep(s, i, t) && Here(s, i)
    ensures Here(t, i)
  {
    var e := s.calls[i].pc.entry;
    WrittenIntact(s.local, s.touched, s.made, e);
  }

  lemma HereCount(s: State, i: nat, t: State)
    requires StepCount(s, i, t) && Here(s, i)
    ensures Here(t, i)
  {
  }

  lemma HereLeave(s: State, i: nat, t: State)
    requires StepLeave(s, i, t) && Here(s, i)
    ensures Here(t, i)
  {
  }

  lemma HereFail(s: State, i: nat, t: State)
    requires StepFail(s, i, t) && Here(s, i)
    ensures Here(t, i)
  {
  }

  lemma EnteringHere(s: State, i: nat, a: Action, t: State)
    requires CallStep(s, i, a, t) && Enters(a) && Here(s, i)
    ensures Here(t, i)
  {
    match a
    case Arrive => HereArrive(s, i, t);
    case Refuse => HereRefuse(s, i, t);
    case Bind(key) => HereBind(s, i, key, t);
    case GiveUp => HereGiveUp(s, i, t);
    case Acquire => HereAcquire(s, i, t);
    case CountError => HereCountError(s, i, t);
  }

  lemma WorkingHere(s: State, i: nat, a: Action, t: State)
    requires CallStep(s, i, a, t) && !Enters(a) && !Finishes(a) && Here(s, i)
    ensures Here(t, i)
  {
    match a
    case ReadLocal => HereReadLocal(s, i, t);
    case ReadRemote => HereReadRemote(s, i, t);
    case Copy => HereCopy(s, i, t);
    case Reserve => HereReserve(s, i, t);
    case Attempt => HereAttempt(s, i, t);
    case Skip => HereSkip(s, i, t);
    case Answer(reported, answer) => HereAnswer(s, i, reported, answer, t);
    case Judge => HereJudge(s, i, t);
  }

  lemma FinishingHere(s: State, i: nat, a: Action, t: State)
    requires CallStep(s, i, a, t) && Finishes(a) && Here(s, i)
    ensures Here(t, i)
  {
    match a
    case PutRemote => HerePutRemote(s, i, t);
    case PutThenFail => HerePutThenFail(s, i, t);
    case Keep => HereKeep(s, i, t);
    case Count => HereCount(s, i, t);
    case Leave => HereLeave(s, i, t);
    case Fail => HereFail(s, i, t);
  }

  lemma CallStepHere(s: State, i: nat, a: Action, t: State)
    requires CallStep(s, i, a, t) && Here(s, i)
    ensures Here(t, i)
  {
    if Enters(a) { EnteringHere(s, i, a, t); }
    else if Finishes(a) { FinishingHere(s, i, a, t); }
    else { WorkingHere(s, i, a, t); }
  }

  // ---- the invariant over runs ----

  ghost predicate Inv(s: State) {
    Exact(s) && CallsOk(s) && StoresOk(s) && BudgetOk(s)
  }

  lemma {:induction false} NothingCounted(g: Counter, cs: seq<Call>, k: nat)
    requires k <= |cs| && forall i :: 0 <= i < |cs| ==> cs[i] == Call(Idle, None, 0, ZERO_USAGE, 0)
    ensures Total(g, cs, k) == 0
  {
    if k > 0 { NothingCounted(g, cs, k - 1); }
  }

  lemma {:induction false} NothingSpent(name: string, cs: seq<Call>, k: nat)
    requires k <= |cs| && forall i :: 0 <= i < |cs| ==> cs[i] == Call(Idle, None, 0, ZERO_USAGE, 0)
    ensures TotalSpent(name, cs, k) == 0
  {
    if k > 0 { NothingSpent(name, cs, k - 1); }
  }

  lemma InitInv(s: State)
    requires Init(s)
    ensures Inv(s)
  {
    forall g: Counter ensures s.counters[g] == Total(g, s.calls, |s.calls|) {
      NothingCounted(g, s.calls, |s.calls|);
    }
    forall name: string ensures Spent(s.usage, name) == TotalSpent(name, s.calls, |s.calls|) {
      NothingSpent(name, s.calls, |s.calls|);
    }
  }

  lemma CallStepInv(s: State, i: nat, a: Action, t: State)
    requires Inv(s) && CallStep(s, i, a, t)
    ensures Inv(t)
  {
    StepInRange(s, i, a, t);
    assert CallOk(s, i, s.calls[i]);
    CallStepAccounts(s, i, a, t);
    AccountsKeepsExact(s, i, t);
    CallStepHere(s, i, a, t);
    CallStepEffect(s, i, a, t);
    forall j | 0 <= j < |t.calls| ensures CallOk(t, j, t.calls[j]) {
      if j != i { OthersKept(s, i, t, j); }
    }
  }

  lemma StepInRange(s: State, i: nat, a: Action, t: State)
    requires CallStep(s, i, a, t)
    ensures i < |s.calls|
  {
  }

  lemma TouchKeeps(s: State, key: Key, t: State, j: nat)
    requires StepTouch(s, key, t) && j < |s.calls| && CallOk(s, j, s.calls[j])
    ensures t.calls == s.calls && CallOk(t, j, t.calls[j])
  {
    var c := s.calls[j];
    if c.key.Some? && c.key.value != key {
      var k := c.key.value;
      assert Lookup(t.local, k) == Lookup(s.local, k) && Lookup(t.remote, k) == Lookup(s.remote, k);
    }
  }

  lemma TouchStores(s: State, key: Key, t: State)
    requires StepTouch(s, key, t) && StoresOk(s)
    ensures StoresOk(t)
  {
    forall k | k in t.local && k !in t.touched ensures Accepted(t.local[k], k) && Read(t.local[k], k) in t.made {
      assert k != key && Lookup(t.local, k) == Lookup(s.local, k);
    }
    forall k | k in t.remote && k !in t.touched ensures Accepted(t.remote[k], k) && Read(t.remote[k], k) in t.made {
      assert k != key && Lookup(t.remote, k) == Lookup(s.remote, k);
    }
  }

  lemma StepInv(s: State, e: Event, t: State)
    requires Inv(s) && Step(s, e, t)
    ensures Inv(t)
  {
    match e
    case ByCall(i, a) => CallStepInv(s, i, a, t);
    case Touch(key) =>
      TouchStores(s, key, t);
      forall j | 0 <= j < |t.calls| ensures CallOk(t, j, t.calls[j]) {
        TouchKeeps(s, key, t, j);
      }
  }

  lemma {:induction false} RunInv(ss: seq<State>, es: seq<Event>, n: nat)
    requires IsRun(ss, es) && n < |ss|
    ensures Inv(ss[n])
  {
    if n == 0 {
      InitInv(ss[0]);
    } else {
      RunInv(ss, es, n - 1);
      assert StepAt(ss, es, n - 1);
      StepInv(ss[n - 1], es[n - 1], ss[n]);
    }
  }
}
