/** What a call of the transcription does when nobody disturbs it. */
module OcrProgress {
  import opened Common
  import opened OcrRecord
  import opened OcrState
  import Runs

  ghost predicate Leads(s: State, s': State) {
    Runs.Leads(Step, s, s')
  }

  lemma First(s: State, i: nat, a: Action, s': State)
    requires CallStep(s, i, a, s')
    ensures Leads(s, s')
  {
    assert Step(s, ByCall(i, a), s');
    Runs.OneStep(Step, s, ByCall(i, a), s');
  }

  lemma Then(s: State, m: State, i: nat, a: Action, s': State)
    requires Leads(s, m) && CallStep(m, i, a, s')
    ensures Leads(s, s')
  {
    First(m, i, a, s');
    Runs.ThenLeads(Step, s, m, s');
  }

  /** The state in which call `i` stands at `c`. */
  function At(s: State, i: nat, c: Call): State
    requires i < |s.calls|
  {
    s.(calls := s.calls[i := c])
  }

  function Counted1(s: State, c: Counter): State
    requires HasAll(s.counters)
  {
    s.(counters := s.counters[c := s.counters[c] + 1])
  }

  /** A call that has just been made for this page, its key free: neither locked nor stored. */
  predicate Begins(s: State, i: nat, key: Key) {
    && HasAll(s.counters) && i < |s.calls| && s.calls[i] == Call(Idle, None, 0, ZERO_USAGE, 0)
    && key !in s.locks
  }

  /** The call waits for the lock of its page, takes it, and looks for a local file. */
  lemma Arrives(s: State, i: nat, key: Key) returns (s': State)
    requires Begins(s, i, key)
    ensures Leads(s, s') && HasAll(s'.counters) && s'.counters == Counted1(s, Pages).counters
    ensures s' == s.(counters := s'.counters, locks := s.locks[key := i],
                     calls := s.calls[i := Call(Reading, Some(key), 0, ZERO_USAGE, 0)])
  {
    var c := s.calls[i];
    var s1 := Move(s.(counters := Add(s.counters, Pages, 1)), i, Counted);
    var s2 := s1.(calls := s1.calls[i := s1.calls[i].(pc := Waiting, key := Some(key))]);
    s' := Move(s2.(locks := s2.locks[key := i]), i, Reading);
    First(s, i, Arrive, s1);
    Then(s, s1, i, Bind(key), s2);
    Then(s, s2, i, Acquire, s');
  }

  /** No file is there: the call is about to reserve its page. */
  lemma Misses(s: State, i: nat, key: Key) returns (s': State)
    requires i < |s.calls| && s.calls[i].pc == Reading && s.calls[i].key == Some(key)
    requires key !in s.local && (s.bucket ==> key !in s.remote)
    ensures Leads(s, s') && s' == At(s, i, s.calls[i].(pc := Missing))
  {
    s' := Move(s, i, Missing);
    if s.bucket {
      First(s, i, ReadLocal, Move(s, i, ReadingRemote));
      Then(s, Move(s, i, ReadingRemote), i, ReadRemote, s');
    } else {
      First(s, i, ReadLocal, s');
    }
  }

  /** A page may be generated exactly when it was reserved before or the budget has room for one more. */
  lemma ReservesIffBudget(s: State, i: nat)
    requires i < |s.calls| && s.calls[i].pc == Missing && s.calls[i].key.Some?
    ensures (exists t :: StepReserve(s, i, t)) <==> s.calls[i].key.value in s.reserved || s.newPages < s.maxNew
    ensures forall t :: StepReserve(s, i, t) ==>
      t == At(s, i, s.calls[i].(pc := Generating(1))).(reserved := s.reserved + {s.calls[i].key.value},
             newPages := s.newPages + if s.calls[i].key.value in s.reserved then 0 else 1)
  {
    var k := s.calls[i].key.value;
    var t := if k in s.reserved then Move(s, i, Generating(1))
             else Move(s.(reserved := s.reserved + {k}, newPages := s.newPages + 1), i, Generating(1));
    assert k in s.reserved ==> s.reserved + {k} == s.reserved;
    if k in s.reserved || s.newPages < s.maxNew { assert StepReserve(s, i, t); }
  }

  /** A transient failure is tried again exactly when fewer than three attempts have been made, a fatal one never. */
  lemma TriesAgainIff(s: State, i: nat)
    requires i < |s.calls| && s.calls[i].key.Some? && s.calls[i].pc.Answered? && !s.calls[i].pc.answer.Success?
    ensures (exists t :: StepJudge(s, i, t)) <==> s.calls[i].pc.answer == Transient && s.calls[i].pc.attempt < 3
    ensures forall t :: StepJudge(s, i, t) ==> t == At(s, i, s.calls[i].(pc := Generating(s.calls[i].pc.attempt + 1)))
  {
    if s.calls[i].pc.answer == Transient && s.calls[i].pc.attempt < 3 {
      assert StepJudge(s, i, Move(s, i, Generating(s.calls[i].pc.attempt + 1)));
    }
  }

  /** An attempt for which no client can be had passes without a call, and only the first two can. */
  lemma SkipsIff(s: State, i: nat)
    requires i < |s.calls| && s.calls[i].key.Some? && s.calls[i].pc.Generating?
    ensures (exists t :: StepSkip(s, i, t)) <==> s.calls[i].pc.attempt < 3
    ensures forall t :: StepSkip(s, i, t) ==> t == At(s, i, s.calls[i].(pc := Generating(s.calls[i].pc.attempt + 1)))
  {
    if s.calls[i].pc.attempt < 3 { assert StepSkip(s, i, Move(s, i, Generating(s.calls[i].pc.attempt + 1))); }
  }

  lemma Attempts(s: State, i: nat) returns (s': State)
    requires HasAll(s.counters) && HasKey(s, i) && s.calls[i].pc == Generating(1) && s.calls[i].calls == 0
    ensures StepAttempt(s, i, s') && s'.counters == Counted1(s, ApiAttempts).counters
    ensures s' == s.(counters := s'.counters, calls := s.calls[i := s.calls[i].(pc := Calling(1), calls := 1)])
  {
    s' := s.(counters := Add(Add(s.counters, ApiAttempts, 1), Retries, 0),
             calls := s.calls[i := s.calls[i].(pc := Calling(1), calls := 1)]);
  }

  lemma IsAnswered(s: State, i: nat, page: Page, raw: RawUsage) returns (s': State)
    requires HasKey(s, i) && s.calls[i].pc == Calling(1) && s.calls[i].unavailable == 0
    ensures StepAnswer(s, i, raw.fields, Success(page, raw), s')
    ensures s' == s.(usage := AddUsage(s.usage, raw.fields),
                     calls := s.calls[i := s.calls[i].(pc := Answered(1, Success(page, raw)), spent := AddUsage(s.calls[i].spent, raw.fields))])
  {
    s' := s.(usage := AddUsage(s.usage, raw.fields),
             calls := s.calls[i := s.calls[i].(pc := Answered(1, Success(page, raw)), spent := AddUsage(s.calls[i].spent, raw.fields))]);
  }

  lemma AnsweredOnce(s: State, i: nat, page: Page, raw: RawUsage) returns (s': State)
    requires HasAll(s.counters) && HasKey(s, i) && s.calls[i] == Call(Generating(1), s.calls[i].key, 0, ZERO_USAGE, 0)
    ensures Leads(s, s') && s'.counters == Counted1(s, ApiAttempts).counters
    ensures s' == s.(counters := s'.counters, usage := AddUsage(s.usage, raw.fields),
                     calls := s.calls[i := Call(Answered(1, Success(page, raw)), s.calls[i].key, 1, AddUsage(ZERO_USAGE, raw.fields), 0)])
  {
    var s1 := Attempts(s, i);
    First(s, i, Attempt, s1);
    s' := IsAnswered(s1, i, page, raw);
    Then(s, s1, i, Answer(raw.fields, Success(page, raw)), s');
  }

  /** A first successful answer, judged. */
  lemma Generates(s: State, i: nat, key: Key, page: Page, raw: RawUsage) returns (s': State, e: Entry)
    requires HasAll(s.counters) && i < |s.calls| && s.calls[i] == Call(Generating(1), Some(key), 0, ZERO_USAGE, 0)
    ensures e.key == key && e.page == page && e.raw == raw && e.unavailable == Some(0)
    ensures forall name: string :: Spent(e.usage, name) == Reported(raw.fields, name)
    ensures Leads(s, s') && HasAll(s'.counters)
    ensures s' == s.(counters := s'.counters, usage := s'.usage, made := s.made + {e},
                     calls := s.calls[i := Call(Storing(e), Some(key), 1, e.usage, 0)])
  {
    var s1 := AnsweredOnce(s, i, page, raw);
    e := Entry(key, page, AddUsage(ZERO_USAGE, raw.fields), raw, Some(0));
    s' := Move(s1.(made := s1.made + {e}), i, Storing(e));
    assert StepJudge(s1, i, s');
    Then(s, s1, i, Judge, s');
  }

  /** An entry is stored where this call and later ones will look for it. */
  lemma Stores(s: State, i: nat, e: Entry) returns (s': State)
    requires i < |s.calls| && s.calls[i].pc == Storing(e) && s.calls[i].key == Some(e.key)
    ensures Leads(s, s')
    ensures s' == At(s, i, s.calls[i].(pc := Finishing(e, Fresh))).(
                    local := s.local[e.key := File(Encode(e))],
                    remote := if s.bucket then s.remote[e.key := File(Encode(e))] else s.remote)
  {
    var s1 := Move(if s.bucket then s.(remote := s.remote[e.key := File(Encode(e))]) else s, i, Keeping(e));
    s' := Move(s1.(local := s1.local[e.key := File(Encode(e))]), i, Finishing(e, Fresh));
    First(s, i, PutRemote, s1);
    Then(s, s1, i, Keep, s');
  }

  function StatusOf(page: Page): Counter {
    if page.status == Transcribed then TranscribedPages else BlankPages
  }

  /** What a page that is returned counts for: its status and, for a hit, the hit and where it was. */
  predicate CountsFor(c: Counter, page: Page, source: Source) {
    || c == StatusOf(page) || (c == CacheHits && !source.Fresh?) || (c == LocalHits && source.Local?)
    || (c == RemoteHits && source.Remote?)
  }

  lemma CountersMean(counters: map<Counter, nat>, page: Page, source: Source) returns (r: map<Counter, nat>)
    requires HasAll(counters)
    ensures var counted := Add(counters, StatusCounter(page.status), 1);
      r == match source
           case Fresh => counted
           case Local => Add(Add(counted, CacheHits, 1), LocalHits, 1)
           case Remote => Add(Add(counted, CacheHits, 1), RemoteHits, 1)
    ensures HasAll(r) && forall c: Counter :: r[c] == counters[c] + if CountsFor(c, page, source) then 1 else 0
  {
    r := Add(counters, StatusCounter(page.status), 1);
    if source.Local? { r := Add(Add(r, CacheHits, 1), LocalHits, 1); }
    if source.Remote? { r := Add(Add(r, CacheHits, 1), RemoteHits, 1); }
  }

  lemma CountsPage(s: State, i: nat, e: Entry, source: Source) returns (s': State)
    requires HasAll(s.counters) && i < |s.calls| && s.calls[i].pc == Finishing(e, source) && s.calls[i].key == Some(e.key)
    ensures Leads(s, s') && HasAll(s'.counters)
    ensures s' == s.(counters := s'.counters, calls := s.calls[i := s.calls[i].(pc := Leaving(e, source))])
    ensures forall c: Counter :: s'.counters[c] == s.counters[c] + if CountsFor(c, e.page, source) then 1 else 0
  {
    var counters := CountersMean(s.counters, e.page, source);
    s' := Move(s.(counters := counters), i, Leaving(e, source));
    assert StepCount(s, i, s');
    First(s, i, Count, s');
  }

  /** A call that is done counts its page and gives up the lock. */
  lemma Returns(s: State, i: nat, e: Entry, source: Source) returns (s': State)
    requires HasAll(s.counters) && i < |s.calls| && s.calls[i].pc == Finishing(e, source) && s.calls[i].key == Some(e.key)
    ensures Leads(s, s') && HasAll(s'.counters)
    ensures s' == s.(counters := s'.counters, locks := s.locks - {e.key},
                     calls := s.calls[i := s.calls[i].(pc := Returned(e, source))])
    ensures forall c: Counter :: s'.counters[c] == s.counters[c] + if CountsFor(c, e.page, source) then 1 else 0
  {
    var s1 := CountsPage(s, i, e, source);
    s' := Unlock(s1, i, Returned(e, source));
    Then(s, s1, i, Leave, s');
  }

  // ---- whole calls ----

  lemma Reaches(s: State, i: nat, key: Key) returns (s': State)
    requires Begins(s, i, key) && key !in s.local && (s.bucket ==> key !in s.remote)
    requires key in s.reserved || s.newPages < s.maxNew
    ensures Leads(s, s') && HasAll(s'.counters)
    ensures s' == s.(counters := s'.counters, locks := s.locks[key := i], reserved := s.reserved + {key},
                     newPages := s.newPages + if key in s.reserved then 0 else 1,
                     calls := s.calls[i := Call(Generating(1), Some(key), 0, ZERO_USAGE, 0)])
  {
    var s1 := Arrives(s, i, key);
    var s2 := Misses(s1, i, key);
    Runs.ThenLeads(Step, s, s1, s2);
    ReservesIffBudget(s2, i);
    s' :| StepReserve(s2, i, s');
    Then(s, s2, i, Reserve, s');
  }

  lemma Answers(s: State, i: nat, key: Key, page: Page, raw: RawUsage) returns (s': State, e: Entry)
    requires HasAll(s.counters) && i < |s.calls| && s.calls[i] == Call(Generating(1), Some(key), 0, ZERO_USAGE, 0)
    ensures e.key == key && e.page == page && e.raw == raw
    ensures Leads(s, s') && HasAll(s'.counters)
    ensures s' == s.(counters := s'.counters, usage := s'.usage, made := s'.made, local := s.local[key := File(Encode(e))],
                     remote := if s.bucket then s.remote[key := File(Encode(e))] else s.remote,
                     calls := s.calls[i := Call(Finishing(e, Fresh), Some(key), 1, e.usage, 0)])
  {
    var s1; s1, e := Generates(s, i, key, page, raw);
    s' := Stores(s1, i, e);
    Runs.ThenLeads(Step, s, s1, s');
  }

  /** An undisturbed call for a page that is stored nowhere, with budget left, returns the SDK's own answer
      and leaves it where later calls look. */
  lemma CallGenerates(s: State, i: nat, key: Key, page: Page, raw: RawUsage) returns (s': State, e: Entry)
    requires Begins(s, i, key) && key !in s.local && (s.bucket ==> key !in s.remote)
    requires key in s.reserved || s.newPages < s.maxNew
    ensures Leads(s, s') && |s'.calls| == |s.calls| && s'.calls[i].pc == Returned(e, Fresh) && s'.locks == s.locks
    ensures e.key == key && e.page == page && e.raw == raw
    ensures HasAll(s'.counters) && s'.calls == s.calls[i := s'.calls[i]]
    ensures s'.local == s.local[key := File(Encode(e))]
    ensures s'.remote == if s.bucket then s.remote[key := File(Encode(e))] else s.remote
    ensures s'.reserved == s.reserved + {key} && s'.newPages == s.newPages + if key in s.reserved then 0 else 1
  {
    var s1 := Reaches(s, i, key);
    var s2; s2, e := Answers(s1, i, key, page, raw);
    s' := Returns(s2, i, e, Fresh);
    LockFreed(s.locks, key, i);
    Runs.ThenLeads(Step, s, s1, s2);
    Runs.ThenLeads(Step, s, s2, s');
  }

  lemma LockFreed(locks: map<Key, nat>, key: Key, i: nat)
    requires key !in locks
    ensures locks[key := i] - {key} == locks
  {
  }

  lemma FindsLocal(s: State, i: nat, e: Entry) returns (s': State)
    requires Begins(s, i, e.key) && e.key in s.local && s.local[e.key] == File(Encode(e))
    ensures Leads(s, s') && HasAll(s'.counters)
    ensures s' == s.(counters := s'.counters, locks := s.locks[e.key := i],
                     calls := s.calls[i := Call(Finishing(e, Local), Some(e.key), 0, ZERO_USAGE, 0)])
  {
    GeneratedIsAccepted(e);
    var s1 := Arrives(s, i, e.key);
    s' := Move(s1, i, Finishing(e, Local));
    Then(s, s1, i, ReadLocal, s');
  }

  /** An undisturbed call for a page with a local file returns what the file holds, and asks nobody. */
  lemma CallHitsLocal(s: State, i: nat, e: Entry) returns (s': State)
    requires Begins(s, i, e.key) && e.key in s.local && s.local[e.key] == File(Encode(e))
    ensures Leads(s, s')
    ensures s' == s.(counters := s'.counters, calls := s.calls[i := Call(Returned(e, Local), Some(e.key), 0, ZERO_USAGE, 0)])
  {
    var s1 := FindsLocal(s, i, e);
    s' := Returns(s1, i, e, Local);
    LockFreed(s.locks, e.key, i);
    Runs.ThenLeads(Step, s, s1, s');
  }

  lemma Copies(s: State, i: nat, e: Entry) returns (s': State)
    requires HasKey(s, i) && s.calls[i].pc == Copying(e) && KeyAt(s, i) == e.key
    ensures Leads(s, s')
    ensures s' == s.(local := s.local[e.key := File(Encode(e))], calls := s.calls[i := s.calls[i].(pc := Finishing(e, Remote))])
  {
    s' := Move(s.(local := s.local[e.key := File(Encode(e))]), i, Finishing(e, Remote));
    First(s, i, Copy, s');
  }

  lemma ReadsRemote(s: State, i: nat, e: Entry) returns (s': State)
    requires HasKey(s, i) && s.calls[i].pc == ReadingRemote && KeyAt(s, i) == e.key
    requires e.key in s.remote && s.remote[e.key] == File(Encode(e))
    ensures Leads(s, s') && s' == s.(calls := s.calls[i := s.calls[i].(pc := Copying(e))])
  {
    GeneratedIsAccepted(e);
    s' := Move(s, i, Copying(e));
    assert StepReadRemote(s, i, s');
    First(s, i, ReadRemote, s');
  }

  lemma FindsRemote(s: State, i: nat, e: Entry) returns (s': State)
    requires HasKey(s, i) && s.calls[i].pc == Reading && KeyAt(s, i) == e.key && s.bucket
    requires e.key !in s.local && e.key in s.remote && s.remote[e.key] == File(Encode(e))
    ensures Leads(s, s')
    ensures s' == s.(local := s.local[e.key := File(Encode(e))], calls := s.calls[i := s.calls[i].(pc := Finishing(e, Remote))])
  {
    var s1 := Move(s, i, ReadingRemote);
    First(s, i, ReadLocal, s1);
    var s2 := ReadsRemote(s1, i, e);
    s' := Copies(s2, i, e);
    Runs.ThenLeads(Step, s, s1, s2);
    Runs.ThenLeads(Step, s, s2, s');
  }

  /** ... and one for a page with only a remote file returns what that holds, and copies it. */
  lemma CallHitsRemote(s: State, i: nat, e: Entry) returns (s': State)
    requires Begins(s, i, e.key) && s.bucket && e.key !in s.local && e.key in s.remote && s.remote[e.key] == File(Encode(e))
    ensures Leads(s, s')
    ensures s' == s.(counters := s'.counters, local := s.local[e.key := File(Encode(e))],
                     calls := s.calls[i := Call(Returned(e, Remote), Some(e.key), 0, ZERO_USAGE, 0)])
  {
    var s1 := Arrives(s, i, e.key);
    var s2 := FindsRemote(s1, i, e);
    s' := Returns(s2, i, e, Remote);
    LockFreed(s.locks, e.key, i);
    Runs.ThenLeads(Step, s, s1, s2);
    Runs.ThenLeads(Step, s, s2, s');
  }

  // ---- whole runs ----

  /** A transcription of `n` pages that has not begun, without files of earlier builds. */
  function Empty(maxNew: nat, bucket: bool, n: nat): State {
    State(maxNew, bucket,
          map[Pages := 0, TranscribedPages := 0, BlankPages := 0, Errors := 0,
              CacheHits := 0, LocalHits := 0, RemoteHits := 0, ApiAttempts := 0, Retries := 0],
          ZERO_USAGE, 0, {}, map[], map[], map[], seq(n, i => Call(Idle, None, 0, ZERO_USAGE, 0)), {}, {})
  }

  lemma EmptyIsInit(maxNew: nat, bucket: bool, n: nat)
    ensures Init(Empty(maxNew, bucket, n))
  {
    var counters := Empty(maxNew, bucket, n).counters;
    forall c: Counter ensures c in counters && counters[c] == 0 {
      match c
      case Pages => case TranscribedPages => case BlankPages => case Errors => case CacheHits =>
      case LocalHits => case RemoteHits => case ApiAttempts => case Retries =>
    }
  }

  /** From an empty cache, a first call returns the SDK's answer and a second for the same page the same entry, from the local file. */
  lemma SecondCallHits(maxNew: nat, bucket: bool, key: Key, page: Page, raw: RawUsage) returns (s': State, e: Entry)
    requires maxNew > 0
    ensures Leads(Empty(maxNew, bucket, 2), s') && |s'.calls| == 2 && s'.newPages == 1
    ensures s'.calls[0].pc == Returned(e, Fresh) && s'.calls[1].pc == Returned(e, Local)
    ensures e.key == key && e.page == page && e.raw == raw
  {
    var s := Empty(maxNew, bucket, 2);
    EmptyIsInit(maxNew, bucket, 2);
    var s1; s1, e := CallGenerates(s, 0, key, page, raw);
    s' := CallHitsLocal(s1, 1, e);
    Runs.ThenLeads(Step, s, s1, s');
  }
}
