/**
 Page transcription shared by threads: each call is a program counter, each step the work between
 two points where another thread can run.
 */
module OcrState {
  import opened Common
  import opened OcrRecord

  const MAX_ATTEMPTS: nat := 3

  /** A cache file: the JSON value it encodes, or bytes that encode none. */
  datatype Blob = File(json: Json) | Junk

  predicate Accepted(b: Blob, key: Key) { b.File? && ValidCache(b.json, key.bindings, key) }

  function Read(b: Blob, key: Key): Entry
    requires Accepted(b, key)
  {
    EntryOf(b.json, key.bindings, key)
  }

  /** The SDK returned a valid page and usage, failed for now, or failed for good. */
  datatype Answer = Success(page: Page, raw: RawUsage) | Transient | Fatal

  datatype Source = Fresh | Local | Remote

  datatype Pc =
    | Idle
    | Counted
    | Waiting
    | Reading
    | ReadingRemote
    | Copying(entry: Entry)
    | Missing
    | Generating(attempt: nat)
    | Calling(attempt: nat)
    | Answered(attempt: nat, answer: Answer)
    | Storing(entry: Entry)
    | Keeping(entry: Entry)
    | Finishing(entry: Entry, source: Source)
    | Leaving(entry: Entry, source: Source)
    | Returned(entry: Entry, source: Source)
    | Raising
    | Raised

  /** One call of `process_page`: its key once known, the SDK calls it made, the tokens they cost,
      and how many of them did not report their usage. */
  datatype Call = Call(pc: Pc, key: Option<Key>, calls: nat, spent: Usage, unavailable: nat)

  datatype Counter =
    | Pages | TranscribedPages | BlankPages | Errors
    | CacheHits | LocalHits | RemoteHits | ApiAttempts | Retries

  datatype State = State(
    maxNew: nat, bucket: bool,
    counters: map<Counter, nat>, usage: Usage, newPages: nat, reserved: set<Key>,
    locks: map<Key, nat>, local: map<Key, Blob>, remote: map<Key, Blob>,
    calls: seq<Call>,
    made: set<Entry>, touched: set<Key>)

  datatype Action =
    | Arrive | Refuse | Bind(key: Key) | GiveUp | Acquire
    | ReadLocal | ReadRemote | Copy
    | Reserve | Attempt | Skip | Answer(reported: map<string, Json>, answer: Answer) | Judge
    | PutRemote | PutThenFail | Keep | Count | Leave
    | Fail | CountError

  // ---- helpers ----

  predicate HasAll(counters: map<Counter, nat>) {
    forall c: Counter :: c in counters
  }

  function Add(counters: map<Counter, nat>, c: Counter, n: nat): map<Counter, nat>
    requires HasAll(counters)
  {
    counters[c := counters[c] + n]
  }

  predicate At(s: State, i: nat, pc: Pc) {
    i < |s.calls| && s.calls[i].pc == pc
  }

  /** The call of thread `i` moves on. */
  function Move(s: State, i: nat, pc: Pc): State
    requires i < |s.calls|
  {
    s.(calls := s.calls[i := s.calls[i].(pc := pc)])
  }

  /** The page lock of the call's key is held. */
  predicate Holds(pc: Pc) {
    || pc.Reading? || pc.ReadingRemote? || pc.Copying? || pc.Missing? || pc.Generating? || pc.Calling?
    || pc.Answered? || pc.Storing? || pc.Keeping? || pc.Finishing? || pc.Leaving?
  }

  predicate HasKey(s: State, i: nat) {
    i < |s.calls| && s.calls[i].key.Some?
  }

  function KeyAt(s: State, i: nat): Key
    requires HasKey(s, i)
  {
    s.calls[i].key.value
  }

  /** An exception leaves the locked region: the lock is released, the error not yet counted. */
  function Unlock(s: State, i: nat, pc: Pc): State
    requires HasKey(s, i)
  {
    Move(s.(locks := s.locks - {KeyAt(s, i)}), i, pc)
  }

  // ---- the steps of a call ----

  predicate StepArrive(s: State, i: nat, t: State) {
    && HasAll(s.counters) && At(s, i, Idle)
    && t == Move(s.(counters := Add(s.counters, Pages, 1)), i, Counted)
  }

  /** Bad arguments, a deadline already past or a cancellation. */
  predicate StepRefuse(s: State, i: nat, t: State) {
    At(s, i, Counted) && t == Move(s, i, Raising)
  }

  predicate StepBind(s: State, i: nat, key: Key, t: State) {
    && At(s, i, Counted)
    && t == s.(calls := s.calls[i := s.calls[i].(pc := Waiting, key := Some(key))])
  }

  /** The deadline passes while waiting for the page lock. */
  predicate StepGiveUp(s: State, i: nat, t: State) {
    At(s, i, Waiting) && t == Move(s, i, Raising)
  }

  predicate StepAcquire(s: State, i: nat, t: State) {
    && At(s, i, Waiting) && HasKey(s, i) && KeyAt(s, i) !in s.locks
    && t == Move(s.(locks := s.locks[KeyAt(s, i) := i]), i, Reading)
  }

  /** A local file decides the read: accepted, or refused (then only `Fail` is left). */
  predicate StepReadLocal(s: State, i: nat, t: State) {
    && At(s, i, Reading) && HasKey(s, i)
    && var k := KeyAt(s, i);
       if k in s.local
       then Accepted(s.local[k], k) && t == Move(s, i, Finishing(Read(s.local[k], k), Local))
       else t == Move(s, i, if s.bucket then ReadingRemote else Missing)
  }

  predicate StepReadRemote(s: State, i: nat, t: State) {
    && At(s, i, ReadingRemote) && HasKey(s, i)
    && var k := KeyAt(s, i);
       if k in s.remote
       then Accepted(s.remote[k], k) && t == Move(s, i, Copying(Read(s.remote[k], k)))
       else t == Move(s, i, Missing)
  }

  predicate StepCopy(s: State, i: nat, t: State) {
    && HasKey(s, i) && s.calls[i].pc.Copying?
    && var e := s.calls[i].pc.entry;
       t == Move(s.(local := s.local[KeyAt(s, i) := File(Encode(e))]), i, Finishing(e, Remote))
  }

  /** A page not reserved before counts against the budget; over the budget only `Fail` is left. */
  predicate StepReserve(s: State, i: nat, t: State) {
    && At(s, i, Missing) && HasKey(s, i)
    && var k := KeyAt(s, i);
       if k in s.reserved then t == Move(s, i, Generating(1))
       else && s.newPages < s.maxNew
            && t == Move(s.(reserved := s.reserved + {k}, newPages := s.newPages + 1), i, Generating(1))
  }

  predicate StepAttempt(s: State, i: nat, t: State) {
    && HasAll(s.counters) && HasKey(s, i) && s.calls[i].pc.Generating?
    && var c := s.calls[i];
       t == s.(counters := Add(Add(s.counters, ApiAttempts, 1), Retries, if c.calls > 0 then 1 else 0),
               calls := s.calls[i := c.(pc := Calling(c.pc.attempt), calls := c.calls + 1)])
  }

  /** No client could be had: the attempt passes without a call. */
  predicate StepSkip(s: State, i: nat, t: State) {
    && HasKey(s, i) && s.calls[i].pc.Generating? && s.calls[i].pc.attempt < MAX_ATTEMPTS
    && t == Move(s, i, Generating(s.calls[i].pc.attempt + 1))
  }

  /** Whatever usage the reply or the error reports is counted. */
  predicate StepAnswer(s: State, i: nat, reported: map<string, Json>, answer: Answer, t: State) {
    && HasKey(s, i) && s.calls[i].pc.Calling? && (answer.Success? ==> answer.raw == Obj(reported))
    && var c := s.calls[i];
       t == s.(usage := AddUsage(s.usage, reported),
               calls := s.calls[i := c.(pc := Answered(c.pc.attempt, answer), spent := AddUsage(c.spent, reported),
                                        unavailable := c.unavailable + if ValidRawUsage(Obj(reported)) then 0 else 1)])
  }

  /** A success becomes an entry; a transient failure with attempts left is tried again. */
  predicate StepJudge(s: State, i: nat, t: State) {
    && HasKey(s, i) && s.calls[i].pc.Answered?
    && var c := s.calls[i];
       match c.pc.answer
       case Success(page, raw) =>
         var e := Entry(KeyAt(s, i), page, c.spent, raw, Some(c.unavailable));
         t == Move(s.(made := s.made + {e}), i, Storing(e))
       case Transient => c.pc.attempt < MAX_ATTEMPTS && t == Move(s, i, Generating(c.pc.attempt + 1))
       case Fatal => false
  }

  predicate StepPutRemote(s: State, i: nat, t: State) {
    && HasKey(s, i) && s.calls[i].pc.Storing?
    && var e := s.calls[i].pc.entry;
       t == Move(if s.bucket then s.(remote := s.remote[KeyAt(s, i) := File(Encode(e))]) else s, i, Keeping(e))
  }

  /** The remote write took effect but is reported as failed. */
  predicate StepPutThenFail(s: State, i: nat, t: State) {
    && HasKey(s, i) && s.calls[i].pc.Storing? && s.bucket
    && t == Unlock(s.(remote := s.remote[KeyAt(s, i) := File(Encode(s.calls[i].pc.entry))]), i, Raising)
  }

  predicate StepKeep(s: State, i: nat, t: State) {
    && HasKey(s, i) && s.calls[i].pc.Keeping?
    && var e := s.calls[i].pc.entry;
       t == Move(s.(local := s.local[KeyAt(s, i) := File(Encode(e))]), i, Finishing(e, Fresh))
  }

  function StatusCounter(status: Status): Counter {
    if status.Transcribed? then TranscribedPages else BlankPages
  }

  predicate StepCount(s: State, i: nat, t: State) {
    && HasAll(s.counters) && HasKey(s, i) && s.calls[i].pc.Finishing?
    && var e, source := s.calls[i].pc.entry, s.calls[i].pc.source;
       var counted := Add(s.counters, StatusCounter(e.page.status), 1);
       t == Move(s.(counters := match source
                      case Fresh => counted
                      case Local => Add(Add(counted, CacheHits, 1), LocalHits, 1)
                      case Remote => Add(Add(counted, CacheHits, 1), RemoteHits, 1)),
                 i, Leaving(e, source))
  }

  predicate StepLeave(s: State, i: nat, t: State) {
    && HasKey(s, i) && s.calls[i].pc.Leaving?
    && t == Unlock(s, i, Returned(s.calls[i].pc.entry, s.calls[i].pc.source))
  }

  /** Any exception inside the locked region, except during the SDK call itself or once counted. */
  predicate StepFail(s: State, i: nat, t: State) {
    && HasKey(s, i) && Holds(s.calls[i].pc) && !s.calls[i].pc.Calling? && !s.calls[i].pc.Leaving?
    && t == Unlock(s, i, Raising)
  }

  predicate StepCountError(s: State, i: nat, t: State) {
    && HasAll(s.counters) && At(s, i, Raising)
    && t == Move(s.(counters := Add(s.counters, Errors, 1)), i, Raised)
  }

  predicate CallStep(s: State, i: nat, a: Action, t: State) {
    match a
    case Arrive => StepArrive(s, i, t)
    case Refuse => StepRefuse(s, i, t)
    case Bind(key) => StepBind(s, i, key, t)
    case GiveUp => StepGiveUp(s, i, t)
    case Acquire => StepAcquire(s, i, t)
    case ReadLocal => StepReadLocal(s, i, t)
    case ReadRemote => StepReadRemote(s, i, t)
    case Copy => StepCopy(s, i, t)
    case Reserve => StepReserve(s, i, t)
    case Attempt => StepAttempt(s, i, t)
    case Skip => StepSkip(s, i, t)
    case Answer(reported, answer) => StepAnswer(s, i, reported, answer, t)
    case Judge => StepJudge(s, i, t)
    case PutRemote => StepPutRemote(s, i, t)
    case PutThenFail => StepPutThenFail(s, i, t)
    case Keep => StepKeep(s, i, t)
    case Count => StepCount(s, i, t)
    case Leave => StepLeave(s, i, t)
    case Fail => StepFail(s, i, t)
    case CountError => StepCountError(s, i, t)
  }

  /** Someone else changes the cache files of a key: removes, corrupts or replaces them. */
  ghost predicate StepTouch(s: State, key: Key, t: State) {
    && (forall k :: k != key ==> Lookup(t.local, k) == Lookup(s.local, k) && Lookup(t.remote, k) == Lookup(s.remote, k))
    && t == s.(local := t.local, remote := t.remote, touched := s.touched + {key})
  }

  datatype Event = ByCall(i: nat, action: Action) | Touch(key: Key)

  ghost predicate Step(s: State, e: Event, t: State) {
    match e
    case ByCall(i, a) => CallStep(s, i, a, t)
    case Touch(key) => StepTouch(s, key, t)
  }

  /** A file nobody else touched holds an entry generated for its key. */
  predicate Intact(store: map<Key, Blob>, touched: set<Key>, made: set<Entry>) {
    forall k :: k in store && k !in touched ==> Accepted(store[k], k) && Read(store[k], k) in made
  }

  /** No call has begun; files left by earlier builds are entries they made, or count as touched. */
  ghost predicate Init(s: State) {
    && HasAll(s.counters) && (forall c: Counter :: c in s.counters && s.counters[c] == 0)
    && s.usage == ZERO_USAGE && s.newPages == 0 && s.reserved == {} && s.locks == map[]
    && (forall i :: 0 <= i < |s.calls| ==> s.calls[i] == Call(Idle, None, 0, ZERO_USAGE, 0))
    && Intact(s.local, s.touched, s.made) && Intact(s.remote, s.touched, s.made)
  }

  ghost predicate StepAt(ss: seq<State>, es: seq<Event>, n: nat)
    requires |ss| == |es| + 1 && n < |es|
  {
    Step(ss[n], es[n], ss[n + 1])
  }

  ghost predicate IsRun(ss: seq<State>, es: seq<Event>) {
    && |ss| == |es| + 1 && Init(ss[0])
    && forall n :: 0 <= n < |es| ==> StepAt(ss, es, n)
  }
}
