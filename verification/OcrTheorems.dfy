/** What concurrent page transcription guarantees, whatever the interleaving of calls. */
module OcrTheorems {
  import opened Common
  import opened OcrRecord
  import opened OcrState
  import opened OcrProof

  // ---- budget and single flight ----

  /** The page budget counts the reserved keys and is never exceeded; only reserved keys are generated. */
  lemma PageBudget(ss: seq<State>, es: seq<Event>, n: nat)
    requires IsRun(ss, es) && n < |ss|
    ensures ss[n].newPages == |ss[n].reserved| && ss[n].newPages <= ss[n].maxNew
    ensures forall i :: 0 <= i < |ss[n].calls| && Spends(ss[n].calls[i].pc) ==>
              HasKey(ss[n], i) && KeyAt(ss[n], i) in ss[n].reserved
  {
    RunInv(ss, es, n);
    forall i | 0 <= i < |ss[n].calls| && Spends(ss[n].calls[i].pc)
      ensures HasKey(ss[n], i) && KeyAt(ss[n], i) in ss[n].reserved
    {
      assert CallOk(ss[n], i, ss[n].calls[i]);
    }
  }

  /** Generations for one key never overlap: at most one call is between its lock and its release. */
  lemma SingleFlight(ss: seq<State>, es: seq<Event>, n: nat, i: nat, j: nat)
    requires IsRun(ss, es) && n < |ss| && i < |ss[n].calls| && j < |ss[n].calls|
    requires Holds(ss[n].calls[i].pc) && Holds(ss[n].calls[j].pc) && ss[n].calls[i].key == ss[n].calls[j].key
    ensures i == j
  {
    RunInv(ss, es, n);
    assert CallOk(ss[n], i, ss[n].calls[i]) && CallOk(ss[n], j, ss[n].calls[j]);
  }

  // ---- the cache ----

  /** An entry is where a later call will find it. */
  predicate IsStored(s: State, key: Key) {
    key in s.local || (s.bucket && key in s.remote)
  }

  lemma StepKeepsStored(s: State, e: Event, t: State, key: Key)
    requires Inv(s) && Step(s, e, t) && IsStored(s, key) && key !in t.touched
    ensures IsStored(t, key)
  {
    match e
    case ByCall(i, a) =>
      StepInRange(s, i, a, t);
      assert CallOk(s, i, s.calls[i]);
      CallStepEffect(s, i, a, t);
    case Touch(k) =>
      assert key != k && Lookup(t.local, key) == Lookup(s.local, key) && Lookup(t.remote, key) == Lookup(s.remote, key);
  }

  lemma TouchedGrows(s: State, e: Event, t: State)
    requires Inv(s) && Step(s, e, t)
    ensures s.touched <= t.touched
  {
    match e
    case ByCall(i, a) =>
      StepInRange(s, i, a, t);
      assert CallOk(s, i, s.calls[i]);
      CallStepEffect(s, i, a, t);
    case Touch(_) =>
  }

  lemma {:induction false} StaysStored(ss: seq<State>, es: seq<Event>, n: nat, m: nat, key: Key)
    requires IsRun(ss, es) && n <= m < |ss| && IsStored(ss[n], key) && key !in ss[m].touched
    ensures IsStored(ss[m], key)
    decreases m
  {
    if n < m {
      RunInv(ss, es, m - 1);
      assert StepAt(ss, es, m - 1);
      TouchedGrows(ss[m - 1], es[m - 1], ss[m]);
      StaysStored(ss, es, n, m - 1, key);
      StepKeepsStored(ss[m - 1], es[m - 1], ss[m], key);
    }
  }

  /** Once an entry is stored, and while nobody else touches it, no call for its key reaches the model. */
  lemma StoredNeverRegenerated(ss: seq<State>, es: seq<Event>, n: nat, m: nat, i: nat, key: Key)
    requires IsRun(ss, es) && n <= m < |es| && IsStored(ss[n], key) && key !in ss[m].touched
    requires es[m] == ByCall(i, Attempt)
    ensures HasKey(ss[m], i) && KeyAt(ss[m], i) != key
  {
    StaysStored(ss, es, n, m, key);
    RunInv(ss, es, m);
    assert StepAt(ss, es, m);
    assert CallOk(ss[m], i, ss[m].calls[i]);
  }

  /** What a call returns for untouched files was generated for exactly its bindings. */
  lemma ReturnedWasGenerated(ss: seq<State>, es: seq<Event>, n: nat, i: nat)
    requires IsRun(ss, es) && n < |ss| && i < |ss[n].calls| && ss[n].calls[i].pc.Returned?
    ensures HasKey(ss[n], i)
    ensures var e := ss[n].calls[i].pc.entry;
      e.key == KeyAt(ss[n], i) && (KeyAt(ss[n], i) !in ss[n].touched ==> e in ss[n].made)
  {
    RunInv(ss, es, n);
    assert CallOk(ss[n], i, ss[n].calls[i]);
  }

  // ---- conservation ----

  predicate AtRest(c: Call) {
    c.pc.Idle? || c.pc.Returned? || c.pc.Raised?
  }

  /** Every call has returned or raised, or has not begun. */
  predicate Quiescent(s: State) {
    forall i :: 0 <= i < |s.calls| ==> AtRest(s.calls[i])
  }

  /** Calls that reached the SDK. */
  function Reached(cs: seq<Call>, k: nat): nat
    requires k <= |cs|
  {
    if k == 0 then 0 else Reached(cs, k - 1) + if cs[k - 1].calls > 0 then 1 else 0
  }

  /** Tokens of one kind reported as `usage` by calls that returned: those of fresh entries, none for hits. */
  function ReturnedUsage(name: string, cs: seq<Call>, k: nat): nat
    requires k <= |cs|
  {
    if k == 0 then 0
    else
      var pc := cs[k - 1].pc;
      ReturnedUsage(name, cs, k - 1) + if pc.Returned? && pc.source.Fresh? then Spent(pc.entry.usage, name) else 0
  }

  /** Tokens spent by calls that raised. */
  function LostUsage(name: string, cs: seq<Call>, k: nat): nat
    requires k <= |cs|
  {
    if k == 0 then 0 else LostUsage(name, cs, k - 1) + if cs[k - 1].pc.Raised? then Spent(cs[k - 1].spent, name) else 0
  }

  lemma {:induction false} PagesAgree(cs: seq<Call>, k: nat)
    requires k <= |cs| && forall i :: 0 <= i < k ==> AtRest(cs[i])
    ensures Total(Pages, cs, k) == Total(TranscribedPages, cs, k) + Total(BlankPages, cs, k) + Total(Errors, cs, k)
  {
    if k > 0 { PagesAgree(cs, k - 1); }
  }

  lemma {:induction false} HitsAgree(cs: seq<Call>, k: nat)
    requires k <= |cs|
    ensures Total(CacheHits, cs, k) == Total(LocalHits, cs, k) + Total(RemoteHits, cs, k)
  {
    if k > 0 { HitsAgree(cs, k - 1); }
  }

  lemma {:induction false} CallsAgree(cs: seq<Call>, k: nat)
    requires k <= |cs| && forall i :: 0 <= i < k ==> AtRest(cs[i]) && SpentOk(cs[i])
    ensures Total(ApiAttempts, cs, k) == Total(Retries, cs, k) + Reached(cs, k)
  {
    if k > 0 {
      CallsAgree(cs, k - 1);
      assert AtRest(cs[k - 1]) && SpentOk(cs[k - 1]);
    }
  }

  lemma {:induction false} CostsAgree(name: string, cs: seq<Call>, k: nat)
    requires k <= |cs| && forall i :: 0 <= i < k ==> AtRest(cs[i]) && SpentOk(cs[i])
    ensures TotalSpent(name, cs, k) == ReturnedUsage(name, cs, k) + LostUsage(name, cs, k)
  {
    if k > 0 {
      CostsAgree(name, cs, k - 1);
      assert AtRest(cs[k - 1]) && SpentOk(cs[k - 1]);
    }
  }

  /**
   * When all is quiet the books balance: every page is transcribed, blank or an error; every hit is
   * local or remote; attempts are first calls plus retries; and every token spent, of any kind, was
   * reported by a call that returned or lost in one that raised.
   */
  lemma BooksBalance(ss: seq<State>, es: seq<Event>, n: nat)
    requires IsRun(ss, es) && n < |ss| && Quiescent(ss[n])
    ensures HasAll(ss[n].counters)
    ensures var c, calls, k := ss[n].counters, ss[n].calls, |ss[n].calls|;
      && c[Pages] == c[TranscribedPages] + c[BlankPages] + c[Errors]
      && c[CacheHits] == c[LocalHits] + c[RemoteHits]
      && c[ApiAttempts] == c[Retries] + Reached(calls, k)
    ensures forall name: string ::
      Spent(ss[n].usage, name) == ReturnedUsage(name, ss[n].calls, |ss[n].calls|) + LostUsage(name, ss[n].calls, |ss[n].calls|)
  {
    var s := ss[n];
    RunInv(ss, es, n);
    forall i | 0 <= i < |s.calls| ensures SpentOk(s.calls[i]) {
      assert CallOk(s, i, s.calls[i]);
    }
    PagesAgree(s.calls, |s.calls|);
    HitsAgree(s.calls, |s.calls|);
    CallsAgree(s.calls, |s.calls|);
    forall name: string
      ensures Spent(s.usage, name) == ReturnedUsage(name, s.calls, |s.calls|) + LostUsage(name, s.calls, |s.calls|)
    {
      CostsAgree(name, s.calls, |s.calls|);
    }
  }
}
