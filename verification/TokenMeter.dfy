/** The token budget of a group build: every model call is reserved for in advance, and nothing is refunded. */
module TokenMeter {
  import opened Common
  import opened Decisions

  const MAX_INPUT_TOKENS: nat := 200_000
  const MAX_OUTPUT_TOKENS: nat := 40_000
  const MODEL_OUTPUT_TOKENS: nat := 2_048
  const MAX_MODEL_ATTEMPTS: nat := 2

  datatype Notice =
    | DEADLINE_EXCEEDED | BUDGET_EXCEEDED | MODEL_UNAVAILABLE | MODEL_USAGE_UNKNOWN
    | MODEL_ERROR | MODEL_MAX_TOKENS | MODEL_OUTPUT_INVALID

  datatype Stop = Finished | MaxTokens | OtherStop

  /** A call raises, or answers with the usage it reports (if any), why it stopped, and its final text as JSON. */
  datatype Reply =
    | Raised
    | Replied(input: Option<int>, output: Option<int>, stop: Stop, payload: Option<Json>)

  /** A call as it was made: what was reserved for its input, and the reply. */
  datatype Call = Call(reserve: nat, reply: Reply)

  // ---- what the log of calls adds up to ----

  function Count(n: Option<int>): nat {
    if n.Some? && n.value >= 0 then n.value else 0
  }

  predicate Known(n: Option<int>) { n.Some? && n.value >= 0 }

  function InputOf(c: Call): nat { if c.reply.Replied? then Count(c.reply.input) else 0 }

  function OutputOf(c: Call): nat { if c.reply.Replied? then Count(c.reply.output) else 0 }

  predicate FullyReported(c: Call) {
    c.reply.Replied? && Known(c.reply.input) && Known(c.reply.output)
  }

  /** The provider reports more than was reserved. */
  predicate OverReported(c: Call) {
    InputOf(c) > c.reserve || OutputOf(c) > 2_048
  }

  function Reserved(log: seq<Call>, k: nat): nat
    requires k <= |log|
  {
    if k == 0 then 0 else Reserved(log, k - 1) + log[k - 1].reserve
  }

  function InputUsed(log: seq<Call>, k: nat): nat
    requires k <= |log|
  {
    if k == 0 then 0 else InputUsed(log, k - 1) + InputOf(log[k - 1])
  }

  function OutputUsed(log: seq<Call>, k: nat): nat
    requires k <= |log|
  {
    if k == 0 then 0 else OutputUsed(log, k - 1) + OutputOf(log[k - 1])
  }

  function Unreported(log: seq<Call>, k: nat): nat
    requires k <= |log|
  {
    if k == 0 then 0 else Unreported(log, k - 1) + if FullyReported(log[k - 1]) then 0 else 1
  }

  /** What the first `k` calls had reserved, the last of them included, was within both caps. */
  predicate CapsKept(log: seq<Call>, k: nat)
    requires k <= |log|
  {
    Reserved(log, k) <= 200_000 && k * 2_048 <= 40_000
  }

  /** At every call, what had been reserved up to and including it was within both caps. */
  predicate WithinCaps(log: seq<Call>) {
    forall k :: 0 <= k <= |log| ==> CapsKept(log, k)
  }

  predicate NoneOver(log: seq<Call>) {
    forall k :: 0 <= k < |log| ==> !OverReported(log[k])
  }

  /** Only the last call may have been over-reported: no call follows an over-report. */
  predicate OverLast(log: seq<Call>) {
    forall k :: 0 <= k < |log| - 1 ==> !OverReported(log[k])
  }

  lemma {:induction false} UsedWithinReserved(log: seq<Call>, k: nat)
    requires k <= |log| && NoneOver(log)
    ensures InputUsed(log, k) <= Reserved(log, k) && OutputUsed(log, k) <= k * MODEL_OUTPUT_TOKENS
  {
    if k > 0 {
      UsedWithinReserved(log, k - 1);
      assert !OverReported(log[k - 1]);
    }
  }

  /** At 2048 output tokens a call, the output cap leaves room for nineteen calls. */
  lemma AtMostNineteen(log: seq<Call>)
    requires WithinCaps(log)
    ensures |log| <= 19
  {
    assert CapsKept(log, |log|);
  }

  lemma {:induction false} SumsPrefix(a: seq<Call>, b: seq<Call>, k: nat)
    requires k <= |a| && k <= |b| && forall i :: 0 <= i < k ==> a[i] == b[i]
    ensures Reserved(a, k) == Reserved(b, k) && Unreported(a, k) == Unreported(b, k)
    ensures InputUsed(a, k) == InputUsed(b, k) && OutputUsed(a, k) == OutputUsed(b, k)
  {
    if k > 0 { SumsPrefix(a, b, k - 1); }
  }

  lemma OneMoreCall(log: seq<Call>, c: Call)
    requires WithinCaps(log) && NoneOver(log)
    requires Reserved(log, |log|) + c.reserve <= MAX_INPUT_TOKENS && (|log| + 1) * MODEL_OUTPUT_TOKENS <= MAX_OUTPUT_TOKENS
    ensures var more, n := log + [c], |log|;
      && WithinCaps(more) && OverLast(more) && (NoneOver(more) <==> !OverReported(c))
      && Reserved(more, n + 1) == Reserved(log, n) + c.reserve
      && InputUsed(more, n + 1) == InputUsed(log, n) + InputOf(c)
      && OutputUsed(more, n + 1) == OutputUsed(log, n) + OutputOf(c)
      && Unreported(more, n + 1) == Unreported(log, n) + if FullyReported(c) then 0 else 1
  {
    var more, n := log + [c], |log|;
    SumsPrefix(log, more, n);
    assert more[n] == c && forall k :: 0 <= k < n ==> more[k] == log[k];
    forall k | 0 <= k <= n + 1 ensures CapsKept(more, k) {
      if k <= n {
        assert CapsKept(log, k);
        SumsPrefix(log, more, k);
      }
    }
  }

  function Max(a: nat, b: nat): nat { if a >= b then a else b }

  // ---- the meter ----

  class Meter {
    const clock: nat -> bool
    const replies: nat -> Reply
    var ticks: nat
    var calls: nat
    var retries: nat
    var inputTokens: nat
    var outputTokens: nat
    var inputReserved: nat
    var outputReserved: nat
    var unknown: nat
    var reused: nat
    var partial: set<Notice>
    ghost var log: seq<Call>

    constructor (clock: nat -> bool, replies: nat -> Reply, partial: set<Notice>)
      ensures Open() && log == [] && ticks == 0 && this.partial == partial && this.clock == clock && this.replies == replies
    {
      this.clock, this.replies, this.partial := clock, replies, partial;
      ticks, calls, retries, reused := 0, 0, 0, 0;
      inputTokens, outputTokens, inputReserved, outputReserved, unknown := 0, 0, 0, 0, 0;
      log := [];
    }

    /** The counters are what the log adds up to. */
    ghost predicate Counted() reads this {
      && calls == |log| && inputTokens == InputUsed(log, |log|) && outputTokens == OutputUsed(log, |log|)
      && unknown == Unreported(log, |log|)
    }

    /**
     * What holds after any sequence of replies and failures: counters exact, caps kept at every
     * call, no call after an over-report, nothing refunded, and no more observed than reserved.
     */
    ghost predicate Valid() reads this {
      && Counted() && WithinCaps(log) && OverLast(log)
      && (!NoneOver(log) ==> BUDGET_EXCEEDED in partial)
      && inputReserved == (if NoneOver(log) then Reserved(log, |log|) else Max(Reserved(log, |log|), inputTokens))
      && outputReserved == (if NoneOver(log) then |log| * 2_048
                            else Max(|log| * 2_048, outputTokens))
    }

    /** Further calls are allowed for: no over-report yet. */
    ghost predicate Open() reads this {
      Valid() && NoneOver(log)
    }

    /** Observed tokens never exceed reserved tokens, and there are at most nineteen calls. */
    lemma Bounds()
      requires Valid()
      ensures inputTokens <= inputReserved && outputTokens <= outputReserved && calls <= 19
    {
      AtMostNineteen(log);
      if NoneOver(log) { UsedWithinReserved(log, |log|); }
    }

    method TimeAvailable() returns (ok: bool)
      modifies `ticks, `partial
      ensures ok == clock(old(ticks)) && ticks == old(ticks) + 1
      ensures partial == if ok then old(partial) else old(partial) + {DEADLINE_EXCEEDED}
    {
      ok := clock(ticks);
      ticks := ticks + 1;
      if !ok { partial := partial + {DEADLINE_EXCEEDED}; }
    }

    /** The next call has been reserved for and made, but its reply is not in the books yet. */
    ghost predicate Pending(reserve: nat) reads this {
      && calls == |log| + 1 && inputTokens == InputUsed(log, |log|) && outputTokens == OutputUsed(log, |log|)
      && unknown == Unreported(log, |log|) && WithinCaps(log) && NoneOver(log)
      && inputReserved == Reserved(log, |log|) + reserve && inputReserved <= MAX_INPUT_TOKENS
      && outputReserved == (|log| + 1) * MODEL_OUTPUT_TOKENS && outputReserved <= MAX_OUTPUT_TOKENS
    }

    method Reserve(reserve: nat, attempt: nat) returns (reply: Reply)
      requires Open()
      requires inputReserved + reserve <= MAX_INPUT_TOKENS && outputReserved + MODEL_OUTPUT_TOKENS <= MAX_OUTPUT_TOKENS
      modifies `inputReserved, `outputReserved, `calls, `retries
      ensures Pending(reserve) && reply == replies(old(calls))
      ensures retries == old(retries) + if attempt > 0 then 1 else 0
    {
      inputReserved := inputReserved + reserve;
      outputReserved := outputReserved + MODEL_OUTPUT_TOKENS;
      reply := replies(calls);
      calls := calls + 1;
      retries := retries + if attempt > 0 then 1 else 0;
    }

    /** A call that raised: its usage stays unknown, its reservation stays spent. */
    method ObserveRaised(reserve: nat)
      requires Pending(reserve)
      modifies `unknown, `partial, `log
      ensures Open() && log == old(log) + [Call(reserve, Raised)]
      ensures partial == old(partial) + {MODEL_USAGE_UNKNOWN}
    {
      OneMoreCall(log, Call(reserve, Raised));
      unknown := unknown + 1;
      partial := partial + {MODEL_USAGE_UNKNOWN};
      log := log + [Call(reserve, Raised)];
    }

    /** `_observe_usage`: valid counts are kept, missing ones are unknown, an over-report is made good and noted. */
    method ObserveUsage(reply: Reply, reserve: nat) returns (missing: bool, exceeded: bool)
      requires Pending(reserve) && reply.Replied?
      modifies `inputTokens, `outputTokens, `inputReserved, `outputReserved, `unknown, `partial, `log
      ensures Valid() && log == old(log) + [Call(reserve, reply)]
      ensures missing <==> !FullyReported(Call(reserve, reply))
      ensures exceeded <==> OverReported(Call(reserve, reply))
      ensures missing <==> reply.input.None? || reply.input.value < 0 || reply.output.None? || reply.output.value < 0
      ensures exceeded <==> (reply.input.Some? && reply.input.value > reserve) || (reply.output.Some? && reply.output.value > 2_048)
      ensures inputTokens == old(inputTokens) + if reply.input.Some? && reply.input.value > 0 then reply.input.value else 0
      ensures outputTokens == old(outputTokens) + if reply.output.Some? && reply.output.value > 0 then reply.output.value else 0
      ensures exceeded <==> !NoneOver(log)
      ensures old(inputReserved) <= inputReserved && old(outputReserved) <= outputReserved
      ensures old(partial) <= partial <= old(partial) + {MODEL_USAGE_UNKNOWN, BUDGET_EXCEEDED}
    {
      var c := Call(reserve, reply);
      OneMoreCall(log, c);
      missing, exceeded := false, false;
      if Known(reply.input) {
        inputTokens := inputTokens + reply.input.value;
        exceeded := reply.input.value > reserve;
      } else {
        missing := true;
      }
      if Known(reply.output) {
        outputTokens := outputTokens + reply.output.value;
        exceeded := exceeded || reply.output.value > MODEL_OUTPUT_TOKENS;
      } else {
        missing := true;
      }
      if missing {
        unknown := unknown + 1;
        partial := partial + {MODEL_USAGE_UNKNOWN};
      }
      if exceeded {
        inputReserved := Max(inputReserved, inputTokens);
        outputReserved := Max(outputReserved, outputTokens);
        partial := partial + {BUDGET_EXCEEDED};
      }
      log := log + [c];
    }

    /** No call may be made: the last look at the clock found no time, or a cap leaves no room; and that is noted. */
    ghost predicate Refused(reserve: nat) reads this {
      || (ticks > 0 && !clock(ticks - 1) && DEADLINE_EXCEEDED in partial)
      || ((inputReserved + reserve > 200_000 || outputReserved + 2_048 > 40_000)
          && BUDGET_EXCEEDED in partial)
    }

    /** One attempt, checked against the clock and the caps before it is made; nothing when it may not be made. */
    method Attempt(reserve: nat, attempt: nat) returns (answer: Option<Reply>, missing: bool, exceeded: bool)
      requires Open()
      modifies `ticks, `calls, `retries, `inputTokens, `outputTokens, `inputReserved, `outputReserved, `unknown, `partial, `log
      ensures Valid() && old(partial) <= partial && ticks == old(ticks) + 1
      ensures answer.None? ==> Open() && Refused(reserve) && log == old(log) && retries == old(retries)
      ensures answer.Some? ==> clock(old(ticks)) && log == old(log) + [Call(reserve, answer.value)]
      ensures answer.Some? ==> retries == old(retries) + if attempt > 0 then 1 else 0
      ensures answer.Some? ==> (missing <==> !FullyReported(Call(reserve, answer.value)))
      ensures answer.Some? ==> (exceeded <==> !NoneOver(log)) && (answer.value.Raised? ==> !exceeded)
    {
      var ok := TimeAvailable();
      if !ok { return None, false, false; }
      if inputReserved + reserve > MAX_INPUT_TOKENS || outputReserved + MODEL_OUTPUT_TOKENS > MAX_OUTPUT_TOKENS {
        partial := partial + {BUDGET_EXCEEDED};
        return None, false, false;
      }
      var reply := Reserve(reserve, attempt);
      answer, missing, exceeded := Some(reply), true, false;
      if reply.Replied? { missing, exceeded := ObserveUsage(reply, reserve); } else { ObserveRaised(reserve); }
    }

    /**
     * One batch: at most two attempts, the second only if the first raised.
     * `clean` says that every call made was answered with known usage.
     */
    method Ask(reserve: nat) returns (reply: Option<Reply>, clean: bool, exceeded: bool)
      requires Open()
      modifies `ticks, `calls, `retries, `inputTokens, `outputTokens, `inputReserved, `outputReserved, `unknown, `partial, `log
      ensures Valid() && old(log) <= log && old(partial) <= partial
      ensures reply.None? ==> Open()
      ensures reply.None? ==> Refused(reserve) || (|log| == |old(log)| + 2 && MODEL_ERROR in partial)
      ensures forall k :: |old(log)| <= k < |log| && (reply.None? || k < |log| - 1) ==> log[k] == Call(reserve, Raised)
      ensures retries == old(retries) + if |log| > |old(log)| + 1 then 1 else 0
      ensures reply.Some? ==> reply.value.Replied? && |log| > |old(log)| && log[|log| - 1] == Call(reserve, reply.value)
      ensures reply.Some? ==> (exceeded <==> !NoneOver(log))
      ensures clean <==> forall k :: |old(log)| <= k < |log| ==> FullyReported(log[k])
      ensures |log| <= |old(log)| + 2 && ticks > old(ticks)
      ensures |log| > |old(log)| ==> clock(old(ticks))
    {
      clean, exceeded := true, false;
      var attempt := 0;
      while attempt < MAX_MODEL_ATTEMPTS
        invariant 0 <= attempt <= MAX_MODEL_ATTEMPTS
        invariant Open() && old(log) <= log && old(partial) <= partial && |log| == |old(log)| + attempt
        invariant (clean <==> attempt == 0) && ticks == old(ticks) + attempt
        invariant forall k :: |old(log)| <= k < |log| ==> log[k] == Call(reserve, Raised)
        invariant retries == old(retries) + if attempt > 1 then 1 else 0
        invariant attempt > 0 ==> clock(old(ticks))
      {
        var answer, missing;
        answer, missing, exceeded := Attempt(reserve, attempt);
        if answer.None? { return None, clean, false; }
        assert log[|log| - 1] == Call(reserve, answer.value);
        if answer.value.Replied? {
          assert attempt > 0 ==> log[|old(log)|] == Call(reserve, Raised);
          return answer, clean && !missing, exceeded;
        }
        clean := false;
        attempt := attempt + 1;
      }
      partial := partial + {MODEL_ERROR};
      return None, false, false;
    }
  }
}
