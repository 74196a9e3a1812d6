/** The pass over all pairs of sources: what is judged, emitted and cached, and where the pass stops. */
module ModelPass {
  import opened Common
  import opened Decisions
  import opened TokenMeter
  import opened ModelRelations

  predicate PairsOk(pairs: seq<Pair>) {
    && (forall i :: 0 <= i < |pairs| ==> PairOk(pairs[i]))
    && (forall i, j :: 0 <= i < j < |pairs| ==> KeysDiffer(pairs, i, j))
  }

  predicate KeysDiffer(pairs: seq<Pair>, i: nat, j: nat)
    requires i < |pairs| && j < |pairs|
  {
    KeyOf(pairs[i]) != KeyOf(pairs[j])
  }

  // ---- the trace of a pass ----

  /**
   * One pair worked through: the look at the clock before it and the look after it, the calls made
   * for it (`lo` to `hi`), its judgments if it was judged, and the notices left so far.
   */
  datatype Visit = Visit(tick: nat, next: nat, lo: nat, hi: nat, judged: Option<seq<Decision>>, notices: set<Notice>)

  /** An unjudged pair ends the pass once the budget or the deadline has been noted. */
  predicate Stops(v: Visit) {
    v.judged.None? && (BUDGET_EXCEEDED in v.notices || DEADLINE_EXCEEDED in v.notices)
  }

  /** What a pass works with. */
  datatype Setting = Setting(
    pairs: seq<Pair>, memory: map<CacheKey, Entry>, available: bool, clock: nat -> bool, start: nat, first: nat)

  predicate Usable(s: Setting, i: nat)
    requires i < |s.pairs|
  {
    s.available || Remembered(s.memory, s.pairs[i]).Some?
  }

  ghost predicate FailedSomewhere(v: Visit, p: Pair, clock: nat -> bool, log: seq<Call>)
    requires v.hi <= |log|
  {
    exists b :: 0 <= b < |p.sizes| && Failed(p, b, clock, v.next, v.notices, log, v.lo, v.hi)
  }

  ghost predicate VisitOk(v: Visit, s: Setting, i: nat, log: seq<Call>)
    requires i < |s.pairs|
  {
    var p := s.pairs[i];
    && s.clock(v.tick) && v.tick < v.next && v.lo <= v.hi <= |log| && Usable(s, i)
    && Sound(v.judged, p, s.memory, log, v.lo, v.hi) && (v.lo < v.hi ==> s.clock(v.tick + 1))
    && (Remembered(s.memory, p).Some? ==> v.next == v.tick + 1)
    && (v.judged.None? ==> FailedSomewhere(v, p, s.clock, log))
  }

  ghost predicate VisitAt(t: seq<Visit>, i: nat, s: Setting, log: seq<Call>)
    requires i < |t| <= |s.pairs|
  {
    VisitOk(t[i], s, i, log)
  }

  predicate Follows(t: seq<Visit>, i: nat)
    requires i + 1 < |t|
  {
    !Stops(t[i]) && t[i + 1].tick == t[i].next && t[i + 1].lo == t[i].hi
  }

  function NextTick(t: seq<Visit>, k: nat, s: Setting): nat
    requires k <= |t|
  {
    if k == 0 then s.start else t[k - 1].next
  }

  function NextCall(t: seq<Visit>, s: Setting): nat {
    if t == [] then s.first else t[|t| - 1].hi
  }

  /** Visits of the pairs in turn, each right after the one before it. */
  ghost predicate Trace(t: seq<Visit>, s: Setting, log: seq<Call>) {
    && |t| <= |s.pairs|
    && (forall i :: 0 <= i < |t| ==> VisitAt(t, i, s, log))
    && (forall i :: 0 <= i && i + 1 < |t| ==> Follows(t, i))
    && (t != [] ==> t[0].tick == s.start && t[0].lo == s.first)
  }

  /** The pass goes on to pair `k`: no stop before it, time left, and the pair can be judged or replayed. */
  predicate GoesOn(t: seq<Visit>, k: nat, s: Setting)
    requires k <= |t| && k < |s.pairs|
  {
    (k == 0 || !Stops(t[k - 1])) && s.clock(NextTick(t, k, s)) && Usable(s, k)
  }

  /** A whole pass: it ends at the last pair or where it cannot go on. */
  ghost predicate Pass(t: seq<Visit>, s: Setting, log: seq<Call>) {
    Trace(t, s, log) && (|t| < |s.pairs| ==> !GoesOn(t, |t|, s))
  }

  /** Pair `k` is worked through exactly when the pass gets to it, has time, and can use it. */
  lemma ReachedIffGoesOn(t: seq<Visit>, s: Setting, log: seq<Call>, k: nat)
    requires Pass(t, s, log) && k <= |t| && k < |s.pairs|
    ensures k < |t| <==> GoesOn(t, k, s)
  {
    if k < |t| {
      assert VisitAt(t, k, s, log);
      if k > 0 {
        var before := k - 1;
        assert Follows(t, before);
      }
    }
  }

  lemma VisitLater(v: Visit, s: Setting, i: nat, log: seq<Call>, later: seq<Call>)
    requires i < |s.pairs| && VisitOk(v, s, i, log) && log <= later
    ensures VisitOk(v, s, i, later)
  {
    SoundLater(v.judged, s.pairs[i], s.memory, log, v.lo, v.hi, later);
    if v.judged.None? {
      var p := s.pairs[i];
      var b :| 0 <= b < |p.sizes| && Failed(p, b, s.clock, v.next, v.notices, log, v.lo, v.hi);
      FailedLater(p, b, s.clock, v.next, v.notices, log, v.lo, v.hi, later);
    }
  }

  lemma TraceNext(t: seq<Visit>, v: Visit, s: Setting, log: seq<Call>, later: seq<Call>)
    requires Trace(t, s, log) && log <= later && |t| < |s.pairs| && VisitOk(v, s, |t|, later)
    requires GoesOn(t, |t|, s) && v.tick == NextTick(t, |t|, s) && v.lo == NextCall(t, s)
    ensures Trace(t + [v], s, later)
  {
    var u := t + [v];
    forall i | 0 <= i < |u| ensures VisitAt(u, i, s, later) {
      if i < |t| {
        assert VisitAt(t, i, s, log);
        VisitLater(t[i], s, i, log, later);
      }
    }
    forall i | 0 <= i && i + 1 < |u| ensures Follows(u, i) {
      if i + 1 < |t| { assert Follows(t, i); }
    }
  }

  // ---- what a pass emits and stores ----

  /** A judgment emitted as a relation, with the pair it belongs to. */
  datatype Emission = Emission(pair: nat, decision: Decision)

  function Emit(i: nat, ds: seq<Decision>): (r: seq<Emission>)
    ensures |r| == |ds| && forall k :: 0 <= k < |ds| ==> r[k] == Emission(i, ds[k])
  {
    seq(|ds|, k requires 0 <= k < |ds| => Emission(i, ds[k]))
  }

  /** The relations of the first `k` pairs, pair after pair, in the order of their judgments. */
  function Emitted(t: seq<Visit>, k: nat): seq<Emission>
    requires k <= |t|
  {
    if k == 0 then [] else Emitted(t, k - 1) + if t[k - 1].judged.Some? then Emit(k - 1, t[k - 1].judged.value) else []
  }

  lemma {:induction false} EmittedPrefix(t: seq<Visit>, u: seq<Visit>, k: nat)
    requires k <= |t| && k <= |u| && forall i :: 0 <= i < k ==> t[i].judged == u[i].judged
    ensures Emitted(t, k) == Emitted(u, k)
  {
    if k > 0 { EmittedPrefix(t, u, k - 1); }
  }

  /** A pair's judgments are stored: it was judged, and every call made for it reported its usage. */
  ghost predicate Stores(v: Visit, log: seq<Call>)
    requires v.hi <= |log|
  {
    v.judged.Some? && AllReported(log, v.lo, v.hi)
  }

  ghost predicate KeptAt(cache: map<CacheKey, Entry>, t: seq<Visit>, s: Setting, log: seq<Call>, i: nat)
    requires i < |s.pairs| && forall k :: 0 <= k < |t| ==> t[k].hi <= |log|
  {
    && (KeyOf(s.pairs[i]) in cache <==> i < |t| && Stores(t[i], log))
    && (KeyOf(s.pairs[i]) in cache ==> t[i].judged.Some? && cache[KeyOf(s.pairs[i])] == Stored(s.pairs[i], t[i].judged.value))
  }

  ghost predicate Within(t: seq<Visit>, log: seq<Call>) {
    forall i :: 0 <= i < |t| ==> t[i].hi <= |log|
  }

  /** The cache holds exactly the pairs that are stored, each under its own key with its own judgments. */
  ghost predicate CacheExact(cache: map<CacheKey, Entry>, t: seq<Visit>, s: Setting, log: seq<Call>) {
    && |t| <= |s.pairs| && Within(t, log)
    && (forall i :: 0 <= i < |s.pairs| ==> KeptAt(cache, t, s, log, i))
    && (forall key :: key in cache ==> exists i :: 0 <= i < |t| && key == KeyOf(s.pairs[i]))
  }

  lemma StoresLater(v: Visit, log: seq<Call>, later: seq<Call>)
    requires v.hi <= |log| && log <= later
    ensures Stores(v, log) <==> Stores(v, later)
  {
    assert forall k :: v.lo <= k < v.hi ==> later[k] == log[k];
  }

  lemma CacheNext(
      cache: map<CacheKey, Entry>, t: seq<Visit>, v: Visit, s: Setting, log: seq<Call>, later: seq<Call>, store: bool)
    requires PairsOk(s.pairs) && CacheExact(cache, t, s, log) && |t| < |s.pairs| && log <= later && v.hi <= |later|
    requires store <==> Stores(v, later)
    ensures var p := s.pairs[|t|];
      CacheExact(if store then cache[KeyOf(p) := Stored(p, v.judged.value)] else cache, t + [v], s, later)
  {
    var p, n, u := s.pairs[|t|], |t|, t + [v];
    var more := if store then cache[KeyOf(p) := Stored(p, v.judged.value)] else cache;
    assert KeptAt(cache, t, s, log, n);
    forall i | 0 <= i < |u| ensures u[i].hi <= |later| { if i < |t| { assert u[i] == t[i]; } }
    forall i | 0 <= i < |s.pairs| ensures KeptAt(more, u, s, later, i) {
      assert KeptAt(cache, t, s, log, i);
      if i < n {
        assert KeysDiffer(s.pairs, i, n);
        StoresLater(t[i], log, later);
      } else if n < i {
        assert KeysDiffer(s.pairs, n, i);
      }
    }
    forall key | key in more ensures exists i :: 0 <= i < |u| && key == KeyOf(s.pairs[i]) {
      if store && key == KeyOf(p) { assert u[n] == v; }
      else { var i :| 0 <= i < |t| && key == KeyOf(s.pairs[i]); assert u[i] == t[i]; }
    }
  }

  /** The work done: trace, relations and cache agree. */
  ghost predicate Done(cache: map<CacheKey, Entry>, emitted: seq<Emission>, t: seq<Visit>, s: Setting, log: seq<Call>) {
    Trace(t, s, log) && CacheExact(cache, t, s, log) && emitted == Emitted(t, |t|)
  }

  lemma DoneNext(
      cache: map<CacheKey, Entry>, emitted: seq<Emission>, t: seq<Visit>, s: Setting, log: seq<Call>,
      v: Visit, store: bool, later: seq<Call>)
    requires PairsOk(s.pairs) && Done(cache, emitted, t, s, log) && |t| < |s.pairs| && log <= later
    requires VisitOk(v, s, |t|, later) && GoesOn(t, |t|, s) && v.tick == NextTick(t, |t|, s) && v.lo == NextCall(t, s)
    requires store <==> Stores(v, later)
    ensures var p := s.pairs[|t|];
      Done(if store then cache[KeyOf(p) := Stored(p, v.judged.value)] else cache,
           emitted + if v.judged.Some? then Emit(|t|, v.judged.value) else [], t + [v], s, later)
  {
    TraceNext(t, v, s, log, later);
    CacheNext(cache, t, v, s, log, later, store);
    EmittedPrefix(t, t + [v], |t|);
  }

  ghost function SettingOf(m: Meter, pairs: seq<Pair>, memory: map<CacheKey, Entry>, available: bool): Setting
    reads m
  {
    Setting(pairs, memory, available, m.clock, m.ticks, |m.log|)
  }

  /** One pair that the pass goes on to: the look at the clock before it has been taken. */
  method VisitPair(m: Meter, ghost s: Setting, ghost t: seq<Visit>, p: Pair, memory: map<CacheKey, Entry>, ghost tick: nat)
    returns (j: Option<seq<Decision>>, store: bool, ghost v: Visit)
    requires m.Open() && |t| < |s.pairs| && p == s.pairs[|t|] && memory == s.memory && PairOk(p) && m.clock == s.clock
    requires m.ticks == tick + 1 && s.clock(tick) && Usable(s, |t|)
    modifies m
    ensures m.Valid() && old(m.log) <= m.log && v == Visit(tick, m.ticks, |old(m.log)|, |m.log|, j, m.partial)
    ensures VisitOk(v, s, |t|, m.log) && (store <==> Stores(v, m.log))
    ensures j.Some? ==> m.Open()
    ensures !Stops(v) ==> m.Open()
  {
    var cacheable;
    j, cacheable := UsePair(m, p, memory);
    store := j.Some? && cacheable;
    v := Visit(tick, m.ticks, |old(m.log)|, |m.log|, j, m.partial);
  }

  /** The look at the clock before a pair, and whether the pair can be used. */
  method MayGoOn(m: Meter, ghost s: Setting, ghost t: seq<Visit>, p: Pair, memory: map<CacheKey, Entry>, available: bool)
    returns (go: bool)
    requires m.Open() && |t| < |s.pairs| && p == s.pairs[|t|] && memory == s.memory && available == s.available
    requires m.clock == s.clock && m.ticks == NextTick(t, |t|, s) && (t != [] ==> !Stops(t[|t| - 1]))
    modifies m`ticks, m`partial
    ensures m.Open() && m.ticks == old(m.ticks) + 1 && (go <==> GoesOn(t, |t|, s))
    ensures !go ==> DEADLINE_EXCEEDED in m.partial || MODEL_UNAVAILABLE in m.partial
  {
    go := m.TimeAvailable();
    if go && !available && Remembered(memory, p).None? {
      m.partial := m.partial + {MODEL_UNAVAILABLE};
      go := false;
    }
  }

  /** ... and what it adds to the relations and the cache. */
  method TakePair(m: Meter, ghost s: Setting, ghost t: seq<Visit>, i: nat, p: Pair, memory: map<CacheKey, Entry>, ghost tick: nat,
                  cache: map<CacheKey, Entry>, emitted: seq<Emission>)
    returns (stop: bool, cache': map<CacheKey, Entry>, emitted': seq<Emission>, ghost v: Visit)
    requires m.Open() && |t| == i < |s.pairs| && p == s.pairs[i] && memory == s.memory && m.clock == s.clock
    requires PairsOk(s.pairs) && Done(cache, emitted, t, s, m.log) && GoesOn(t, i, s)
    requires m.ticks == tick + 1 && tick == NextTick(t, i, s) && |m.log| == NextCall(t, s)
    modifies m
    ensures m.Valid() && old(m.log) <= m.log && (!stop ==> m.Open())
    ensures Done(cache', emitted', t + [v], s, m.log) && v.next == m.ticks && v.hi == |m.log| && (stop <==> Stops(v))
    ensures stop ==> BUDGET_EXCEEDED in m.partial || DEADLINE_EXCEEDED in m.partial
  {
    var j, store;
    j, store, v := VisitPair(m, s, t, p, memory, tick);
    DoneNext(cache, emitted, t, s, old(m.log), v, store, m.log);
    cache' := if store then cache[KeyOf(p) := Stored(p, j.value)] else cache;
    emitted' := emitted + if j.Some? then Emit(i, j.value) else [];
    stop := j.None? && (BUDGET_EXCEEDED in m.partial || DEADLINE_EXCEEDED in m.partial);
  }

  /**
   * All pairs in turn. What is emitted and stored is what the trace of the pass says: a remembered
   * pair is used as remembered without a call, any other is judged by the calls made for it, and a
   * judged pair is stored exactly when all those calls reported their usage.
   */
  method JudgeAll(m: Meter, pairs: seq<Pair>, memory: map<CacheKey, Entry>, available: bool)
    returns (cache: map<CacheKey, Entry>, emitted: seq<Emission>, ghost t: seq<Visit>)
    requires m.Open() && PairsOk(pairs)
    modifies m
    ensures m.Valid() && old(m.log) <= m.log
    ensures m.inputTokens <= m.inputReserved && m.outputTokens <= m.outputReserved && m.calls <= 19
    ensures Done(cache, emitted, t, old(SettingOf(m, pairs, memory, available)), m.log)
    ensures Pass(t, old(SettingOf(m, pairs, memory, available)), m.log)
    ensures |t| < |pairs| ==>
      DEADLINE_EXCEEDED in m.partial || BUDGET_EXCEEDED in m.partial || MODEL_UNAVAILABLE in m.partial
  {
    ghost var s := SettingOf(m, pairs, memory, available);
    cache, emitted, t := map[], [], [];
    var i := 0;
    while i < |pairs|
      invariant 0 <= i <= |pairs| && |t| == i && m.Open() && old(m.log) <= m.log
      invariant Done(cache, emitted, t, s, m.log) && (t != [] ==> !Stops(t[|t| - 1]))
      invariant m.ticks == NextTick(t, |t|, s) && |m.log| == NextCall(t, s)
    {
      ghost var tick := m.ticks;
      var go := MayGoOn(m, s, t, pairs[i], memory, available);
      if !go { break; }
      var stop;
      ghost var v;
      stop, cache, emitted, v := TakePair(m, s, t, i, pairs[i], memory, tick, cache, emitted);
      t := t + [v];
      i := i + 1;
      if stop { break; }
    }
    m.Bounds();
  }

  // ---- which remembered pairs are carried over ----

  /** A remembered pair is carried over exactly when the pass gets to it. */
  lemma CarriedIffReached(cache: map<CacheKey, Entry>, t: seq<Visit>, s: Setting, log: seq<Call>, i: nat)
    requires Pass(t, s, log) && CacheExact(cache, t, s, log) && i < |s.pairs|
    requires Remembered(s.memory, s.pairs[i]).Some?
    ensures KeyOf(s.pairs[i]) in cache <==> i < |t|
  {
    assert KeptAt(cache, t, s, log, i);
    if i < |t| { assert VisitAt(t, i, s, log); }
  }

  ghost predicate AllRemembered(s: Setting) {
    forall i :: 0 <= i < |s.pairs| ==> Remembered(s.memory, s.pairs[i]).Some?
  }

  /** Time is left at one look for every pair. */
  ghost predicate TimeForAll(s: Setting) {
    forall tick :: s.start <= tick < s.start + |s.pairs| ==> s.clock(tick)
  }

  lemma {:induction false} ReplayTakesOneLook(t: seq<Visit>, s: Setting, log: seq<Call>, k: nat)
    requires Trace(t, s, log) && AllRemembered(s) && k <= |t|
    ensures NextTick(t, k, s) == s.start + k && (k > 0 ==> !Stops(t[k - 1]))
  {
    if k > 0 {
      var last := k - 1;
      ReplayTakesOneLook(t, s, log, last);
      assert VisitAt(t, last, s, log);
      if last > 0 {
        var before := last - 1;
        assert Follows(t, before);
      }
    }
  }

  /** With every pair remembered and time for one look each, nothing is dropped and no call is made. */
  lemma AllRememberedAllKept(cache: map<CacheKey, Entry>, t: seq<Visit>, s: Setting, log: seq<Call>)
    requires Pass(t, s, log) && CacheExact(cache, t, s, log) && AllRemembered(s)
    requires TimeForAll(s)
    ensures |t| == |s.pairs| && NextCall(t, s) == s.first
    ensures forall i :: 0 <= i < |s.pairs| ==> KeyOf(s.pairs[i]) in cache
  {
    var n := |t|;
    ReplayTakesOneLook(t, s, log, n);
    assert n < |s.pairs| ==> GoesOn(t, n, s);
    NoCallsMade(t, s, log, n);
    forall i | 0 <= i < |s.pairs| ensures KeyOf(s.pairs[i]) in cache { CarriedIffReached(cache, t, s, log, i); }
  }

  lemma {:induction false} NoCallsMade(t: seq<Visit>, s: Setting, log: seq<Call>, k: nat)
    requires Trace(t, s, log) && AllRemembered(s) && k <= |t|
    ensures k > 0 ==> t[k - 1].hi == s.first
  {
    if k > 0 {
      var last := k - 1;
      NoCallsMade(t, s, log, last);
      assert VisitAt(t, last, s, log);
      if last > 0 {
        var before := last - 1;
        assert Follows(t, before);
      }
    }
  }

  lemma StopIsLast(t: seq<Visit>, s: Setting, log: seq<Call>, i: nat)
    requires Trace(t, s, log) && i < |t| && Stops(t[i])
    ensures |t| == i + 1
  {
    assert i + 1 < |t| ==> Follows(t, i);
  }

  /** A pair that was not judged before is left unjudged, and stops the pass, if the deadline passes before its first call. */
  lemma LateStops(t: seq<Visit>, s: Setting, log: seq<Call>, i: nat)
    requires Trace(t, s, log) && i < |t| && s.pairs[i].sizes != []
    requires Remembered(s.memory, s.pairs[i]).None? && !s.clock(t[i].tick + 1)
    ensures Stops(t[i])
  {
    var v, p := t[i], s.pairs[i];
    assert VisitAt(t, i, s, log);
    assert Replies(log, v.lo, v.hi) == [];
    var b :| 0 <= b < |p.sizes| && Failed(p, b, s.clock, v.next, v.notices, log, v.lo, v.hi);
  }

  /** A deadline between the look before such a pair and the look before its first call drops every later
      pair from the cache, whether remembered or not. */
  lemma DeadlineDropsRest(cache: map<CacheKey, Entry>, t: seq<Visit>, s: Setting, log: seq<Call>, i: nat)
    requires Pass(t, s, log) && CacheExact(cache, t, s, log) && i < |t| && s.pairs[i].sizes != []
    requires Remembered(s.memory, s.pairs[i]).None? && !s.clock(t[i].tick + 1)
    ensures |t| == i + 1 && forall k :: i <= k < |s.pairs| ==> KeyOf(s.pairs[k]) !in cache
  {
    LateStops(t, s, log, i);
    StopIsLast(t, s, log, i);
    forall k | i <= k < |s.pairs| ensures KeyOf(s.pairs[k]) !in cache { assert KeptAt(cache, t, s, log, k); }
  }

  // ---- the second build ----

  lemma CachedIsRemembered(
      cache: map<CacheKey, Entry>, t: seq<Visit>, s: Setting, log: seq<Call>, i: nat)
    requires PairsOk(s.pairs) && Trace(t, s, log) && CacheExact(cache, t, s, log) && i < |s.pairs| && KeyOf(s.pairs[i]) in cache
    ensures i < |t| && t[i].judged.Some? && Remembered(cache, s.pairs[i]) == t[i].judged
  {
    assert KeptAt(cache, t, s, log, i);
    assert VisitAt(t, i, s, log);
    CachedPairReplays(s.pairs[i], t[i].judged.value);
  }

  /**
   * A second build over the same pairs, with the cache of the first as its memory: every pair it
   * gets to and finds cached is used with the judgments of the first, without a call.
   */
  lemma CachedPairIsReplayed(
      cache: map<CacheKey, Entry>, t: seq<Visit>, s: Setting, log: seq<Call>,
      t2: seq<Visit>, s2: Setting, log2: seq<Call>, i: nat)
    requires PairsOk(s.pairs) && Trace(t, s, log) && CacheExact(cache, t, s, log)
    requires s2.pairs == s.pairs && s2.memory == cache && Trace(t2, s2, log2)
    requires i < |t2| && KeyOf(s.pairs[i]) in cache
    ensures i < |t| && t2[i].judged == t[i].judged && t2[i].lo == t2[i].hi
  {
    CachedIsRemembered(cache, t, s, log, i);
    assert VisitAt(t2, i, s2, log2);
  }

  /** The model gave the same replies about pair `i` in both passes; calls that raised do not matter. */
  ghost predicate SameReplies(t: seq<Visit>, log: seq<Call>, t2: seq<Visit>, log2: seq<Call>, i: nat)
    requires i < |t| && i < |t2|
  {
    && t[i].lo <= t[i].hi <= |log| && t2[i].lo <= t2[i].hi <= |log2|
    && Replies(log2, t2[i].lo, t2[i].hi) == Replies(log, t[i].lo, t[i].hi)
  }

  /** Every pair of the first `k` that is not in the cache gets the same replies again. */
  ghost predicate OthersSame(
      cache: map<CacheKey, Entry>, s: Setting, t: seq<Visit>, log: seq<Call>, t2: seq<Visit>, log2: seq<Call>, k: nat)
    requires k <= |t| && k <= |t2| && k <= |s.pairs|
  {
    forall i :: 0 <= i < k && KeyOf(s.pairs[i]) !in cache ==> SameReplies(t, log, t2, log2, i)
  }

  /** A pair the first pass left out of the cache is judged by its replies in both. */
  lemma UncachedJudgedSame(
      cache: map<CacheKey, Entry>, t: seq<Visit>, s: Setting, log: seq<Call>,
      t2: seq<Visit>, s2: Setting, log2: seq<Call>, i: nat)
    requires Trace(t, s, log) && CacheExact(cache, t, s, log) && Trace(t2, s2, log2)
    requires s2.pairs == s.pairs && s2.memory == cache && i < |t| && i < |t2|
    requires KeyOf(s.pairs[i]) !in cache && SameReplies(t, log, t2, log2, i)
    ensures t2[i].judged == t[i].judged
  {
    assert KeptAt(cache, t, s, log, i);
    assert VisitAt(t, i, s, log) && VisitAt(t2, i, s2, log2);
  }

  lemma JudgedSame(
      cache: map<CacheKey, Entry>, t: seq<Visit>, s: Setting, log: seq<Call>,
      t2: seq<Visit>, s2: Setting, log2: seq<Call>, k: nat)
    requires PairsOk(s.pairs) && Trace(t, s, log) && CacheExact(cache, t, s, log) && Trace(t2, s2, log2)
    requires s2.pairs == s.pairs && s2.memory == cache && k <= |t| && k <= |t2|
    requires OthersSame(cache, s, t, log, t2, log2, k)
    ensures forall i :: 0 <= i < k ==> t2[i].judged == t[i].judged
  {
    forall i | 0 <= i < k ensures t2[i].judged == t[i].judged {
      if KeyOf(s.pairs[i]) in cache { CachedPairIsReplayed(cache, t, s, log, t2, s2, log2, i); }
      else { UncachedJudgedSame(cache, t, s, log, t2, s2, log2, i); }
    }
  }

  /** What the first pass stored, the second stores again as far as it gets. */
  lemma CacheCarriesOver(
      cache: map<CacheKey, Entry>, t: seq<Visit>, s: Setting, log: seq<Call>,
      cache2: map<CacheKey, Entry>, t2: seq<Visit>, s2: Setting, log2: seq<Call>, i: nat)
    requires PairsOk(s.pairs) && Trace(t, s, log) && CacheExact(cache, t, s, log)
    requires s2.pairs == s.pairs && s2.memory == cache && Trace(t2, s2, log2) && CacheExact(cache2, t2, s2, log2)
    requires i < |t2| && KeyOf(s.pairs[i]) in cache
    ensures KeyOf(s.pairs[i]) in cache2 && cache2[KeyOf(s.pairs[i])] == cache[KeyOf(s.pairs[i])]
  {
    CachedPairIsReplayed(cache, t, s, log, t2, s2, log2, i);
    assert VisitAt(t2, i, s2, log2);
    assert KeptAt(cache, t, s, log, i) && KeptAt(cache2, t2, s2, log2, i);
  }

  /**
   * A second pass on a partly filled cache: as far as both passes get, if the pairs not in the cache
   * get the same replies as before, the same judgments are emitted in the same order, and what was
   * stored stays stored.
   */
  lemma PartlyReplayedIsSame(
      cache: map<CacheKey, Entry>, t: seq<Visit>, s: Setting, log: seq<Call>,
      cache2: map<CacheKey, Entry>, t2: seq<Visit>, s2: Setting, log2: seq<Call>, k: nat)
    requires PairsOk(s.pairs) && Trace(t, s, log) && CacheExact(cache, t, s, log)
    requires s2.pairs == s.pairs && s2.memory == cache && Trace(t2, s2, log2) && CacheExact(cache2, t2, s2, log2)
    requires k <= |t| && k <= |t2| && OthersSame(cache, s, t, log, t2, log2, k)
    ensures Emitted(t2, k) == Emitted(t, k)
    ensures forall i :: 0 <= i < k && KeyOf(s.pairs[i]) in cache ==>
              KeyOf(s.pairs[i]) in cache2 && cache2[KeyOf(s.pairs[i])] == cache[KeyOf(s.pairs[i])]
  {
    JudgedSame(cache, t, s, log, t2, s2, log2, k);
    EmittedPrefix(t2, t, k);
    forall i | 0 <= i < k && KeyOf(s.pairs[i]) in cache
      ensures KeyOf(s.pairs[i]) in cache2 && cache2[KeyOf(s.pairs[i])] == cache[KeyOf(s.pairs[i])]
    {
      CacheCarriesOver(cache, t, s, log, cache2, t2, s2, log2, i);
    }
  }

  /** If the first pass judged every pair, stored or not, the second gets to every pair too, given a
      model, the same replies, and time. */
  lemma SecondPassFinishes(
      cache: map<CacheKey, Entry>, t: seq<Visit>, s: Setting, log: seq<Call>, t2: seq<Visit>, s2: Setting, log2: seq<Call>)
    requires PairsOk(s.pairs) && Trace(t, s, log) && CacheExact(cache, t, s, log)
    requires |t| == |s.pairs| && forall i :: 0 <= i < |t| ==> t[i].judged.Some?
    requires s2.pairs == s.pairs && s2.memory == cache && Pass(t2, s2, log2) && OthersSame(cache, s, t, log, t2, log2, |t2|)
    requires s2.available && forall tick :: s2.clock(tick)
    ensures |t2| == |t|
  {
    var n := |t2|;
    JudgedSame(cache, t, s, log, t2, s2, log2, n);
    assert n < |s.pairs| ==> GoesOn(t2, n, s2);
  }

  lemma AllCachedAllReached(cache: map<CacheKey, Entry>, t: seq<Visit>, s: Setting, log: seq<Call>)
    requires PairsOk(s.pairs) && Trace(t, s, log) && CacheExact(cache, t, s, log)
    requires forall i :: 0 <= i < |s.pairs| ==> KeyOf(s.pairs[i]) in cache
    ensures |t| == |s.pairs| && AllRemembered(s.(memory := cache))
  {
    forall i | 0 <= i < |s.pairs| ensures i < |t| && Remembered(cache, s.pairs[i]).Some? {
      CachedIsRemembered(cache, t, s, log, i);
    }
    if s.pairs != [] {
      var last := |s.pairs| - 1;
      CachedIsRemembered(cache, t, s, log, last);
    }
  }

  /** If the first build stored every pair and the second has time for one look each, the second emits
      the same relations in the same order, stores the same cache and makes no call. */
  lemma ReplayedBuildIsSame(
      cache: map<CacheKey, Entry>, t: seq<Visit>, s: Setting, log: seq<Call>,
      cache2: map<CacheKey, Entry>, t2: seq<Visit>, s2: Setting, log2: seq<Call>)
    requires PairsOk(s.pairs) && Trace(t, s, log) && CacheExact(cache, t, s, log)
    requires forall i :: 0 <= i < |s.pairs| ==> KeyOf(s.pairs[i]) in cache
    requires s2.pairs == s.pairs && s2.memory == cache && Pass(t2, s2, log2) && CacheExact(cache2, t2, s2, log2) && TimeForAll(s2)
    ensures |t2| == |t| == |s.pairs| && Emitted(t2, |t2|) == Emitted(t, |t|) && cache2 == cache && NextCall(t2, s2) == s2.first
  {
    AllCachedAllReached(cache, t, s, log);
    AllRememberedAllKept(cache2, t2, s2, log2);
    forall i | 0 <= i < |t| ensures t2[i].judged == t[i].judged {
      CachedPairIsReplayed(cache, t, s, log, t2, s2, log2, i);
    }
    EmittedPrefix(t2, t, |t|);
    SameCache(cache, t, s, log, cache2, t2, s2, log2);
  }

  lemma SameCache(
      cache: map<CacheKey, Entry>, t: seq<Visit>, s: Setting, log: seq<Call>,
      cache2: map<CacheKey, Entry>, t2: seq<Visit>, s2: Setting, log2: seq<Call>)
    requires CacheExact(cache, t, s, log) && CacheExact(cache2, t2, s2, log2) && s2.pairs == s.pairs && |t2| == |t| == |s.pairs|
    requires forall i :: 0 <= i < |t| ==> t2[i].judged == t[i].judged
    requires forall i :: 0 <= i < |s.pairs| ==> KeyOf(s.pairs[i]) in cache && KeyOf(s.pairs[i]) in cache2
    ensures cache2 == cache
  {
    forall i | 0 <= i < |s.pairs| ensures cache2[KeyOf(s.pairs[i])] == cache[KeyOf(s.pairs[i])] {
      assert KeptAt(cache, t, s, log, i) && KeptAt(cache2, t2, s2, log2, i);
    }
    forall key ensures key in cache <==> key in cache2 {
      if key in cache { var i :| 0 <= i < |t| && key == KeyOf(s.pairs[i]); }
      if key in cache2 { var i :| 0 <= i < |t2| && key == KeyOf(s.pairs[i]); }
    }
  }
}
