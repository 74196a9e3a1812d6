/** Judging the candidates of each pair of sources: batches put to the model, and a cache of judged pairs. */
module ModelRelations {
  import opened Common
  import opened Decisions
  import opened TokenMeter

  const MODEL_BATCH_SIZE: nat := 8

  /** What a judgment depends on besides the candidates: group, sources, descriptions, model and prompt. */
  type Context(==, !new)

  /** One pair of sources: its context, its candidates in order, and what each batch must reserve. */
  datatype Pair = Pair(context: Context, offers: seq<Offer>, sizes: seq<nat>)

  /** The hashed key is what was hashed. */
  datatype CacheKey = CacheKey(context: Context, offers: seq<Offer>)

  datatype Entry = Entry(context: Context, decisions: Json)

  function KeyOf(p: Pair): CacheKey { CacheKey(p.context, p.offers) }

  // ---- batches ----

  function Batches(n: nat): nat { (n + MODEL_BATCH_SIZE - 1) / MODEL_BATCH_SIZE }

  predicate IdsDiffer(offers: seq<Offer>, i: nat, j: nat)
    requires i < |offers| && j < |offers|
  {
    offers[i].id != offers[j].id
  }

  predicate Distinct(offers: seq<Offer>) {
    forall i, j :: 0 <= i < j < |offers| ==> IdsDiffer(offers, i, j)
  }

  /** Candidates are distinct, with complete quotes; there is a size for every batch. */
  predicate PairOk(p: Pair) {
    && (forall i :: 0 <= i < |p.offers| ==> OfferOk(p.offers[i]))
    && Distinct(p.offers)
    && |p.sizes| == Batches(|p.offers|)
  }

  /** `candidates_by_id`, for the first `k` candidates. */
  function OffersById(offers: seq<Offer>, k: nat): map<string, Offer>
    requires k <= |offers|
  {
    if k == 0 then map[] else OffersById(offers, k - 1)[offers[k - 1].id := offers[k - 1]]
  }

  /** `c1` to `c8`. */
  function ShortId(i: nat): string
    requires i < MODEL_BATCH_SIZE
  {
    ['c', ('1' as int + i) as char]
  }

  /** `batch_by_id`: `n` candidates from `off` on, under short ids. */
  function BatchById(offers: seq<Offer>, off: nat, n: nat): map<string, Offer>
    requires off + n <= |offers| && n <= MODEL_BATCH_SIZE
  {
    if n == 0 then map[] else BatchById(offers, off, n - 1)[ShortId(n - 1) := offers[off + n - 1]]
  }

  function BatchSize(n: nat, off: nat): nat
    requires off <= n
  {
    if n - off < MODEL_BATCH_SIZE then n - off else MODEL_BATCH_SIZE
  }

  lemma {:induction false} ByIdHolds(offers: seq<Offer>, k: nat)
    requires k <= |offers| && forall i :: 0 <= i < |offers| ==> OfferOk(offers[i])
    requires Distinct(offers)
    ensures ById(OffersById(offers, k))
    ensures forall i :: 0 <= i < k ==> offers[i].id in OffersById(offers, k) && OffersById(offers, k)[offers[i].id] == offers[i]
    ensures forall id :: id in OffersById(offers, k) ==> exists i :: 0 <= i < k && offers[i].id == id
  {
    if k > 0 {
      ByIdHolds(offers, k - 1);
      var last := k - 1;
      forall i | 0 <= i < last ensures offers[i].id != offers[last].id { assert IdsDiffer(offers, i, last); }
    }
  }

  lemma InRangeWidens(id: string, offers: seq<Offer>, lo: nat, hi: nat, hi2: nat)
    requires lo <= hi <= hi2 <= |offers| && InRange(id, offers, lo, hi)
    ensures InRange(id, offers, 0, hi2)
  {
    var j :| lo <= j < hi && offers[j].id == id;
  }

  predicate InRange(id: string, offers: seq<Offer>, lo: nat, hi: nat)
    requires lo <= hi <= |offers|
  {
    exists j :: lo <= j < hi && offers[j].id == id
  }

  /** Judgments of a batch concern its own candidates. */
  predicate OfRange(ds: seq<Decision>, offers: seq<Offer>, lo: nat, hi: nat)
    requires lo <= hi <= |offers|
  {
    forall i :: 0 <= i < |ds| ==> InRangeAt(ds, i, offers, lo, hi)
  }

  predicate InRangeAt(ds: seq<Decision>, i: nat, offers: seq<Offer>, lo: nat, hi: nat)
    requires i < |ds| && lo <= hi <= |offers|
  {
    InRange(ds[i].id, offers, lo, hi)
  }

  predicate IsOffer(o: Offer, offers: seq<Offer>, lo: nat, hi: nat)
    requires lo <= hi <= |offers|
  {
    exists j :: lo <= j < hi && offers[j] == o
  }

  lemma OneMoreOffer(o: Offer, offers: seq<Offer>, lo: nat, hi: nat)
    requires lo <= hi < |offers|
    ensures IsOffer(offers[hi], offers, lo, hi + 1)
    ensures IsOffer(o, offers, lo, hi) ==> IsOffer(o, offers, lo, hi + 1)
  {
  }

  lemma {:induction false} BatchIsRange(offers: seq<Offer>, off: nat, n: nat)
    requires off + n <= |offers| && n <= MODEL_BATCH_SIZE
    ensures forall key :: key in BatchById(offers, off, n) ==> IsOffer(BatchById(offers, off, n)[key], offers, off, off + n)
    ensures |BatchById(offers, off, n)| <= n
  {
    if n > 0 {
      BatchIsRange(offers, off, n - 1);
      var before, now := BatchById(offers, off, n - 1), BatchById(offers, off, n);
      assert now.Keys == before.Keys + {ShortId(n - 1)};
      forall key | key in now ensures IsOffer(now[key], offers, off, off + n) {
        OneMoreOffer(now[key], offers, off, off + n - 1);
      }
    }
  }

  lemma BatchWithin(offers: seq<Offer>, off: nat, n: nat)
    requires off + n <= |offers| && n <= MODEL_BATCH_SIZE
    requires forall i :: 0 <= i < |offers| ==> OfferOk(offers[i])
    requires Distinct(offers)
    ensures Within(BatchById(offers, off, n), OffersById(offers, |offers|))
  {
    BatchIsRange(offers, off, n);
    ByIdHolds(offers, |offers|);
  }

  lemma ItemOfRange(item: Json, offers: seq<Offer>, off: nat, n: nat)
    requires off + n <= |offers| && n <= MODEL_BATCH_SIZE && DecodeItem(item, BatchById(offers, off, n)).Some?
    ensures InRange(DecodeItem(item, BatchById(offers, off, n)).value.id, offers, off, off + n)
  {
    BatchIsRange(offers, off, n);
  }

  lemma RangeNext(ds: seq<Decision>, d: Decision, offers: seq<Offer>, lo: nat, hi: nat)
    requires lo <= hi <= |offers| && OfRange(ds, offers, lo, hi) && InRange(d.id, offers, lo, hi)
    ensures OfRange(ds + [d], offers, lo, hi)
  {
    var more := ds + [d];
    forall i | 0 <= i < |more| ensures InRangeAt(more, i, offers, lo, hi) {
      if i < |ds| { assert InRangeAt(ds, i, offers, lo, hi); }
    }
  }

  lemma {:induction false} DecodedOfRange(items: seq<Json>, k: nat, offers: seq<Offer>, off: nat, n: nat)
    requires k <= |items| && off + n <= |offers| && n <= MODEL_BATCH_SIZE
    requires DecodeItems(items, k, BatchById(offers, off, n)).Some?
    ensures OfRange(DecodeItems(items, k, BatchById(offers, off, n)).value, offers, off, off + n)
  {
    if k > 0 {
      DecodedOfRange(items, k - 1, offers, off, n);
      ItemOfRange(items[k - 1], offers, off, n);
      var batch := BatchById(offers, off, n);
      RangeNext(DecodeItems(items, k - 1, batch).value, DecodeItem(items[k - 1], batch).value, offers, off, off + n);
    }
  }

  // ---- judgments of a pair, batch by batch ----

  /** The candidates of batch `b`, under their short ids. */
  function BatchAt(offers: seq<Offer>, b: nat): map<string, Offer> {
    var off := b * MODEL_BATCH_SIZE;
    if off <= |offers| then BatchById(offers, off, BatchSize(|offers|, off)) else map[]
  }

  /** A whole reply to a batch, with the judgments it decodes to. */
  datatype Answer = Answer(reply: Json, judgments: seq<Decision>)

  /** The judgments of the first `k` answers, in order. */
  function Joined(answers: seq<Answer>, k: nat): seq<Decision>
    requires k <= |answers|
  {
    if k == 0 then [] else Joined(answers, k - 1) + answers[k - 1].judgments
  }

  lemma {:induction false} JoinedPrefix(a: seq<Answer>, b: seq<Answer>, k: nat)
    requires k <= |a| && k <= |b| && forall i :: 0 <= i < k ==> a[i] == b[i]
    ensures Joined(a, k) == Joined(b, k)
  {
    if k > 0 { JoinedPrefix(a, b, k - 1); }
  }

  /** The judgments of a pair whose first `k` candidates have been judged. */
  ghost predicate Judging(ds: seq<Decision>, offers: seq<Offer>, k: nat)
    requires k <= |offers|
  {
    Proper(ds, OffersById(offers, |offers|)) && OfRange(ds, offers, 0, k)
  }

  lemma JudgingNext(ds: seq<Decision>, more: seq<Decision>, offers: seq<Offer>, k: nat, n: nat)
    requires k + n <= |offers| && Judging(ds, offers, k)
    requires Distinct(offers)
    requires Proper(more, OffersById(offers, |offers|)) && OfRange(more, offers, k, k + n)
    ensures Judging(ds + more, offers, k + n)
  {
    ProperCat(ds, more, offers, k, k + n);
    RangeCat(ds, more, offers, k, k + n);
  }

  lemma RangeCat(ds: seq<Decision>, more: seq<Decision>, offers: seq<Offer>, k: nat, hi: nat)
    requires k <= hi <= |offers| && OfRange(ds, offers, 0, k) && OfRange(more, offers, k, hi)
    ensures OfRange(ds + more, offers, 0, hi)
  {
    var all := ds + more;
    forall i | 0 <= i < |all| ensures InRangeAt(all, i, offers, 0, hi) {
      if i < |ds| {
        assert InRangeAt(ds, i, offers, 0, k);
        InRangeWidens(ds[i].id, offers, 0, k, hi);
      } else {
        var m := i - |ds|;
        assert InRangeAt(more, m, offers, k, hi);
        InRangeWidens(more[m].id, offers, k, hi, hi);
      }
    }
  }

  /** Judgments on two disjoint stretches of the candidates never concern the same one. */
  lemma ProperCat(ds: seq<Decision>, more: seq<Decision>, offers: seq<Offer>, k: nat, hi: nat)
    requires k <= hi <= |offers| && OfRange(ds, offers, 0, k) && OfRange(more, offers, k, hi)
    requires Distinct(offers)
    requires Proper(ds, OffersById(offers, |offers|)) && Proper(more, OffersById(offers, |offers|))
    ensures Proper(ds + more, OffersById(offers, |offers|))
  {
    var all, byId := ds + more, OffersById(offers, |offers|);
    forall i | 0 <= i < |all| ensures OwnedAt(all, i, byId) {
      if i < |ds| {
        assert OwnedAt(ds, i, byId);
      } else {
        var m := i - |ds|;
        assert OwnedAt(more, m, byId);
      }
    }
    forall i, j | 0 <= i < j < |all| ensures Differ(all, i, j) {
      var l, m := i - |ds|, j - |ds|;
      if j < |ds| {
        assert Differ(ds, i, j);
      } else if i >= |ds| {
        assert Differ(more, l, m);
      } else {
        assert InRangeAt(ds, i, offers, 0, k) && InRangeAt(more, m, offers, k, hi);
        RangesApart(ds[i].id, more[m].id, offers, k, hi);
      }
    }
  }

  lemma RangesApart(a: string, b: string, offers: seq<Offer>, k: nat, hi: nat)
    requires k <= hi <= |offers| && Distinct(offers) && InRange(a, offers, 0, k) && InRange(b, offers, k, hi)
    ensures a != b
  {
    var i :| 0 <= i < k && offers[i].id == a;
    var j :| k <= j < hi && offers[j].id == b;
    assert IdsDiffer(offers, i, j);
  }

  /** One batch decoded: judgments on this batch's candidates, with the server's own quotes. */
  lemma BatchJudged(payload: Json, offers: seq<Offer>, off: nat, n: nat)
    requires off + n <= |offers| && n <= MODEL_BATCH_SIZE
    requires forall i :: 0 <= i < |offers| ==> OfferOk(offers[i])
    requires Distinct(offers)
    requires Decode(payload, BatchById(offers, off, n)).Some?
    ensures Proper(Decode(payload, BatchById(offers, off, n)).value, OffersById(offers, |offers|))
    ensures OfRange(Decode(payload, BatchById(offers, off, n)).value, offers, off, off + n)
  {
    var items := ItemsOf(payload).value;
    BatchWithin(offers, off, n);
    DecodedIsProper(items, |items|, BatchById(offers, off, n), OffersById(offers, |offers|));
    DecodedOfRange(items, |items|, offers, off, n);
  }

  // ---- what calls yield ----

  /** What a call yields for a batch: its judgments if it was whole, within its reservation, and well formed. */
  function Yield(c: Call, batch: map<string, Offer>): Option<seq<Decision>> {
    if c.reply.Replied? && c.reply.stop.Finished? && c.reply.payload.Some? && !OverReported(c)
    then Decode(c.reply.payload.value, batch) else None
  }

  /** The calls from `lo` to `hi` that were replied to, in order. */
  function Replies(log: seq<Call>, lo: nat, hi: nat): seq<Call>
    requires lo <= hi <= |log|
    decreases hi
  {
    if hi == lo then [] else Replies(log, lo, hi - 1) + if log[hi - 1].reply.Replied? then [log[hi - 1]] else []
  }

  lemma {:induction false} RepliesLater(log: seq<Call>, lo: nat, hi: nat, later: seq<Call>)
    requires lo <= hi <= |log| && log <= later
    ensures Replies(later, lo, hi) == Replies(log, lo, hi)
    decreases hi
  {
    if lo < hi { RepliesLater(log, lo, hi - 1, later); }
  }

  lemma {:induction false} RepliesCat(log: seq<Call>, lo: nat, mid: nat, hi: nat)
    requires lo <= mid <= hi <= |log|
    ensures Replies(log, lo, hi) == Replies(log, lo, mid) + Replies(log, mid, hi)
    decreases hi
  {
    if mid < hi { RepliesCat(log, lo, mid, hi - 1); }
  }

  lemma {:induction false} NoReplies(log: seq<Call>, lo: nat, hi: nat)
    requires lo <= hi <= |log| && forall k :: lo <= k < hi ==> log[k].reply.Raised?
    ensures Replies(log, lo, hi) == []
    decreases hi
  {
    if lo < hi { NoReplies(log, lo, hi - 1); }
  }

  lemma LastReplies(log: seq<Call>, lo: nat)
    requires lo < |log| && log[|log| - 1].reply.Replied? && forall k :: lo <= k < |log| - 1 ==> log[k].reply.Raised?
    ensures Replies(log, lo, |log|) == [log[|log| - 1]]
  {
    NoReplies(log, lo, |log| - 1);
  }

  /** How far the replies to a pair's batches have been read: the next batch, and the judgments so far. */
  datatype Reading = Reading(batch: nat, judgments: seq<Decision>)

  /** One more reply, to the next batch; nothing if it yields nothing or no batch is left. */
  function ReadNext(p: Pair, r: Reading, c: Call): Option<Reading> {
    if r.batch >= |p.sizes| then None
    else
      var ds := Yield(c, BatchAt(p.offers, r.batch));
      if ds.None? then None else Some(Reading(r.batch + 1, r.judgments + ds.value))
  }

  /** The first `k` replies, one to a batch. */
  function ReadThrough(p: Pair, replies: seq<Call>, k: nat): Option<Reading>
    requires k <= |replies|
  {
    if k == 0 then Some(Reading(0, []))
    else
      var r := ReadThrough(p, replies, k - 1);
      if r.None? then None else ReadNext(p, r.value, replies[k - 1])
  }

  /** What the replies judge of the pair: nothing unless every batch has been read. */
  function ReadOff(p: Pair, replies: seq<Call>): Option<seq<Decision>> {
    var r := ReadThrough(p, replies, |replies|);
    if r.Some? && r.value.batch == |p.sizes| then Some(r.value.judgments) else None
  }

  lemma {:induction false} ReadPrefix(p: Pair, a: seq<Call>, b: seq<Call>, k: nat)
    requires k <= |a| && k <= |b| && forall i :: 0 <= i < k ==> a[i] == b[i]
    ensures ReadThrough(p, a, k) == ReadThrough(p, b, k)
  {
    if k > 0 { ReadPrefix(p, a, b, k - 1); }
  }

  /** The calls of one batch: a reply that yields these judgments, or no reply, or one that yields nothing. */
  predicate BatchRead(replies: seq<Call>, batch: map<string, Offer>, ds: Option<seq<Decision>>) {
    if replies == [] then ds.None? else |replies| == 1 && Yield(replies[0], batch) == ds
  }

  /** These replies have been read up to batch `b`. */
  predicate ReadUpTo(p: Pair, replies: seq<Call>, b: nat, ds: seq<Decision>) {
    ReadThrough(p, replies, |replies|) == Some(Reading(b, ds))
  }

  lemma ReadOne(p: Pair, replies: seq<Call>, b: nat, sofar: seq<Decision>, c: Call)
    requires ReadUpTo(p, replies, b, sofar)
    ensures ReadThrough(p, replies + [c], |replies| + 1) == ReadNext(p, Reading(b, sofar), c)
  {
    var more, n := replies + [c], |replies|;
    ReadPrefix(p, replies, more, n);
    assert more[n] == c && ReadThrough(p, more, n) == Some(Reading(b, sofar));
  }

  lemma ReadBatch(p: Pair, replies: seq<Call>, b: nat, sofar: seq<Decision>, more: seq<Call>, ds: Option<seq<Decision>>)
    requires b < |p.sizes| && ReadUpTo(p, replies, b, sofar) && BatchRead(more, BatchAt(p.offers, b), ds)
    ensures ds.Some? ==> ReadUpTo(p, replies + more, b + 1, sofar + ds.value)
    ensures ds.None? ==> ReadOff(p, replies + more).None?
  {
    if more == [] {
      assert replies + more == replies;
    } else {
      assert more == [more[0]];
      assert ReadNext(p, Reading(b, sofar), more[0]) == if ds.None? then None else Some(Reading(b + 1, sofar + ds.value));
      ReadOne(p, replies, b, sofar, more[0]);
    }
  }

  lemma RepliesNext(log: seq<Call>, lo: nat, later: seq<Call>)
    requires lo <= |log| && log <= later
    ensures Replies(later, lo, |later|) == Replies(log, lo, |log|) + Replies(later, |log|, |later|)
  {
    RepliesLater(log, lo, |log|, later);
    RepliesCat(later, lo, |log|, |later|);
  }

  /** This call answered batch `b`: it was reserved for it, whole, and decodes to these judgments. */
  predicate Answers(c: Call, a: Answer, p: Pair, b: nat)
    requires b < |p.sizes|
  {
    && c.reserve == p.sizes[b] && c.reply.Replied? && c.reply.payload == Some(a.reply)
    && Yield(c, BatchAt(p.offers, b)) == Some(a.judgments)
  }

  /** Answer `b` was given by one of the calls from `lo` to `hi`. */
  ghost predicate AnswerAt(answers: seq<Answer>, b: nat, p: Pair, log: seq<Call>, lo: nat, hi: nat)
    requires b < |answers| <= |p.sizes| && hi <= |log|
  {
    exists k :: lo <= k < hi && Answers(log[k], answers[b], p, b)
  }

  ghost predicate Answered(answers: seq<Answer>, p: Pair, log: seq<Call>, lo: nat, hi: nat) {
    && |answers| <= |p.sizes| && hi <= |log|
    && forall b :: 0 <= b < |answers| ==> AnswerAt(answers, b, p, log, lo, hi)
  }

  lemma AnsweredLater(answers: seq<Answer>, p: Pair, log: seq<Call>, lo: nat, hi: nat, later: seq<Call>, end: nat)
    requires Answered(answers, p, log, lo, hi) && log <= later && hi <= end <= |later|
    ensures Answered(answers, p, later, lo, end)
  {
    forall b | 0 <= b < |answers| ensures AnswerAt(answers, b, p, later, lo, end) {
      assert AnswerAt(answers, b, p, log, lo, hi);
      var k :| lo <= k < hi && Answers(log[k], answers[b], p, b);
      assert later[k] == log[k];
    }
  }

  lemma AnsweredNext(answers: seq<Answer>, a: Answer, p: Pair, log: seq<Call>, lo: nat)
    requires |answers| < |p.sizes| && Answered(answers, p, log, lo, |log|)
    requires lo < |log| && Answers(log[|log| - 1], a, p, |answers|)
    ensures Answered(answers + [a], p, log, lo, |log|)
  {
    var more, last := answers + [a], |log| - 1;
    forall b | 0 <= b < |more| ensures AnswerAt(more, b, p, log, lo, |log|) {
      if b < |answers| {
        assert AnswerAt(answers, b, p, log, lo, |log|);
        var k :| lo <= k < |log| && Answers(log[k], answers[b], p, b);
        assert Answers(log[k], more[b], p, b);
      } else {
        assert Answers(log[last], more[b], p, b);
      }
    }
  }

  /** Every one of these calls was answered with known usage. */
  ghost predicate AllReported(log: seq<Call>, lo: nat, hi: nat)
    requires hi <= |log|
  {
    forall k :: lo <= k < hi ==> FullyReported(log[k])
  }

  /** After `k` calls the caps leave room for one more. */
  predicate HasRoom(log: seq<Call>, k: nat, reserve: nat)
    requires k <= |log|
  {
    Reserved(log, k) + reserve <= 200_000 && (k + 1) * 2_048 <= 40_000
  }

  /**
   * Batch `b` could not be judged, and notices say so: the last look at the clock found no time, or a
   * cap left no room, or the last of the calls `lo` to `hi` was made for it and yields nothing.
   */
  ghost predicate Failed(
      p: Pair, b: nat, clock: nat -> bool, next: nat, notices: set<Notice>, log: seq<Call>, lo: nat, hi: nat)
    requires b < |p.sizes| && hi <= |log|
  {
    || (next > 0 && !clock(next - 1) && DEADLINE_EXCEEDED in notices)
    || (!HasRoom(log, hi, p.sizes[b]) && BUDGET_EXCEEDED in notices)
    || (lo < hi && log[hi - 1].reserve == p.sizes[b] && Yield(log[hi - 1], BatchAt(p.offers, b)).None?
        && notices != {} && (OverReported(log[hi - 1]) ==> BUDGET_EXCEEDED in notices))
  }

  lemma FailedLater(
      p: Pair, b: nat, clock: nat -> bool, next: nat, notices: set<Notice>, log: seq<Call>, lo: nat, hi: nat, later: seq<Call>)
    requires b < |p.sizes| && hi <= |log| && log <= later && Failed(p, b, clock, next, notices, log, lo, hi)
    ensures Failed(p, b, clock, next, notices, later, lo, hi)
  {
    SumsPrefix(log, later, hi);
  }

  /** The meter stands where batch `b` failed, `lo` calls having been made before. */
  ghost predicate FailedHere(m: Meter, p: Pair, b: nat, lo: nat)
    requires b < |p.sizes|
    reads m
  {
    Failed(p, b, m.clock, m.ticks, m.partial, m.log, lo, |m.log|)
  }

  /** A call since `lo` was made only if the look at the clock before the first of them found time. */
  ghost predicate InTime(m: Meter, lo: nat, tick: nat) reads m {
    |m.log| > lo ==> m.clock(tick)
  }

  /** Reads a reply: cut off, over-reported, unfinished and malformed ones yield nothing, and are noted. */
  method ReadReply(m: Meter, c: Call, batch: map<string, Offer>) returns (ds: Option<seq<Decision>>)
    requires c.reply.Replied? && (OverReported(c) ==> BUDGET_EXCEEDED in m.partial)
    modifies m`partial
    ensures ds == Yield(c, batch) && (ds.None? ==> m.partial != {})
    ensures old(m.partial) <= m.partial
  {
    if c.reply.stop.MaxTokens? {
      m.partial := m.partial + {MODEL_MAX_TOKENS};
      return None;
    }
    if OverReported(c) { return None; }
    ds := None;
    if c.reply.stop.Finished? && c.reply.payload.Some? {
      ds := ReadDecisions(c.reply.payload.value, batch);
    }
    if ds.None? { m.partial := m.partial + {MODEL_OUTPUT_INVALID}; }
  }

  /** One batch: asked for, and decoded if the reply is whole. */
  method JudgeBatch(m: Meter, p: Pair, b: nat) returns (ds: Option<seq<Decision>>, clean: bool, ghost answer: Answer)
    requires m.Open() && PairOk(p) && b < |p.sizes|
    modifies m
    ensures m.Valid() && old(m.log) <= m.log && old(m.partial) <= m.partial && m.ticks > old(m.ticks)
    ensures ds.Some? ==> m.Open() && |m.log| > |old(m.log)| && Answers(m.log[|m.log| - 1], answer, p, b)
    ensures ds.Some? ==> answer.judgments == ds.value
    ensures ds.None? ==> FailedHere(m, p, b, |old(m.log)|)
    ensures BatchRead(Replies(m.log, |old(m.log)|, |m.log|), BatchAt(p.offers, b), ds)
    ensures InTime(m, |old(m.log)|, old(m.ticks))
    ensures clean <==> AllReported(m.log, |old(m.log)|, |m.log|)
  {
    answer := Answer(JNull, []);
    var reply, exceeded;
    reply, clean, exceeded := m.Ask(p.sizes[b]);
    if reply.None? {
      NoReplies(m.log, |old(m.log)|, |m.log|);
      NothingYielded(m, |old(m.log)|, p, b);
      return None, clean, answer;
    }
    var c := Call(p.sizes[b], reply.value);
    LastReplies(m.log, |old(m.log)|);
    assert m.log[|m.log| - 1] == c;
    ds := ReadReply(m, c, BatchAt(p.offers, b));
    if ds.Some? { answer := Answer(reply.value.payload.value, ds.value); } else { NothingRead(m, c, |old(m.log)|, p, b); }
  }

  lemma NothingYielded(m: Meter, lo: nat, p: Pair, b: nat)
    requires m.Open() && b < |p.sizes|
    requires m.Refused(p.sizes[b])
             || (|m.log| > lo && MODEL_ERROR in m.partial && m.log[|m.log| - 1] == Call(p.sizes[b], Raised))
    ensures FailedHere(m, p, b, lo)
  {
  }

  lemma NothingRead(m: Meter, c: Call, lo: nat, p: Pair, b: nat)
    requires m.Valid() && b < |p.sizes| && c.reserve == p.sizes[b] && lo < |m.log| && m.log[|m.log| - 1] == c
    requires Yield(c, BatchAt(p.offers, b)).None? && m.partial != {}
    ensures FailedHere(m, p, b, lo)
  {
    assert OverReported(c) ==> !NoneOver(m.log);
  }

  // ---- a judged pair ----

  /** A pair judged in full by the calls `lo` to `hi`: every batch answered, the judgments what the answers mean. */
  ghost predicate JudgedBy(ds: seq<Decision>, answers: seq<Answer>, p: Pair, log: seq<Call>, lo: nat, hi: nat) {
    && |answers| == |p.sizes| && ds == Joined(answers, |answers|)
    && Answered(answers, p, log, lo, hi) && Judging(ds, p.offers, |p.offers|)
  }

  /** Judged so far: the first `b` batches. */
  ghost predicate Answering(ds: seq<Decision>, answers: seq<Answer>, p: Pair, b: nat, log: seq<Call>, lo: nat)
    requires b <= |p.sizes|
  {
    var k := if b * MODEL_BATCH_SIZE <= |p.offers| then b * MODEL_BATCH_SIZE else |p.offers|;
    && |answers| == b && ds == Joined(answers, b)
    && Answered(answers, p, log, lo, |log|) && Judging(ds, p.offers, k)
  }

  /** ... as the replies read. */
  ghost predicate Progress(ds: seq<Decision>, answers: seq<Answer>, p: Pair, b: nat, log: seq<Call>, lo: nat)
    requires b <= |p.sizes|
  {
    Answering(ds, answers, p, b, log, lo) && lo <= |log| && ReadUpTo(p, Replies(log, lo, |log|), b, ds)
  }

  lemma YieldDecodes(c: Call, a: Answer, p: Pair, b: nat)
    requires b < |p.sizes| && Answers(c, a, p, b)
    ensures Decode(a.reply, BatchAt(p.offers, b)) == Some(a.judgments)
  {
  }

  lemma AnsweringNext(
      ds: seq<Decision>, answers: seq<Answer>, a: Answer, p: Pair, b: nat, log: seq<Call>, lo: nat, later: seq<Call>)
    requires PairOk(p) && b < |p.sizes| && Answering(ds, answers, p, b, log, lo) && log <= later && lo < |later|
    requires Answers(later[|later| - 1], a, p, b)
    ensures Answering(ds + a.judgments, answers + [a], p, b + 1, later, lo)
  {
    var off := b * MODEL_BATCH_SIZE;
    var n := BatchSize(|p.offers|, off);
    assert Judging(ds + a.judgments, p.offers, off + n) by {
      YieldDecodes(later[|later| - 1], a, p, b);
      BatchJudged(a.reply, p.offers, off, n);
      JudgingNext(ds, a.judgments, p.offers, off, n);
    }
    JoinedPrefix(answers, answers + [a], b);
    AnsweredLater(answers, p, log, lo, |log|, later, |later|);
    AnsweredNext(answers, a, p, later, lo);
  }

  lemma ReadsOn(p: Pair, b: nat, ds: seq<Decision>, more: Option<seq<Decision>>, log: seq<Call>, lo: nat, later: seq<Call>)
    requires lo <= |log| && b < |p.sizes| && log <= later && ReadUpTo(p, Replies(log, lo, |log|), b, ds)
    requires BatchRead(Replies(later, |log|, |later|), BatchAt(p.offers, b), more)
    ensures more.Some? ==> ReadUpTo(p, Replies(later, lo, |later|), b + 1, ds + more.value)
    ensures more.None? ==> ReadOff(p, Replies(later, lo, |later|)).None?
  {
    RepliesNext(log, lo, later);
    ReadBatch(p, Replies(log, lo, |log|), b, ds, Replies(later, |log|, |later|), more);
  }

  lemma ProgressOn(
      ds: seq<Decision>, answers: seq<Answer>, a: Answer, p: Pair, b: nat, log: seq<Call>, lo: nat, later: seq<Call>)
    requires PairOk(p) && b < |p.sizes| && Progress(ds, answers, p, b, log, lo) && log <= later && |later| > |log|
    requires ReadUpTo(p, Replies(later, lo, |later|), b + 1, ds + a.judgments)
    requires Answers(later[|later| - 1], a, p, b)
    ensures Progress(ds + a.judgments, answers + [a], p, b + 1, later, lo)
  {
    AnsweringNext(ds, answers, a, p, b, log, lo, later);
  }

  /** The calls of batch `b`: they take the pair a batch further, or show that it is not judged. */
  lemma ProgressNext(
      ds: seq<Decision>, answers: seq<Answer>, more: Option<seq<Decision>>, a: Answer, p: Pair, b: nat,
      log: seq<Call>, lo: nat, later: seq<Call>)
    requires PairOk(p) && b < |p.sizes| && Progress(ds, answers, p, b, log, lo) && log <= later
    requires BatchRead(Replies(later, |log|, |later|), BatchAt(p.offers, b), more)
    requires more.Some? ==> |later| > |log| && Answers(later[|later| - 1], a, p, b) && a.judgments == more.value
    ensures more.Some? ==> Progress(ds + more.value, answers + [a], p, b + 1, later, lo)
    ensures more.None? ==> ReadOff(p, Replies(later, lo, |later|)).None?
  {
    ReadsOn(p, b, ds, more, log, lo, later);
    if more.Some? { ProgressOn(ds, answers, a, p, b, log, lo, later); }
  }

  lemma ProgressStart(p: Pair, log: seq<Call>)
    requires PairOk(p)
    ensures Progress([], [], p, 0, log, |log|)
  {
  }

  lemma ProgressDone(ds: seq<Decision>, answers: seq<Answer>, p: Pair, log: seq<Call>, lo: nat)
    requires PairOk(p) && Progress(ds, answers, p, |p.sizes|, log, lo)
    ensures JudgedBy(ds, answers, p, log, lo, |log|) && ReadOff(p, Replies(log, lo, |log|)) == Some(ds)
  {
  }

  lemma ReportedNext(log: seq<Call>, later: seq<Call>, lo: nat)
    requires log <= later && lo <= |log|
    ensures AllReported(later, lo, |later|) <==> AllReported(log, lo, |log|) && AllReported(later, |log|, |later|)
  {
    assert forall k :: lo <= k < |log| ==> later[k] == log[k];
  }

  /** Where a pair's calls stand: they began at `lo`, if any has been made, in time; `clean` says that all reported their usage. */
  ghost predicate Asking(m: Meter, lo: nat, tick: nat, clean: bool) reads m {
    lo <= |m.log| && InTime(m, lo, tick) && (|m.log| == lo ==> m.ticks == tick) && (clean <==> AllReported(m.log, lo, |m.log|))
  }

  lemma FailedWider(m: Meter, p: Pair, b: nat, mid: nat, lo: nat)
    requires b < |p.sizes| && lo <= mid <= |m.log| && FailedHere(m, p, b, mid)
    ensures FailedHere(m, p, b, lo)
  {
  }

  lemma AskedNext(m: Meter, lo: nat, tick: nat, clean: bool, before: seq<Call>, begun: nat, ok: bool)
    requires lo <= |before| && before <= m.log && (|before| > lo ==> m.clock(tick)) && (|before| == lo ==> begun == tick)
    requires (clean <==> AllReported(before, lo, |before|)) && (ok <==> AllReported(m.log, |before|, |m.log|))
    requires InTime(m, |before|, begun)
    ensures InTime(m, lo, tick) && (clean && ok <==> AllReported(m.log, lo, |m.log|))
  {
    ReportedNext(before, m.log, lo);
  }

  /** The pair could not be judged: some batch failed, and the replies judge nothing. */
  ghost predicate LeftUnjudged(m: Meter, p: Pair, lo: nat) reads m {
    lo <= |m.log| && (exists b :: 0 <= b < |p.sizes| && FailedHere(m, p, b, lo)) && ReadOff(p, Replies(m.log, lo, |m.log|)).None?
  }

  /** One more batch of a pair whose calls began at `lo`. */
  method AskNext(m: Meter, p: Pair, b: nat, clean: bool, ghost lo: nat, ghost tick: nat)
    returns (ds: Option<seq<Decision>>, still: bool, ghost answer: Answer)
    requires m.Open() && PairOk(p) && b < |p.sizes| && Asking(m, lo, tick, clean)
    modifies m
    ensures m.Valid() && old(m.log) <= m.log && old(m.partial) <= m.partial && m.ticks > old(m.ticks)
    ensures ds.Some? ==> m.Open() && |m.log| > |old(m.log)| && Answers(m.log[|m.log| - 1], answer, p, b)
    ensures ds.Some? ==> answer.judgments == ds.value
    ensures ds.None? ==> FailedHere(m, p, b, lo)
    ensures BatchRead(Replies(m.log, |old(m.log)|, |m.log|), BatchAt(p.offers, b), ds)
    ensures InTime(m, lo, tick) && (still <==> AllReported(m.log, lo, |m.log|))
  {
    ghost var before, begun := m.log, m.ticks;
    ds, still, answer := JudgeBatch(m, p, b);
    AskedNext(m, lo, tick, clean, before, begun, still);
    still := clean && still;
    if ds.None? { FailedWider(m, p, b, |before|, lo); }
  }

  method JudgeNext(m: Meter, p: Pair, b: nat, clean: bool, ghost lo: nat, ghost tick: nat, ghost sofar: seq<Decision>, ghost answers: seq<Answer>)
    returns (ds: Option<seq<Decision>>, still: bool, ghost more: seq<Answer>)
    requires m.Open() && PairOk(p) && b < |p.sizes| && Asking(m, lo, tick, clean) && Progress(sofar, answers, p, b, m.log, lo)
    modifies m
    ensures m.Valid() && old(m.log) <= m.log && old(m.partial) <= m.partial && m.ticks > old(m.ticks)
    ensures ds.Some? ==> m.Open() && |m.log| > lo && Progress(sofar + ds.value, more, p, b + 1, m.log, lo)
    ensures ds.None? ==> LeftUnjudged(m, p, lo)
    ensures InTime(m, lo, tick) && (still <==> AllReported(m.log, lo, |m.log|))
  {
    ghost var answer;
    ghost var before := m.log;
    ds, still, answer := AskNext(m, p, b, clean, lo, tick);
    ProgressNext(sofar, answers, ds, answer, p, b, before, lo, m.log);
    more := answers + [answer];
  }

  /** All batches of a pair, up to the first that fails: a function of the replies. `clean` exactly when
      every call made reported its usage. */
  method JudgePair(m: Meter, p: Pair) returns (ds: Option<seq<Decision>>, clean: bool, ghost answers: seq<Answer>)
    requires m.Open() && PairOk(p)
    modifies m
    ensures m.Valid() && old(m.log) <= m.log && old(m.partial) <= m.partial && m.ticks >= old(m.ticks)
    ensures ds.Some? ==> m.Open() && JudgedBy(ds.value, answers, p, m.log, |old(m.log)|, |m.log|)
    ensures ds.None? ==> LeftUnjudged(m, p, |old(m.log)|)
    ensures ds == ReadOff(p, Replies(m.log, |old(m.log)|, |m.log|))
    ensures InTime(m, |old(m.log)|, old(m.ticks))
    ensures clean <==> AllReported(m.log, |old(m.log)|, |m.log|)
  {
    answers, clean := [], true;
    var sofar, b := [], 0;
    ghost var lo, tick := |m.log|, m.ticks;
    ProgressStart(p, m.log);
    while b < |p.sizes|
      invariant 0 <= b <= |p.sizes| && m.Open() && old(m.log) <= m.log && old(m.partial) <= m.partial && m.ticks >= old(m.ticks)
      invariant Progress(sofar, answers, p, b, m.log, lo) && Asking(m, lo, tick, clean)
    {
      var last;
      last, clean, answers := JudgeNext(m, p, b, clean, lo, tick, sofar, answers);
      if last.None? { return None, clean, answers; }
      sofar, b := sofar + last.value, b + 1;
    }
    ProgressDone(sofar, answers, p, m.log, lo);
    return Some(sofar), clean, answers;
  }

  // ---- the cache ----

  /** The stored judgments of a pair. */
  function Stored(p: Pair, ds: seq<Decision>): Entry {
    Entry(p.context, JList(EncodeItems(ds)))
  }

  /** What a cache entry replays for a pair: nothing when the context differs or the entry is malformed. */
  function Replay(entry: Entry, p: Pair): Option<seq<Decision>> {
    if entry.context == p.context
    then Decode(JObj(map["relations" := entry.decisions]), OffersById(p.offers, |p.offers|)) else None
  }

  /** A judged pair put into the cache replays exactly the judgments it was stored with. */
  lemma CachedPairReplays(p: Pair, ds: seq<Decision>)
    requires PairOk(p) && Judging(ds, p.offers, |p.offers|)
    ensures Replay(Stored(p, ds), p) == Some(ds)
  {
    ByIdHolds(p.offers, |p.offers|);
    ReplayIsExact(ds, OffersById(p.offers, |p.offers|));
  }

  /** Whatever a cache holds, what it replays is proper: server-owned quotes, each candidate at most once. */
  lemma ReplayIsProper(entry: Entry, p: Pair)
    requires PairOk(p) && Replay(entry, p).Some?
    ensures Judging(Replay(entry, p).value, p.offers, |p.offers|)
  {
    var n := |p.offers|;
    var byId := OffersById(p.offers, n);
    var payload := JObj(map["relations" := entry.decisions]);
    var items := ItemsOf(payload).value;
    ByIdHolds(p.offers, n);
    DecodedIsProper(items, |items|, byId, byId);
    var ds := Replay(entry, p).value;
    forall i | 0 <= i < |ds| ensures InRangeAt(ds, i, p.offers, 0, n) {
      assert OwnedAt(ds, i, byId);
    }
  }

  /** What the manifest of an earlier build replays for a pair. */
  function Remembered(memory: map<CacheKey, Entry>, p: Pair): Option<seq<Decision>> {
    if KeyOf(p) in memory then Replay(memory[KeyOf(p)], p) else None
  }

  /** The judgments used for a pair: replayed without a call if remembered, otherwise what the replies to
      the calls made for it judge. */
  ghost predicate Sound(j: Option<seq<Decision>>, p: Pair, memory: map<CacheKey, Entry>, log: seq<Call>, lo: nat, hi: nat) {
    && (j.Some? ==> Judging(j.value, p.offers, |p.offers|))
    && (if Remembered(memory, p).Some? then j == Remembered(memory, p) && lo == hi
        else lo <= hi <= |log| && j == ReadOff(p, Replies(log, lo, hi))
             && (j.Some? ==> exists answers :: JudgedBy(j.value, answers, p, log, lo, hi)))
  }

  lemma SoundLater(
      j: Option<seq<Decision>>, p: Pair, memory: map<CacheKey, Entry>, log: seq<Call>, lo: nat, hi: nat, later: seq<Call>)
    requires Sound(j, p, memory, log, lo, hi) && log <= later && hi <= |log|
    ensures Sound(j, p, memory, later, lo, hi)
  {
    if Remembered(memory, p).None? { RepliesLater(log, lo, hi, later); }
    if j.Some? && Remembered(memory, p).None? {
      var answers :| JudgedBy(j.value, answers, p, log, lo, hi);
      AnsweredLater(answers, p, log, lo, hi, later, hi);
      assert JudgedBy(j.value, answers, p, later, lo, hi);
    }
  }

  /** One pair: replayed without a call if the cache remembers it, else judged afresh; cacheable
      exactly when every call made for it reported its usage. */
  method UsePair(m: Meter, p: Pair, memory: map<CacheKey, Entry>) returns (j: Option<seq<Decision>>, cacheable: bool)
    requires m.Open() && PairOk(p)
    modifies m
    ensures m.Valid() && old(m.log) <= m.log && old(m.partial) <= m.partial && m.ticks >= old(m.ticks)
    ensures Sound(j, p, memory, m.log, |old(m.log)|, |m.log|)
    ensures Remembered(memory, p).Some? ==> m.log == old(m.log) && m.ticks == old(m.ticks) && m.partial == old(m.partial)
    ensures j.Some? ==> m.Open()
    ensures j.None? ==> LeftUnjudged(m, p, |old(m.log)|)
    ensures InTime(m, |old(m.log)|, old(m.ticks))
    ensures cacheable <==> AllReported(m.log, |old(m.log)|, |m.log|)
  {
    j := None;
    if KeyOf(p) in memory && memory[KeyOf(p)].context == p.context {
      j := ReadDecisions(JObj(map["relations" := memory[KeyOf(p)].decisions]), OffersById(p.offers, |p.offers|));
    }
    if j.Some? {
      ReplayIsProper(memory[KeyOf(p)], p);
      m.reused := m.reused + 1;
      return j, true;
    }
    ghost var answers;
    j, cacheable, answers := JudgePair(m, p);
  }
}
