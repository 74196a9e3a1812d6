/** Where the page a call returns comes from: the replies of the SDK along the run. */
module OcrReplies {
  import opened Common
  import opened OcrRecord
  import opened OcrState
  import opened OcrProof
  import opened OcrTheorems

  // ---- what has been answered ----

  /** At event `m` the SDK answered call `i` with this page and this usage. */
  predicate Answers(es: seq<Event>, m: nat, i: nat, page: Page, raw: RawUsage)
    requires m < |es|
  {
    es[m].ByCall? && es[m].i == i && es[m].action.Answer? && es[m].action.answer == Success(page, raw)
  }

  ghost predicate Answered(es: seq<Event>, n: nat, i: nat, page: Page, raw: RawUsage) {
    exists m :: 0 <= m < n && m < |es| && Answers(es, m, i, page, raw)
  }

  /** Tokens of one kind reported to call `i` before event `n`, by successes and failures alike. */
  function ReportedTo(es: seq<Event>, n: nat, i: nat, name: string): nat
    requires n <= |es|
  {
    if n == 0 then 0
    else
      ReportedTo(es, n - 1, i, name)
      + if es[n - 1].ByCall? && es[n - 1].i == i && es[n - 1].action.Answer?
        then var raw := es[n - 1].action.reported; if name in raw && raw[name].Int? && raw[name].n >= 0 then raw[name].n else 0
        else 0
  }

  /** Answers to call `i` before event `n` whose usage is not in order. */
  function UnreportedTo(es: seq<Event>, n: nat, i: nat): nat
    requires n <= |es|
  {
    if n == 0 then 0
    else
      UnreportedTo(es, n - 1, i)
      + if es[n - 1].ByCall? && es[n - 1].i == i && es[n - 1].action.Answer? && !ValidRawUsage(Obj(es[n - 1].action.reported))
        then 1 else 0
  }

  // ---- what a call holds ----

  /** The page and usage a call has been answered with, or has made its own entry of. */
  function PageIn(c: Call): Option<(Page, RawUsage)> {
    if c.pc.Answered? && c.pc.answer.Success? then Some((c.pc.answer.page, c.pc.answer.raw))
    else if IsOwn(c.pc) then Some((c.pc.entry.page, c.pc.entry.raw)) else None
  }

  /** A call's own entry carries the call's own books. */
  predicate OwnBooks(c: Call) {
    IsOwn(c.pc) ==> c.pc.entry.usage == c.spent && c.pc.entry.unavailable == Some(c.unavailable)
  }

  /** A step that brings no answer: books and key stay, and a page is not new to the call. */
  predicate KeepsPage(c: Call, d: Call) {
    && d.spent == c.spent && d.unavailable == c.unavailable && (c.key.Some? ==> d.key == c.key)
    && (PageIn(d).Some? ==> PageIn(d) == PageIn(c)) && (OwnBooks(c) ==> OwnBooks(d))
  }

  /** A call that moves on to a point where it holds no page of its own. */
  lemma PlainKeeps(c: Call, d: Call)
    requires d == c.(pc := d.pc) && !d.pc.Answered? && !IsOwn(d.pc)
    ensures KeepsPage(c, d)
  {
  }

  /** ... or that goes on with its own entry. */
  lemma OwnKeeps(c: Call, d: Call)
    requires d == c.(pc := d.pc) && IsOwn(c.pc) && IsOwn(d.pc) && d.pc.entry == c.pc.entry
    ensures KeepsPage(c, d)
  {
  }

  predicate MovesPlainly(s: State, i: nat, t: State) {
    && i < |s.calls| && i < |t.calls| && t.calls[i] == s.calls[i].(pc := t.calls[i].pc)
    && !t.calls[i].pc.Answered? && !IsOwn(t.calls[i].pc)
  }

  lemma MovedPlainly(s: State, r: State, i: nat, pc: Pc, t: State)
    requires i < |s.calls| && r.calls == s.calls && t == Move(r, i, pc) && !pc.Answered? && !IsOwn(pc)
    ensures MovesPlainly(s, i, t)
  {
  }

  lemma CountingPlainly(s: State, i: nat, a: Action, t: State)
    requires CallStep(s, i, a, t) && (a.Arrive? || a.CountError?)
    ensures MovesPlainly(s, i, t)
  {
  }

  lemma WaitingPlainly(s: State, i: nat, a: Action, t: State)
    requires CallStep(s, i, a, t) && (a.Refuse? || a.GiveUp? || a.Acquire?)
    ensures MovesPlainly(s, i, t)
  {
  }

  lemma LocalPlainly(s: State, i: nat, t: State)
    requires StepReadLocal(s, i, t)
    ensures MovesPlainly(s, i, t)
  {
    var k := KeyAt(s, i);
    if k in s.local { MovedPlainly(s, s, i, Finishing(Read(s.local[k], k), Local), t); }
    else { MovedPlainly(s, s, i, if s.bucket then ReadingRemote else Missing, t); }
  }

  lemma RemotePlainly(s: State, i: nat, t: State)
    requires StepReadRemote(s, i, t)
    ensures MovesPlainly(s, i, t)
  {
    var k := KeyAt(s, i);
    if k in s.remote { MovedPlainly(s, s, i, Copying(Read(s.remote[k], k)), t); }
    else { MovedPlainly(s, s, i, Missing, t); }
  }

  lemma CopyPlainly(s: State, i: nat, t: State)
    requires StepCopy(s, i, t)
    ensures MovesPlainly(s, i, t)
  {
  }

  lemma ReservePlainly(s: State, i: nat, t: State)
    requires StepReserve(s, i, t)
    ensures MovesPlainly(s, i, t)
  {
  }

  lemma SkipPlainly(s: State, i: nat, t: State)
    requires StepSkip(s, i, t)
    ensures MovesPlainly(s, i, t)
  {
  }

  lemma RaisingPlainly(s: State, i: nat, a: Action, t: State)
    requires CallStep(s, i, a, t) && (a.Fail? || a.PutThenFail?)
    ensures MovesPlainly(s, i, t)
  {
  }

  lemma BindKeeps(s: State, i: nat, key: Key, t: State)
    requires StepBind(s, i, key, t) && SpentOk(s.calls[i])
    ensures KeepsPage(s.calls[i], t.calls[i])
  {
  }

  lemma AttemptKeeps(s: State, i: nat, t: State)
    requires StepAttempt(s, i, t)
    ensures KeepsPage(s.calls[i], t.calls[i])
  {
  }

  lemma JudgingKeeps(s: State, i: nat, t: State)
    requires StepJudge(s, i, t) && i < |t.calls|
    ensures KeepsPage(s.calls[i], t.calls[i])
  {
  }

  predicate GoesOnWithOwn(s: State, i: nat, t: State) {
    && i < |s.calls| && i < |t.calls| && t.calls[i] == s.calls[i].(pc := t.calls[i].pc)
    && IsOwn(t.calls[i].pc) && IsOwn(s.calls[i].pc) && t.calls[i].pc.entry == s.calls[i].pc.entry
  }

  lemma StoringGoesOn(s: State, i: nat, a: Action, t: State)
    requires CallStep(s, i, a, t) && (a.PutRemote? || a.Keep?)
    ensures GoesOnWithOwn(s, i, t)
  {
  }

  lemma LeavingGoesOn(s: State, i: nat, a: Action, t: State)
    requires CallStep(s, i, a, t) && (a.Count? || a.Leave?)
    ensures MovesPlainly(s, i, t) || GoesOnWithOwn(s, i, t)
  {
  }

  lemma PlainOrOwn(s: State, i: nat, t: State)
    requires MovesPlainly(s, i, t) || GoesOnWithOwn(s, i, t)
    ensures KeepsPage(s.calls[i], t.calls[i])
  {
    if MovesPlainly(s, i, t) { PlainKeeps(s.calls[i], t.calls[i]); } else { OwnKeeps(s.calls[i], t.calls[i]); }
  }

  /** Every step but an answer keeps what a call holds. */
  lemma StepKeepsPage(s: State, i: nat, a: Action, t: State)
    requires CallStep(s, i, a, t) && !a.Answer? && i < |s.calls| && i < |t.calls| && SpentOk(s.calls[i])
    ensures KeepsPage(s.calls[i], t.calls[i])
  {
    match a
    case Bind(key) => BindKeeps(s, i, key, t);
    case Attempt => AttemptKeeps(s, i, t);
    case Judge => JudgingKeeps(s, i, t);
    case _ => StepGoesOn(s, i, a, t); PlainOrOwn(s, i, t);
  }

  lemma StepGoesOn(s: State, i: nat, a: Action, t: State)
    requires CallStep(s, i, a, t) && !a.Answer? && !a.Bind? && !a.Attempt? && !a.Judge?
    ensures MovesPlainly(s, i, t) || GoesOnWithOwn(s, i, t)
  {
    match a
    case ReadLocal => LocalPlainly(s, i, t);
    case ReadRemote => RemotePlainly(s, i, t);
    case Copy => CopyPlainly(s, i, t);
    case Reserve => ReservePlainly(s, i, t);
    case Skip => SkipPlainly(s, i, t);
    case Fail => RaisingPlainly(s, i, a, t);
    case PutThenFail => RaisingPlainly(s, i, a, t);
    case PutRemote => StoringGoesOn(s, i, a, t);
    case Keep => StoringGoesOn(s, i, a, t);
    case Count => LeavingGoesOn(s, i, a, t);
    case Leave => LeavingGoesOn(s, i, a, t);
    case Arrive => CountingPlainly(s, i, a, t);
    case CountError => CountingPlainly(s, i, a, t);
    case _ => WaitingPlainly(s, i, a, t);
  }

  lemma OthersStay(s: State, i: nat, a: Action, t: State, j: nat)
    requires Inv(s) && CallStep(s, i, a, t) && j < |s.calls|
    ensures i < |s.calls| && |t.calls| == |s.calls| && (j != i ==> t.calls[j] == s.calls[j])
  {
    StepInRange(s, i, a, t);
    assert CallOk(s, i, s.calls[i]);
    CallStepEffect(s, i, a, t);
  }

  // ---- over runs ----

  /** What call `i` holds has been answered to it, and its books are what its answers reported. */
  ghost predicate Traced(s: State, es: seq<Event>, n: nat, i: nat)
    requires i < |s.calls| && n <= |es|
  {
    var c := s.calls[i];
    && OwnBooks(c) && (PageIn(c).Some? ==> Answered(es, n, i, PageIn(c).value.0, PageIn(c).value.1))
    && c.unavailable == UnreportedTo(es, n, i)
    && forall name: string :: Spent(c.spent, name) == ReportedTo(es, n, i, name)
  }

  lemma NoNews(s: State, t: State, es: seq<Event>, n: nat, i: nat)
    requires n < |es| && i < |s.calls| && i < |t.calls| && Traced(s, es, n, i) && KeepsPage(s.calls[i], t.calls[i])
    requires !(es[n].ByCall? && es[n].i == i && es[n].action.Answer?)
    ensures Traced(t, es, n + 1, i)
  {
  }

  lemma NewsHere(s: State, t: State, es: seq<Event>, n: nat, i: nat, reported: map<string, Json>, answer: Answer)
    requires n < |es| && i < |s.calls| && i < |t.calls| && Traced(s, es, n, i)
    requires es[n] == ByCall(i, Action.Answer(reported, answer)) && StepAnswer(s, i, reported, answer, t)
    ensures Traced(t, es, n + 1, i)
  {
    if answer.Success? { assert Answers(es, n, i, answer.page, answer.raw); }
    var c, d := s.calls[i], t.calls[i];
    assert d.spent == AddUsage(c.spent, reported);
  }

  lemma StepTraced(s: State, es: seq<Event>, n: nat, t: State, i: nat)
    requires n < |es| && i < |s.calls| && i < |t.calls| && Inv(s) && Step(s, es[n], t) && Traced(s, es, n, i)
    ensures Traced(t, es, n + 1, i)
  {
    match es[n]
    case ByCall(j, a) =>
      OthersStay(s, j, a, t, i);
      if j != i {
        NoNews(s, t, es, n, i);
      } else if a.Answer? {
        NewsHere(s, t, es, n, i, a.reported, a.answer);
      } else {
        assert CallOk(s, i, s.calls[i]);
        StepKeepsPage(s, i, a, t);
        NoNews(s, t, es, n, i);
      }
    case Touch(_) => NoNews(s, t, es, n, i);
  }

  lemma {:induction false} RunTraced(ss: seq<State>, es: seq<Event>, n: nat, i: nat)
    requires IsRun(ss, es) && n < |ss| && i < |ss[n].calls|
    ensures Traced(ss[n], es, n, i)
  {
    if n == 0 {
      assert ss[0].calls[i] == Call(Idle, None, 0, ZERO_USAGE, 0);
    } else {
      var before := n - 1;
      assert StepAt(ss, es, before);
      RunInv(ss, es, before);
      SameCalls(ss[before], es[before], ss[n]);
      RunTraced(ss, es, before, i);
      StepTraced(ss[before], es, before, ss[n], i);
    }
  }

  lemma SameCalls(s: State, e: Event, t: State)
    requires Inv(s) && Step(s, e, t)
    ensures |t.calls| == |s.calls|
  {
    if e.ByCall? && s.calls != [] { OthersStay(s, e.i, e.action, t, 0); }
  }

  // ---- a fresh page ----

  /**
   * What a call returns as fresh is what the SDK answered it: the page and the usage of one of its
   * own successful answers, unchanged; with the tokens of all its answers, and the number of those
   * that reported none.
   */
  lemma FreshIsTheReply(ss: seq<State>, es: seq<Event>, n: nat, i: nat, e: Entry)
    requires IsRun(ss, es) && n < |ss| && i < |ss[n].calls| && ss[n].calls[i].pc == Returned(e, Fresh)
    ensures exists m :: 0 <= m < n && Answers(es, m, i, e.page, e.raw)
    ensures e.unavailable == Some(UnreportedTo(es, n, i))
    ensures forall name: string :: Spent(e.usage, name) == ReportedTo(es, n, i, name)
  {
    RunTraced(ss, es, n, i);
  }

  // ---- a page found in a cache ----

  /** At event `m` some call with this entry's key was answered with its page and usage. */
  ghost predicate AnsweredFor(ss: seq<State>, es: seq<Event>, m: nat, e: Entry)
    requires m < |es| && m < |ss|
  {
    exists j :: HasKey(ss[m], j) && KeyAt(ss[m], j) == e.key && Answers(es, m, j, e.page, e.raw)
  }

  ghost predicate WasAnswered(ss: seq<State>, es: seq<Event>, n: nat, e: Entry) {
    exists m :: 0 <= m < n && m < |es| && m < |ss| && AnsweredFor(ss, es, m, e)
  }

  lemma EnteringMakes(s: State, i: nat, a: Action, t: State)
    requires CallStep(s, i, a, t) && Enters(a)
    ensures t.made == s.made
  {
  }

  predicate Reads(a: Action) { a.ReadLocal? || a.ReadRemote? || a.Copy? }

  lemma ReadingMakes(s: State, i: nat, a: Action, t: State)
    requires CallStep(s, i, a, t) && Reads(a)
    ensures t.made == s.made
  {
  }

  lemma WorkingMakes(s: State, i: nat, a: Action, t: State)
    requires CallStep(s, i, a, t) && !a.Judge? && !Enters(a) && !Reads(a) && !Finishes(a)
    ensures t.made == s.made
  {
  }

  lemma FinishingMakes(s: State, i: nat, a: Action, t: State)
    requires CallStep(s, i, a, t) && Finishes(a)
    ensures t.made == s.made
  {
  }

  lemma JudgeMakes(s: State, i: nat, t: State, e: Entry)
    requires StepJudge(s, i, t) && e in t.made && e !in s.made
    ensures i < |s.calls| && HasKey(s, i) && e.key == KeyAt(s, i) && PageIn(s.calls[i]) == Some((e.page, e.raw))
  {
  }

  lemma StepMakes(s: State, ev: Event, t: State, e: Entry)
    requires Step(s, ev, t) && e in t.made && e !in s.made
    ensures ev.ByCall? && HasKey(s, ev.i) && e.key == KeyAt(s, ev.i) && PageIn(s.calls[ev.i]) == Some((e.page, e.raw))
  {
    if ev.ByCall? {
      if ev.action.Judge? { JudgeMakes(s, ev.i, t, e); }
      else if Finishes(ev.action) { FinishingMakes(s, ev.i, ev.action, t); }
      else if Enters(ev.action) { EnteringMakes(s, ev.i, ev.action, t); }
      else if Reads(ev.action) { ReadingMakes(s, ev.i, ev.action, t); }
      else { WorkingMakes(s, ev.i, ev.action, t); }
    }
  }

  lemma StepKeepsKey(s: State, e: Event, t: State, i: nat)
    requires Inv(s) && Step(s, e, t) && HasKey(s, i)
    ensures HasKey(t, i) && KeyAt(t, i) == KeyAt(s, i)
  {
    if e.ByCall? {
      OthersStay(s, e.i, e.action, t, i);
      if e.i == i && !e.action.Answer? {
        assert CallOk(s, i, s.calls[i]);
        StepKeepsPage(s, i, e.action, t);
      }
    }
  }

  lemma {:induction false} KeyStays(ss: seq<State>, es: seq<Event>, m: nat, n: nat, i: nat)
    requires IsRun(ss, es) && m <= n < |ss| && HasKey(ss[m], i)
    ensures HasKey(ss[n], i) && KeyAt(ss[n], i) == KeyAt(ss[m], i)
    decreases n
  {
    if m < n {
      var before := n - 1;
      KeyStays(ss, es, m, before, i);
      RunInv(ss, es, before);
      assert StepAt(ss, es, before);
      StepKeepsKey(ss[before], es[before], ss[n], i);
    }
  }

  lemma AnswerHasKey(ss: seq<State>, es: seq<Event>, m: nat, i: nat, page: Page, raw: RawUsage)
    requires IsRun(ss, es) && m < |es| && Answers(es, m, i, page, raw)
    ensures HasKey(ss[m], i)
  {
    assert StepAt(ss, es, m);
  }

  /** Every entry made in a run is what some call with its key was answered. */
  lemma {:induction false} MadeWasAnswered(ss: seq<State>, es: seq<Event>, n: nat, e: Entry)
    requires IsRun(ss, es) && n < |ss| && e in ss[n].made
    ensures e in ss[0].made || WasAnswered(ss, es, n, e)
  {
    if n > 0 {
      var before := n - 1;
      assert StepAt(ss, es, before);
      if e in ss[before].made {
        MadeWasAnswered(ss, es, before, e);
      } else {
        StepMakes(ss[before], es[before], ss[n], e);
        var i := es[before].i;
        RunTraced(ss, es, before, i);
        var m :| 0 <= m < before && m < |es| && Answers(es, m, i, e.page, e.raw);
        AnswerHasKey(ss, es, m, i, e.page, e.raw);
        KeyStays(ss, es, m, before, i);
        assert AnsweredFor(ss, es, m, e);
      }
    }
  }

  /** What a call finds in files nobody else touched was there when the run began, as an entry of an
      earlier build, or is what the SDK answered a call with the same key. */
  lemma HitWasAnswered(ss: seq<State>, es: seq<Event>, n: nat, i: nat, e: Entry, source: Source)
    requires IsRun(ss, es) && n < |ss| && i < |ss[n].calls| && ss[n].calls[i].pc == Returned(e, source)
    requires HasKey(ss[n], i) && KeyAt(ss[n], i) !in ss[n].touched
    ensures e.key == KeyAt(ss[n], i) && (e in ss[0].made || WasAnswered(ss, es, n, e))
  {
    ReturnedWasGenerated(ss, es, n, i);
    MadeWasAnswered(ss, es, n, e);
  }
}
