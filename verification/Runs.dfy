/** Sequences of steps of any system. */
module Runs {

  ghost predicate LeadsBy<S(!new), A(!new)>(step: (S, A, S) -> bool, ss: seq<S>, acts: seq<A>, s: S, s': S) {
    && |ss| == |acts| + 1 && ss[0] == s && ss[|acts|] == s'
    && forall i :: 0 <= i < |acts| ==> StepAt(step, ss, acts, i)
  }

  ghost predicate StepAt<S(!new), A(!new)>(step: (S, A, S) -> bool, ss: seq<S>, acts: seq<A>, i: nat)
    requires i < |acts| && |ss| == |acts| + 1
  {
    step(ss[i], acts[i], ss[i + 1])
  }

  /** Some sequence of steps leads from one state to the other. */
  ghost predicate Leads<S(!new), A(!new)>(step: (S, A, S) -> bool, s: S, s': S) {
    exists ss: seq<S>, acts: seq<A> :: LeadsBy(step, ss, acts, s, s')
  }

  lemma OneStep<S(!new), A(!new)>(step: (S, A, S) -> bool, s: S, a: A, s': S)
    requires step(s, a, s')
    ensures Leads(step, s, s')
  {
    var ss, acts := [s, s'], [a];
    assert forall i :: 0 <= i < |acts| ==> StepAt(step, ss, acts, i);
    assert LeadsBy(step, ss, acts, s, s');
  }

  lemma ThenLeads<S(!new), A(!new)>(step: (S, A, S) -> bool, s: S, m: S, s': S)
    requires Leads(step, s, m) && Leads(step, m, s')
    ensures Leads(step, s, s')
  {
    var ss: seq<S>, acts: seq<A> :| LeadsBy(step, ss, acts, s, m);
    var tt: seq<S>, bb: seq<A> :| LeadsBy(step, tt, bb, m, s');
    var uu, cc := Glued(step, ss, acts, s, m, tt, bb, s');
    assert LeadsBy(step, uu, cc, s, s');
  }

  lemma Glued<S(!new), A(!new)>(step: (S, A, S) -> bool, ss: seq<S>, acts: seq<A>, s: S, m: S, tt: seq<S>, bb: seq<A>, s': S)
    returns (uu: seq<S>, cc: seq<A>)
    requires LeadsBy(step, ss, acts, s, m) && LeadsBy(step, tt, bb, m, s')
    ensures uu == ss[..|acts|] + tt && cc == acts + bb && LeadsBy(step, uu, cc, s, s')
  {
    uu, cc := ss[..|acts|] + tt, acts + bb;
    forall i | 0 <= i < |cc| ensures StepAt(step, uu, cc, i) {
      if i < |acts| {
        assert StepAt(step, ss, acts, i);
        assert uu[i] == ss[i] && uu[i + 1] == ss[i + 1];
      } else {
        assert StepAt(step, tt, bb, i - |acts|);
      }
    }
  }
}
