/** A build whose deadline passes at its first new pair, and so drops a pair that was remembered. */
module DroppedPair {
  import opened Common
  import opened Decisions
  import opened TokenMeter
  import opened ModelRelations
  import opened ModelPass
  import opened Inference
  import C = Composition
  import B = GroupBuild
  import D = Discover

  // ---- three sources that name one requirement ----

  const LINE: string := "REQ-1"

  /** Source `i` with its one file. */
  function SourceOf(i: nat): C.Source {
    C.Source(i, "v", [], [], None, map["a.md" := [LINE]])
  }

  function ThreeSources(): seq<C.Source> { [SourceOf(0), SourceOf(1), SourceOf(2)] }

  function LineOf(i: nat): C.Evidence { C.Evidence(i, "v", "a.md", 1, 1, LINE) }

  function Found(i: nat): D.Occurrence { D.Occurrence(LineOf(i), "shared_requirement", "REQ-1", {}) }

  function ThreeFound(): seq<D.Occurrence> { [Found(0), Found(1), Found(2)] }

  function Claim(i: nat, j: nat): C.Candidate {
    C.Candidate("shared_requirement", "REQ-1", LineOf(i), LineOf(j))
  }

  function ThreeClaims(): seq<C.Candidate> { [Claim(0, 1), Claim(0, 2), Claim(1, 2)] }

  lemma ThreeScanned()
    ensures C.InOrder(ThreeSources()) && D.Scanned(ThreeFound(), ThreeSources())
  {
    var os, sources := ThreeFound(), ThreeSources();
    forall i | 0 <= i < |os| ensures D.ScannedAt(os, i, sources) {
      D.LineQuoted(sources[i], "a.md", LINE);
      assert D.LineOf(sources[i], "a.md", 1, os[i].evidence);
    }
  }

  /** The three candidates are those of the index join, and their quotes are in the sources. */
  lemma ClaimsAreJoined()
    ensures forall c :: D.Naive(c, ThreeFound()) <==> c in ThreeClaims()
    ensures B.AllQuoted(ThreeClaims(), ThreeSources())
  {
    var os, cs := ThreeFound(), ThreeClaims();
    ThreeScanned();
    forall c ensures D.Naive(c, os) <==> c in cs {
      assert c == cs[0] ==> D.Joins(os[0], os[1]) && c == D.CandidateOf(os[0], os[1]);
      assert c == cs[1] ==> D.Joins(os[0], os[2]) && c == D.CandidateOf(os[0], os[2]);
      assert c == cs[2] ==> D.Joins(os[1], os[2]) && c == D.CandidateOf(os[1], os[2]);
      if i, j :| 0 <= i < |os| && 0 <= j < |os| && D.Joins(os[i], os[j]) && c == D.CandidateOf(os[i], os[j]) {
        assert c == Claim(i, j);
      }
    }
    D.JoinedIsQuoted(cs, [], os, ThreeSources());
  }

  // ---- the pass over their pairs ----

  function ThreeKeys(): seq<PairKey> { [PairKey(0, 1), PairKey(0, 2), PairKey(1, 2)] }

  lemma BothEmpty(a: seq<PairKey>, b: seq<PairKey>)
    requires forall key :: key in a <==> key in b
    ensures a == [] <==> b == []
  {
    if a != [] { assert a[0] in a; }
    if b != [] { assert b[0] in b; }
  }

  lemma SameFirst(a: seq<PairKey>, b: seq<PairKey>)
    requires InKeyOrder(a) && InKeyOrder(b) && (forall key :: key in a <==> key in b) && a != [] && b != []
    ensures a[0] == b[0]
  {
    assert a[0] in b && b[0] in a;
    var i :| 0 <= i < |a| && a[i] == b[0];
    var j :| 0 <= j < |b| && b[j] == a[0];
  }

  /** Keys in order are determined by which keys there are. */
  lemma {:induction false} OneOrder(a: seq<PairKey>, b: seq<PairKey>)
    requires InKeyOrder(a) && InKeyOrder(b) && forall key :: key in a <==> key in b
    ensures a == b
  {
    BothEmpty(a, b);
    if a != [] {
      SameFirst(a, b);
      RestSame(a, b);
      OneOrder(a[1..], b[1..]);
      assert a == [a[0]] + a[1..] && b == [b[0]] + b[1..];
    }
  }

  lemma RestSame(a: seq<PairKey>, b: seq<PairKey>)
    requires InKeyOrder(a) && InKeyOrder(b) && (forall key :: key in a <==> key in b) && a != [] && b != [] && a[0] == b[0]
    ensures forall key :: key in a[1..] <==> key in b[1..]
  {
    forall key ensures key in a[1..] <==> key in b[1..] {
      RestHolds(a, key);
      RestHolds(b, key);
    }
  }

  lemma RestHolds(a: seq<PairKey>, key: PairKey)
    requires InKeyOrder(a) && a != []
    ensures key in a[1..] <==> key in a && key != a[0]
  {
    assert a == [a[0]] + a[1..];
  }

  lemma ClaimBetween(key: PairKey)
    ensures Between(ThreeClaims(), 3, key)
            == if key == PairKey(0, 1) then [Claim(0, 1)]
               else if key == PairKey(0, 2) then [Claim(0, 2)]
               else if key == PairKey(1, 2) then [Claim(1, 2)] else []
  {
    var cs := ThreeClaims();
    assert Between(cs, 0, key) == [];
    assert Between(cs, 1, key) == if key == PairKey(0, 1) then [Claim(0, 1)] else [];
    assert Between(cs, 2, key) == Between(cs, 1, key) + if key == PairKey(0, 2) then [Claim(0, 2)] else [];
  }

  lemma ClaimKey(keys: seq<PairKey>, groups: map<PairKey, seq<C.Candidate>>, key: PairKey)
    requires PairedUp(ThreeClaims(), 3, keys, groups)
    ensures key in keys <==> key in ThreeKeys()
    ensures key in keys ==> groups[key] == Between(ThreeClaims(), 3, key)
  {
    var cs, all := ThreeClaims(), ThreeKeys();
    ClaimBetween(key);
    if key in groups { assert GroupAt(cs, 3, groups, key); }
    if key == all[0] { assert PairOf(cs[0]) == key; }
    else if key == all[1] { assert PairOf(cs[1]) == key; }
    else if key == all[2] { assert PairOf(cs[2]) == key; }
  }

  lemma ClaimsPairUp(keys: seq<PairKey>, groups: map<PairKey, seq<C.Candidate>>)
    requires PairedUp(ThreeClaims(), 3, keys, groups)
    ensures keys == ThreeKeys() && forall k :: 0 <= k < 3 ==> groups[keys[k]] == [ThreeClaims()[k]]
  {
    forall key ensures key in keys <==> key in ThreeKeys() { ClaimKey(keys, groups, key); }
    OneOrder(keys, ThreeKeys());
    forall k | 0 <= k < 3 ensures groups[keys[k]] == [ThreeClaims()[k]] {
      ClaimKey(keys, groups, keys[k]);
      ClaimBetween(keys[k]);
    }
  }

  /** The pair of one claim, as it is offered. */
  function ClaimPair(i: nat, j: nat, n: Naming, w: Prompts): Pair {
    PairFor(PairKey(i, j), [Claim(i, j)], n, w)
  }

  lemma ClaimPairOk(i: nat, j: nat, n: Naming, w: Prompts)
    requires Claim(i, j) in ThreeClaims() && IdsTell(ThreeClaims(), n)
    ensures PairOk(ClaimPair(i, j, n, w)) && |ClaimPair(i, j, n, w).sizes| == 1
  {
    PairForOk(PairKey(i, j), [Claim(i, j)], n, w);
  }

  lemma ClaimPairsAre(keys: seq<PairKey>, groups: map<PairKey, seq<C.Candidate>>, n: Naming, w: Prompts)
    requires PairedUp(ThreeClaims(), 3, keys, groups)
    ensures PairsFor(keys, groups, n, w) == [ClaimPair(0, 1, n, w), ClaimPair(0, 2, n, w), ClaimPair(1, 2, n, w)]
  {
    ClaimsPairUp(keys, groups);
  }

  /** The pair of sources 0 and 2 as the only one remembered. */
  function OneRemembered(n: Naming, w: Prompts, ds: seq<Decision>): map<CacheKey, Entry> {
    map[KeyOf(ClaimPair(0, 2, n, w)) := Stored(ClaimPair(0, 2, n, w), ds)]
  }

  lemma OnlyOneRemembered(n: Naming, w: Prompts, ds: seq<Decision>)
    requires IdsTell(ThreeClaims(), n) && Judging(ds, ClaimPair(0, 2, n, w).offers, 1)
    ensures Remembered(OneRemembered(n, w, ds), ClaimPair(0, 2, n, w)) == Some(ds)
    ensures Remembered(OneRemembered(n, w, ds), ClaimPair(0, 1, n, w)).None?
  {
    ClaimPairOk(0, 2, n, w);
    CachedPairReplays(ClaimPair(0, 2, n, w), ds);
    PairsTell([Claim(0, 1)], [Claim(0, 2)], ThreeClaims(), n, PairKey(0, 1), PairKey(0, 2), w);
  }

  /** When the first pair is new and the deadline passes before its first call, nothing is kept. */
  lemma NothingKept(cache: map<CacheKey, Entry>, t: seq<Visit>, s: Setting, log: seq<Call>)
    requires Pass(t, s, log) && CacheExact(cache, t, s, log) && s.available
    requires s.pairs != [] && s.pairs[0].sizes != [] && Remembered(s.memory, s.pairs[0]).None?
    requires s.clock(s.start) && !s.clock(s.start + 1)
    ensures cache == map[]
  {
    ReachedIffGoesOn(t, s, log, 0);
    DeadlineDropsRest(cache, t, s, log, 0);
    assert forall key :: key !in cache;
  }

  /** A pass over the three pairs. */
  method PassOverClaims(m: Meter, memory: map<CacheKey, Entry>, n: Naming, w: Prompts)
    returns (cache: map<CacheKey, Entry>, ghost t: seq<Visit>, ghost s: Setting)
    requires m.Open() && IdsTell(ThreeClaims(), n)
    modifies m
    ensures Pass(t, s, m.log) && CacheExact(cache, t, s, m.log)
    ensures s.pairs == [ClaimPair(0, 1, n, w), ClaimPair(0, 2, n, w), ClaimPair(1, 2, n, w)]
    ensures s.memory == memory && s.available && s.clock == m.clock && s.start == old(m.ticks)
  {
    var keys, groups := PairUp(ThreeClaims());
    ClaimPairsAre(keys, groups, n, w);
    var es;
    cache, es, t, s := PassOver(ThreeClaims(), m, memory, true, keys, groups, n, w);
  }

  /**
   * Sources 0, 1 and 2 name one requirement. The pair of 0 and 2 is remembered, with any judgments
   * an earlier build may have stored; the pair of 0 and 1, which comes first, is new. The deadline
   * passes between the look before that pair and the look before its call: whatever the prompts
   * reserve and the model would answer, the new cache is empty.
   */
  method DropsRememberedPair(n: Naming, w: Prompts, replies: nat -> Reply, ds: seq<Decision>)
    returns (memory: map<CacheKey, Entry>, cache: map<CacheKey, Entry>)
    requires IdsTell(ThreeClaims(), n) && Judging(ds, ClaimPair(0, 2, n, w).offers, 1)
    ensures Remembered(memory, ClaimPair(0, 2, n, w)) == Some(ds) && cache == map[]
  {
    memory := OneRemembered(n, w, ds);
    OnlyOneRemembered(n, w, ds);
    ClaimPairOk(0, 1, n, w);
    var m := new Meter(tick => tick == 0, replies, {});
    ghost var t, s;
    cache, t, s := PassOverClaims(m, memory, n, w);
    NothingKept(cache, t, s, m.log);
  }
}
