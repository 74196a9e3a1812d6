/** Finding candidates: an index join over line occurrences that stands in for comparing all pairs. */
module Discover {
  import opened Common
  import opened Composition
  import opened GroupBuild

  /** A feature found on a line, with the line as evidence and the host names it hints at. */
  datatype Occurrence = Occurrence(evidence: Evidence, relation: string, feature: string, hints: set<string>)

  datatype Key = Key(relation: string, feature: string)

  function KeyOf(o: Occurrence): Key { Key(o.relation, o.feature) }

  /** Hints clash only when both lines give some and share none. */
  predicate Compatible(a: set<string>, b: set<string>) {
    a == {} || b == {} || a * b != {}
  }

  /** The naive comparison: same feature, different sources (in id order), no clash of hosts. */
  predicate Joins(a: Occurrence, b: Occurrence) {
    KeyOf(a) == KeyOf(b) && a.evidence.source < b.evidence.source && Compatible(a.hints, b.hints)
  }

  function CandidateOf(a: Occurrence, b: Occurrence): Candidate {
    Candidate(a.relation, a.feature, a.evidence, b.evidence)
  }

  /** The candidate comes from some pair of the occurrences. */
  ghost predicate Naive(c: Candidate, os: seq<Occurrence>) {
    exists i, j :: 0 <= i < |os| && 0 <= j < |os| && Joins(os[i], os[j]) && c == CandidateOf(os[i], os[j])
  }

  /** A naive candidate: two lines of different sources, the lower id first, on which the same feature was
      found for the same relation, and whose host names, if both give some, have one in common. */
  lemma NaiveMeans(c: Candidate, os: seq<Occurrence>)
    ensures Naive(c, os) <==> exists i, j :: 0 <= i < |os| && 0 <= j < |os| && IsPair(c, os[i], os[j])
  {
    if i, j :| 0 <= i < |os| && 0 <= j < |os| && IsPair(c, os[i], os[j]) { PairMeans(c, os[i], os[j]); }
    if i, j :| 0 <= i < |os| && 0 <= j < |os| && Joins(os[i], os[j]) && c == CandidateOf(os[i], os[j]) {
      PairMeans(c, os[i], os[j]);
    }
  }

  lemma PairMeans(c: Candidate, a: Occurrence, b: Occurrence)
    ensures IsPair(c, a, b) <==> Joins(a, b) && c == CandidateOf(a, b)
  {
    if h :| h in a.hints && h in b.hints { assert h in a.hints * b.hints; }
    if a.hints * b.hints != {} {
      var h :| h in a.hints * b.hints;
      assert h in a.hints && h in b.hints;
    }
  }

  predicate IsPair(c: Candidate, a: Occurrence, b: Occurrence) {
    && a.relation == b.relation == c.relation && a.feature == b.feature == c.signal
    && a.evidence == c.left && b.evidence == c.right && a.evidence.source < b.evidence.source
    && (a.hints == {} || b.hints == {} || exists h :: h in a.hints && h in b.hints)
  }

  /** Only old candidates and pairs of these occurrences are in the table. */
  ghost predicate Sound(now: seq<Candidate>, before: seq<Candidate>, os: seq<Occurrence>) {
    && before <= now
    && forall i :: |before| <= i < |now| ==> Naive(now[i], os)
  }

  /** Every pair of these occurrences is in the table. */
  ghost predicate Complete(now: seq<Candidate>, os: seq<Occurrence>) {
    forall i, j :: 0 <= i < |os| && 0 <= j < |os| && Joins(os[i], os[j]) ==> CandidateOf(os[i], os[j]) in now
  }

  lemma SoundTwice(a: seq<Candidate>, b: seq<Candidate>, c: seq<Candidate>, os: seq<Occurrence>)
    requires Sound(b, a, os) && Sound(c, b, os)
    ensures Sound(c, a, os)
  {
    forall i | |a| <= i < |c| ensures Naive(c[i], os) {
      if i < |b| { assert c[i] == b[i]; }
    }
  }

  // ---- one pair of groups ----

  /** All lines of one source against all lines of another, for one feature. */
  predicate Opposed(ls: seq<Occurrence>, rs: seq<Occurrence>, os: seq<Occurrence>) {
    && (forall i :: 0 <= i < |ls| ==> ls[i] in os)
    && (forall j :: 0 <= j < |rs| ==> rs[j] in os)
    && (forall i, j :: 0 <= i < |ls| && 0 <= j < |rs| ==>
         KeyOf(ls[i]) == KeyOf(rs[j]) && ls[i].evidence.source < rs[j].evidence.source)
  }

  ghost predicate CrossDone(now: seq<Candidate>, ls: seq<Occurrence>, rs: seq<Occurrence>, k: nat)
    requires k <= |ls|
  {
    forall i, j :: 0 <= i < k && 0 <= j < |rs| && Compatible(ls[i].hints, rs[j].hints) ==> CandidateOf(ls[i], rs[j]) in now
  }

  ghost predicate LineDone(now: seq<Candidate>, l: Occurrence, rs: seq<Occurrence>, k: nat)
    requires k <= |rs|
  {
    forall j :: 0 <= j < k && Compatible(l.hints, rs[j].hints) ==> CandidateOf(l, rs[j]) in now
  }

  lemma PairIsNaive(l: Occurrence, r: Occurrence, os: seq<Occurrence>)
    requires l in os && r in os && Joins(l, r)
    ensures Naive(CandidateOf(l, r), os)
  {
  }

  /** One comparison; `clock` answers the deadline checks of the join in turn. */
  method Compare(b: Build, clock: nat -> bool, l: Occurrence, r: Occurrence, count: nat, ghost os: seq<Occurrence>) returns (go: bool)
    requires CandidatesOk(b.candidates) && l in os && r in os
    requires KeyOf(l) == KeyOf(r) && l.evidence.source < r.evidence.source
    modifies b`candidates, b`partial
    ensures CandidatesOk(b.candidates) && Sound(b.candidates, old(b.candidates), os)
    ensures go ==> (Compatible(l.hints, r.hints) ==> CandidateOf(l, r) in b.candidates)
    ensures go ==> count < 16_000 && clock(count)
    ensures !go ==> count >= 16_000 || !clock(count) || |b.candidates| == 1_000
    ensures !go ==> CandidateLimit in b.partial || ComparisonLimit in b.partial || DeadlineExceeded in b.partial
  {
    if count >= MAX_COMPARISONS {
      b.Partial(ComparisonLimit);
      return false;
    }
    if !clock(count) {
      b.Partial(DeadlineExceeded);
      return false;
    }
    if !Compatible(l.hints, r.hints) { return true; }
    PairIsNaive(l, r, os);
    go := b.Propose(l.relation, l.evidence, r.evidence, l.feature);
  }

  /** Why a join stops early. */
  ghost predicate Limited(b: Build, clock: nat -> bool, count: nat)
    reads b
  {
    && (count >= 16_000 || !clock(count) || |b.candidates| == 1_000)
    && (CandidateLimit in b.partial || ComparisonLimit in b.partial || DeadlineExceeded in b.partial)
  }

  method CompareLine(b: Build, clock: nat -> bool, l: Occurrence, rs: seq<Occurrence>, start: nat, ghost os: seq<Occurrence>)
    returns (go: bool, count: nat)
    requires CandidatesOk(b.candidates) && Opposed([l], rs, os)
    modifies b`candidates, b`partial
    ensures CandidatesOk(b.candidates) && Sound(b.candidates, old(b.candidates), os)
    ensures go ==> LineDone(b.candidates, l, rs, |rs|) && count == start + |rs|
    ensures start <= count && (start <= MAX_COMPARISONS ==> count <= MAX_COMPARISONS)
    ensures !go ==> Limited(b, clock, count)
  {
    var j := 0;
    count := start;
    while j < |rs|
      invariant 0 <= j <= |rs| && count == start + j && (start <= MAX_COMPARISONS ==> count <= MAX_COMPARISONS)
      invariant CandidatesOk(b.candidates) && Sound(b.candidates, old(b.candidates), os)
      invariant LineDone(b.candidates, l, rs, j)
    {
      ghost var before := b.candidates;
      assert [l][0] == l;
      go := Compare(b, clock, l, rs[j], count, os);
      SoundTwice(old(b.candidates), before, b.candidates, os);
      if !go { return false, count; }
      j, count := j + 1, count + 1;
    }
    return true, count;
  }

  method CompareGroups(b: Build, clock: nat -> bool, ls: seq<Occurrence>, rs: seq<Occurrence>, start: nat, ghost os: seq<Occurrence>)
    returns (go: bool, count: nat)
    requires CandidatesOk(b.candidates) && Opposed(ls, rs, os)
    modifies b`candidates, b`partial
    ensures CandidatesOk(b.candidates) && Sound(b.candidates, old(b.candidates), os)
    ensures go ==> CrossDone(b.candidates, ls, rs, |ls|)
    ensures start <= count && (start <= MAX_COMPARISONS ==> count <= MAX_COMPARISONS)
    ensures !go ==> Limited(b, clock, count)
  {
    var i := 0;
    count := start;
    while i < |ls|
      invariant 0 <= i <= |ls| && start <= count && (start <= MAX_COMPARISONS ==> count <= MAX_COMPARISONS)
      invariant CandidatesOk(b.candidates) && Sound(b.candidates, old(b.candidates), os)
      invariant CrossDone(b.candidates, ls, rs, i)
    {
      ghost var before := b.candidates;
      go, count := CompareLine(b, clock, ls[i], rs, count, os);
      SoundTwice(old(b.candidates), before, b.candidates, os);
      if !go { return false, count; }
      i := i + 1;
    }
    return true, count;
  }

  // ---- one feature ----

  predicate Ascending(ids: seq<SourceId>) {
    forall i, j :: 0 <= i < j < |ids| ==> ids[i] < ids[j]
  }

  /** The occurrences of a feature by source, every one under its own source and no other. */
  ghost predicate Groups(grouped: map<SourceId, seq<Occurrence>>, os: seq<Occurrence>, k: nat)
    requires k <= |os|
  {
    && (forall s, i :: s in grouped && 0 <= i < |grouped[s]| ==> grouped[s][i] in os && grouped[s][i].evidence.source == s)
    && (forall i :: 0 <= i < k ==> os[i].evidence.source in grouped && os[i] in grouped[os[i].evidence.source])
  }

  /** A source id put in its place in an ascending list. */
  function Insert(ids: seq<SourceId>, id: SourceId): (r: seq<SourceId>)
    requires Ascending(ids)
    ensures Ascending(r) && forall s :: s in r <==> s in ids || s == id
    ensures ids != [] && r != [] ==> r[0] == ids[0] || r[0] == id
  {
    if ids == [] then [id]
    else if id < ids[0] then [id] + ids
    else if id == ids[0] then ids
    else
      var rest := Insert(ids[1..], id);
      assert forall s :: s in rest ==> s in ids[1..] || s == id;
      assert ids == [ids[0]] + ids[1..];
      [ids[0]] + rest
  }

  lemma GroupsNext(grouped: map<SourceId, seq<Occurrence>>, os: seq<Occurrence>, k: nat)
    requires k < |os| && Groups(grouped, os, k)
    ensures var s := os[k].evidence.source;
      Groups(grouped[s := (if s in grouped then grouped[s] else []) + [os[k]]], os, k + 1)
  {
    var s := os[k].evidence.source;
    var group := if s in grouped then grouped[s] else [];
    assert (group + [os[k]])[|group|] == os[k];
  }

  method GroupBySource(os: seq<Occurrence>) returns (grouped: map<SourceId, seq<Occurrence>>, ids: seq<SourceId>)
    ensures Groups(grouped, os, |os|)
    ensures Ascending(ids) && forall s :: s in ids <==> s in grouped
  {
    grouped, ids := map[], [];
    var k := 0;
    while k < |os|
      invariant 0 <= k <= |os| && Groups(grouped, os, k)
      invariant Ascending(ids) && forall s :: s in ids <==> s in grouped
    {
      GroupsNext(grouped, os, k);
      var s := os[k].evidence.source;
      grouped := grouped[s := (if s in grouped then grouped[s] else []) + [os[k]]];
      ids := Insert(ids, s);
      k := k + 1;
    }
  }

  /** The groups of two sources have been compared in full. */
  ghost predicate PairDone(now: seq<Candidate>, grouped: map<SourceId, seq<Occurrence>>, s: SourceId, t: SourceId) {
    s in grouped && t in grouped && CrossDone(now, grouped[s], grouped[t], |grouped[s]|)
  }

  lemma PairDoneLater(now: seq<Candidate>, later: seq<Candidate>, grouped: map<SourceId, seq<Occurrence>>, s: SourceId, t: SourceId)
    requires PairDone(now, grouped, s, t) && now <= later
    ensures PairDone(later, grouped, s, t)
  {
  }

  lemma AllPairsComplete(now: seq<Candidate>, grouped: map<SourceId, seq<Occurrence>>, ids: seq<SourceId>, os: seq<Occurrence>)
    requires Groups(grouped, os, |os|) && Ascending(ids) && forall s :: s in ids <==> s in grouped
    requires forall p, q :: 0 <= p < q < |ids| ==> PairDone(now, grouped, ids[p], ids[q])
    ensures Complete(now, os)
  {
    forall i, j | 0 <= i < |os| && 0 <= j < |os| && Joins(os[i], os[j]) ensures CandidateOf(os[i], os[j]) in now {
      var s, t := os[i].evidence.source, os[j].evidence.source;
      var p :| 0 <= p < |ids| && ids[p] == s;
      var q :| 0 <= q < |ids| && ids[q] == t;
      assert p < q;
      assert PairDone(now, grouped, ids[p], ids[q]);
      var x :| 0 <= x < |grouped[s]| && grouped[s][x] == os[i];
      var y :| 0 <= y < |grouped[t]| && grouped[t][y] == os[j];
    }
  }

  lemma GroupsOppose(grouped: map<SourceId, seq<Occurrence>>, os: seq<Occurrence>, s: SourceId, t: SourceId)
    requires Groups(grouped, os, |os|) && s in grouped && t in grouped && s < t
    requires forall i, j :: 0 <= i < |os| && 0 <= j < |os| ==> KeyOf(os[i]) == KeyOf(os[j])
    ensures Opposed(grouped[s], grouped[t], os)
  {
    var ls, rs := grouped[s], grouped[t];
    forall i, j | 0 <= i < |ls| && 0 <= j < |rs|
      ensures KeyOf(ls[i]) == KeyOf(rs[j]) && ls[i].evidence.source < rs[j].evidence.source
    {
      assert ls[i] in os && rs[j] in os;
    }
  }

  /** One source of a feature against every later one. */
  method JoinSource(b: Build, clock: nat -> bool, grouped: map<SourceId, seq<Occurrence>>, ids: seq<SourceId>, i: nat, start: nat, ghost os: seq<Occurrence>)
    returns (go: bool, count: nat)
    requires CandidatesOk(b.candidates) && Groups(grouped, os, |os|) && Ascending(ids) && i < |ids|
    requires forall s :: s in ids ==> s in grouped
    requires forall i, j :: 0 <= i < |os| && 0 <= j < |os| ==> KeyOf(os[i]) == KeyOf(os[j])
    modifies b`candidates, b`partial
    ensures CandidatesOk(b.candidates) && Sound(b.candidates, old(b.candidates), os)
    ensures go ==> forall q :: i < q < |ids| ==> PairDone(b.candidates, grouped, ids[i], ids[q])
    ensures start <= count && (start <= MAX_COMPARISONS ==> count <= MAX_COMPARISONS)
    ensures !go ==> Limited(b, clock, count)
  {
    var j := i + 1;
    count := start;
    while j < |ids|
      invariant i < j <= |ids| && start <= count && (start <= MAX_COMPARISONS ==> count <= MAX_COMPARISONS)
      invariant CandidatesOk(b.candidates) && Sound(b.candidates, old(b.candidates), os)
      invariant forall q :: i < q < j ==> PairDone(b.candidates, grouped, ids[i], ids[q])
    {
      ghost var before := b.candidates;
      assert ids[i] in ids && ids[j] in ids;
      GroupsOppose(grouped, os, ids[i], ids[j]);
      go, count := CompareGroups(b, clock, grouped[ids[i]], grouped[ids[j]], count, os);
      SoundTwice(old(b.candidates), before, b.candidates, os);
      if !go { return false, count; }
      forall q | i < q < j ensures PairDone(b.candidates, grouped, ids[i], ids[q]) {
        PairDoneLater(before, b.candidates, grouped, ids[i], ids[q]);
      }
      j := j + 1;
    }
    return true, count;
  }

  /** All pairs of one feature. */
  method JoinFeature(b: Build, clock: nat -> bool, os: seq<Occurrence>, start: nat) returns (go: bool, count: nat)
    requires CandidatesOk(b.candidates)
    requires forall i, j :: 0 <= i < |os| && 0 <= j < |os| ==> KeyOf(os[i]) == KeyOf(os[j])
    modifies b`candidates, b`partial
    ensures CandidatesOk(b.candidates) && Sound(b.candidates, old(b.candidates), os)
    ensures go ==> Complete(b.candidates, os)
    ensures start <= count && (start <= MAX_COMPARISONS ==> count <= MAX_COMPARISONS)
    ensures !go ==> Limited(b, clock, count)
  {
    var grouped, ids := GroupBySource(os);
    var i := 0;
    count := start;
    while i < |ids|
      invariant 0 <= i <= |ids| && start <= count && (start <= MAX_COMPARISONS ==> count <= MAX_COMPARISONS)
      invariant CandidatesOk(b.candidates) && Sound(b.candidates, old(b.candidates), os)
      invariant forall p, q :: 0 <= p < i && p < q < |ids| ==> PairDone(b.candidates, grouped, ids[p], ids[q])
    {
      ghost var before := b.candidates;
      go, count := JoinSource(b, clock, grouped, ids, i, count, os);
      SoundTwice(old(b.candidates), before, b.candidates, os);
      if !go { return false, count; }
      forall p, q | 0 <= p < i && p < q < |ids| ensures PairDone(b.candidates, grouped, ids[p], ids[q]) {
        PairDoneLater(before, b.candidates, grouped, ids[p], ids[q]);
      }
      i := i + 1;
    }
    AllPairsComplete(b.candidates, grouped, ids, os);
    return true, count;
  }

  // ---- all features ----

  /** The occurrences of one feature among the first `k`, in order of the scan. */
  function Select(os: seq<Occurrence>, k: nat, key: Key): seq<Occurrence>
    requires k <= |os|
  {
    if k == 0 then [] else Select(os, k - 1, key) + if KeyOf(os[k - 1]) == key then [os[k - 1]] else []
  }

  lemma {:induction false} SelectMeans(os: seq<Occurrence>, k: nat, key: Key)
    requires k <= |os|
    ensures forall o :: o in Select(os, k, key) ==> o in os && KeyOf(o) == key
    ensures forall i :: 0 <= i < k && KeyOf(os[i]) == key ==> os[i] in Select(os, k, key)
  {
    if k > 0 { SelectMeans(os, k - 1, key); }
  }

  function Under(index: map<Key, seq<Occurrence>>, key: Key): seq<Occurrence> {
    if key in index then index[key] else []
  }

  /** The index once an occurrence is filed under its feature. */
  function Filed(index: map<Key, seq<Occurrence>>, o: Occurrence): map<Key, seq<Occurrence>> {
    index[KeyOf(o) := Under(index, KeyOf(o)) + [o]]
  }

  ghost predicate Indexes(index: map<Key, seq<Occurrence>>, os: seq<Occurrence>, k: nat)
    requires k <= |os|
  {
    forall key :: Under(index, key) == Select(os, k, key)
  }

  lemma IndexesNext(index: map<Key, seq<Occurrence>>, os: seq<Occurrence>, k: nat)
    requires k < |os| && Indexes(index, os, k)
    ensures Indexes(Filed(index, os[k]), os, k + 1)
  {
    forall key ensures Under(Filed(index, os[k]), key) == Select(os, k + 1, key) {
      assert Under(index, key) == Select(os, k, key);
    }
  }

  method File(index: map<Key, seq<Occurrence>>, os: seq<Occurrence>, k: nat) returns (filed: map<Key, seq<Occurrence>>)
    requires k < |os| && Indexes(index, os, k)
    ensures Indexes(filed, os, k + 1)
  {
    IndexesNext(index, os, k);
    filed := Filed(index, os[k]);
  }

  /** Files every occurrence under its feature. */
  method Index(os: seq<Occurrence>) returns (index: map<Key, seq<Occurrence>>)
    ensures Indexes(index, os, |os|)
  {
    var k := 0;
    index := map[];
    assert Indexes(index, os, k);
    while k < |os|
      invariant 0 <= k <= |os| && Indexes(index, os, k)
    {
      index := File(index, os, k);
      k := k + 1;
    }
  }

  lemma SelectedIsNaive(c: Candidate, os: seq<Occurrence>, key: Key)
    requires Naive(c, Select(os, |os|, key))
    ensures Naive(c, os)
  {
    var sel := Select(os, |os|, key);
    var i, j :| 0 <= i < |sel| && 0 <= j < |sel| && Joins(sel[i], sel[j]) && c == CandidateOf(sel[i], sel[j]);
    SelectMeans(os, |os|, key);
    assert sel[i] in os && sel[j] in os;
    PairIsNaive(sel[i], sel[j], os);
  }

  /** The features worked through: all that occur. */
  ghost predicate Enumerates(keys: seq<Key>, os: seq<Occurrence>) {
    forall i :: 0 <= i < |os| ==> KeyOf(os[i]) in keys
  }

  ghost predicate FeaturesDone(now: seq<Candidate>, keys: seq<Key>, k: nat, os: seq<Occurrence>)
    requires k <= |keys|
  {
    forall q :: 0 <= q < k ==> Complete(now, Select(os, |os|, keys[q]))
  }

  lemma CompleteLater(now: seq<Candidate>, later: seq<Candidate>, os: seq<Occurrence>)
    requires Complete(now, os) && now <= later
    ensures Complete(later, os)
  {
  }

  lemma FeaturesDoneLater(now: seq<Candidate>, later: seq<Candidate>, keys: seq<Key>, k: nat, os: seq<Occurrence>)
    requires k <= |keys| && FeaturesDone(now, keys, k, os) && now <= later
    ensures FeaturesDone(later, keys, k, os)
  {
    forall q | 0 <= q < k ensures Complete(later, Select(os, |os|, keys[q])) {
      CompleteLater(now, later, Select(os, |os|, keys[q]));
    }
  }

  lemma FeaturesComplete(now: seq<Candidate>, keys: seq<Key>, os: seq<Occurrence>)
    requires FeaturesDone(now, keys, |keys|, os)
    requires Enumerates(keys, os)
    ensures Complete(now, os)
  {
    forall i, j | 0 <= i < |os| && 0 <= j < |os| && Joins(os[i], os[j]) ensures CandidateOf(os[i], os[j]) in now {
      var q :| 0 <= q < |keys| && keys[q] == KeyOf(os[i]);
      var sel := Select(os, |os|, keys[q]);
      SelectMeans(os, |os|, keys[q]);
      assert os[i] in sel && os[j] in sel;
      var x :| 0 <= x < |sel| && sel[x] == os[i];
      var y :| 0 <= y < |sel| && sel[y] == os[j];
      assert Complete(now, sel);
    }
  }

  lemma SoundInAll(now: seq<Candidate>, before: seq<Candidate>, os: seq<Occurrence>, key: Key)
    requires Sound(now, before, Select(os, |os|, key))
    ensures Sound(now, before, os)
  {
    forall i | |before| <= i < |now| ensures Naive(now[i], os) {
      SelectedIsNaive(now[i], os, key);
    }
  }

  /** One indexed feature. */
  method JoinKey(b: Build, clock: nat -> bool, index: map<Key, seq<Occurrence>>, key: Key, start: nat, ghost os: seq<Occurrence>)
    returns (go: bool, count: nat)
    requires CandidatesOk(b.candidates) && Indexes(index, os, |os|)
    modifies b`candidates, b`partial
    ensures CandidatesOk(b.candidates) && Sound(b.candidates, old(b.candidates), os)
    ensures go ==> Complete(b.candidates, Select(os, |os|, key))
    ensures start <= count && (start <= MAX_COMPARISONS ==> count <= MAX_COMPARISONS)
    ensures !go ==> Limited(b, clock, count)
  {
    assert Under(index, key) == Select(os, |os|, key);
    SelectMeans(os, |os|, key);
    go, count := JoinFeature(b, clock, Under(index, key), start);
    SoundInAll(b.candidates, old(b.candidates), os, key);
  }

  /** Joined so far: nothing but naive candidates, and all of those of the first `k` features. */
  ghost predicate Joined(now: seq<Candidate>, before: seq<Candidate>, keys: seq<Key>, k: nat, os: seq<Occurrence>)
    requires k <= |keys|
  {
    CandidatesOk(now) && Sound(now, before, os) && FeaturesDone(now, keys, k, os)
  }

  method JoinNext(b: Build, clock: nat -> bool, index: map<Key, seq<Occurrence>>, keys: seq<Key>, k: nat, start: nat,
                  ghost before: seq<Candidate>, ghost os: seq<Occurrence>)
    returns (go: bool, count: nat)
    requires k < |keys| && Joined(b.candidates, before, keys, k, os) && Indexes(index, os, |os|)
    modifies b`candidates, b`partial
    ensures CandidatesOk(b.candidates) && Sound(b.candidates, before, os)
    ensures go ==> Joined(b.candidates, before, keys, k + 1, os)
    ensures start <= count && (start <= MAX_COMPARISONS ==> count <= MAX_COMPARISONS)
    ensures !go ==> Limited(b, clock, count)
  {
    go, count := JoinKey(b, clock, index, keys[k], start, os);
    SoundTwice(before, old(b.candidates), b.candidates, os);
    FeaturesDoneLater(old(b.candidates), b.candidates, keys, k, os);
  }

  /**
   * The index join; `keys` lists the indexed features in the order they are worked through. It adds
   * only candidates of the naive all-pairs comparison, and unless it stops at a limit it adds all of
   * them; `count` is the number of comparisons made.
   */
  method Join(b: Build, clock: nat -> bool, os: seq<Occurrence>, keys: seq<Key>) returns (done: bool, count: nat)
    requires CandidatesOk(b.candidates) && Enumerates(keys, os)
    modifies b`candidates, b`partial
    ensures CandidatesOk(b.candidates) && Sound(b.candidates, old(b.candidates), os)
    ensures done ==> Complete(b.candidates, os)
    ensures count <= 16_000
    ensures !done ==> Limited(b, clock, count)
  {
    var index := Index(os);
    var k := 0;
    count := 0;
    while k < |keys|
      invariant count <= MAX_COMPARISONS
      invariant 0 <= k <= |keys| && Joined(b.candidates, old(b.candidates), keys, k, os)
    {
      var go;
      go, count := JoinNext(b, clock, index, keys, k, count, old(b.candidates), os);
      if !go { return false, count; }
      k := k + 1;
    }
    FeaturesComplete(b.candidates, keys, os);
    return true, count;
  }

  /** A join from an empty table that meets no limit finds exactly the naive all-pairs candidates. */
  lemma JoinIsNaive(now: seq<Candidate>, os: seq<Occurrence>, c: Candidate)
    requires Sound(now, [], os) && Complete(now, os)
    ensures c in now <==> Naive(c, os)
  {
  }

  // ---- what is found is quoted from the sources ----

  /** The occurrence is one line of a source of the build. */
  ghost predicate ScannedAt(os: seq<Occurrence>, i: nat, sources: seq<Source>)
    requires i < |os|
  {
    exists k, file, line :: 0 <= k < |sources| && LineOf(sources[k], file, line, os[i].evidence)
  }

  predicate LineOf(s: Source, file: Path, line: int, e: Evidence) {
    file in s.files && Quote(s, file, line, line) == Some(e)
  }

  ghost predicate Scanned(os: seq<Occurrence>, sources: seq<Source>) {
    forall i :: 0 <= i < |os| ==> ScannedAt(os, i, sources)
  }

  lemma ScannedIsValid(os: seq<Occurrence>, i: nat, sources: seq<Source>)
    requires InOrder(sources) && Scanned(os, sources) && i < |os|
    ensures ValidEvidence(os[i].evidence, sources)
  {
    assert ScannedAt(os, i, sources);
    var k, file, line :| 0 <= k < |sources| && LineOf(sources[k], file, line, os[i].evidence);
    QuoteIsValid(sources, k, file, line, line);
  }

  /** So no candidate of the join can fail the evidence check when it is related. */
  lemma JoinedIsQuoted(now: seq<Candidate>, before: seq<Candidate>, os: seq<Occurrence>, sources: seq<Source>)
    requires InOrder(sources) && Scanned(os, sources) && Sound(now, before, os) && AllQuoted(before, sources)
    ensures AllQuoted(now, sources)
  {
    forall i | 0 <= i < |now| ensures ValidEvidence(now[i].left, sources) && ValidEvidence(now[i].right, sources) {
      if i < |before| {
        assert now[i] == before[i];
      } else {
        assert Naive(now[i], os);
        var l, r :| 0 <= l < |os| && 0 <= r < |os| && Joins(os[l], os[r]) && now[i] == CandidateOf(os[l], os[r]);
        ScannedIsValid(os, l, sources);
        ScannedIsValid(os, r, sources);
      }
    }
  }

  // ---- where relation ids repeat ----

  const LINE: string := "REQ-1 REQ-2"

  lemma LineQuoted(s: Source, file: Path, line: string)
    requires file in s.files && s.files[file] == [line] && line != [] && !IsBlank(line[0]) && 4 * |line| <= MAX_QUOTE_BYTES
    ensures LineOf(s, file, 1, Evidence(s.id, s.version, file, 1, 1, line))
  {
    assert s.files[file][0..1] == [line];
    Utf8Bounded(line);
  }

  lemma {:induction false} Utf8Bounded(s: string)
    ensures Utf8Length(s) <= 4 * |s|
  {
    if s != [] { Utf8Bounded(s[1..]); }
  }

  /** Two sources that hold one such line each, and what is found on them. */
  function TwoSources(): seq<Source> {
    [Source(0, "v", [], [], None, map["a.md" := [LINE]]), Source(1, "v", [], [], None, map["b.md" := [LINE]])]
  }

  function LineEvidence(left: bool): Evidence {
    if left then Evidence(0, "v", "a.md", 1, 1, LINE) else Evidence(1, "v", "b.md", 1, 1, LINE)
  }

  function FourOccurrences(): seq<Occurrence> {
    [Occurrence(LineEvidence(true), "shared_requirement", "REQ-1", {}), Occurrence(LineEvidence(true), "shared_requirement", "REQ-2", {}),
     Occurrence(LineEvidence(false), "shared_requirement", "REQ-1", {}), Occurrence(LineEvidence(false), "shared_requirement", "REQ-2", {})]
  }

  function ClaimBy(signal: string): Candidate {
    Candidate("shared_requirement", signal, LineEvidence(true), LineEvidence(false))
  }

  lemma SourcesInOrder()
    ensures InOrder(TwoSources())
  {
  }

  lemma LineIsThere(left: bool)
    ensures var k, file := (if left then 0 else 1), (if left then "a.md" else "b.md");
      LineOf(TwoSources()[k], file, 1, LineEvidence(left))
  {
    if left { LineQuoted(TwoSources()[0], "a.md", LINE); } else { LineQuoted(TwoSources()[1], "b.md", LINE); }
  }

  lemma LineIsValid(left: bool)
    ensures ValidEvidence(LineEvidence(left), TwoSources())
  {
    SourcesInOrder();
    LineIsThere(left);
    QuoteIsValid(TwoSources(), if left then 0 else 1, if left then "a.md" else "b.md", 1, 1);
  }

  lemma LineScanned(os: seq<Occurrence>, i: nat, left: bool)
    requires i < |os| && os[i].evidence == LineEvidence(left)
    ensures ScannedAt(os, i, TwoSources())
  {
    LineIsThere(left);
    var k := if left then 0 else 1;
    assert LineOf(TwoSources()[k], if left then "a.md" else "b.md", 1, os[i].evidence);
  }

  lemma FourScanned()
    ensures Scanned(FourOccurrences(), TwoSources())
  {
    var os := FourOccurrences();
    forall i | 0 <= i < |os| ensures ScannedAt(os, i, TwoSources()) { LineScanned(os, i, i < 2); }
  }

  /** The nodes once the two quotes have been placed, no node being located around them. */
  function TwoAnchors(): seq<GraphNode> {
    [AnchorNode(LineEvidence(true)), AnchorNode(LineEvidence(false))]
  }

  lemma LineLands(left: bool, rank: NodeId -> int)
    ensures LandsOn(TwoAnchors(), LineEvidence(left), AnchorId(LineEvidence(left)), rank)
  {
    var nodes := TwoAnchors();
    assert nodes[if left then 0 else 1] == AnchorNode(LineEvidence(left));
  }

  function ClaimRecord(signal: string): GraphLink {
    Record(AnchorId(LineEvidence(true)), AnchorId(LineEvidence(false)), ClaimBy(signal), Extracted)
  }

  lemma ClaimIsGrounded(signal: string, rank: NodeId -> int)
    ensures Grounded(ClaimRecord(signal), TwoAnchors(), TwoSources(), rank)
  {
    LineIsValid(true);
    LineIsValid(false);
    LineLands(true, rank);
    LineLands(false, rank);
  }

  lemma ClaimIsNaive(first: bool)
    ensures Naive(ClaimBy(if first then "REQ-1" else "REQ-2"), FourOccurrences())
  {
    var os, i := FourOccurrences(), if first then 0 else 1;
    assert Joins(os[i], os[i + 2]) && CandidateOf(os[i], os[i + 2]) == ClaimBy(if first then "REQ-1" else "REQ-2");
  }

  lemma ClaimsDiffer()
    ensures ClaimBy("REQ-1") != ClaimBy("REQ-2") && ClaimRecord("REQ-1") != ClaimRecord("REQ-2")
    ensures ClaimRecord("REQ-1").id == ClaimRecord("REQ-2").id
  {
    assert "REQ-1"[4] != "REQ-2"[4];
  }

  /**
   * Relation ids repeat: two requirements named on the same pair of lines are two candidates of the
   * index join, with valid quotes, and become two distinct grounded relations with one id.
   */
  lemma TwoSignalsOneId(rank: NodeId -> int)
    ensures InOrder(TwoSources()) && Scanned(FourOccurrences(), TwoSources())
    ensures var a, b := ClaimBy("REQ-1"), ClaimBy("REQ-2");
      && a != b && Naive(a, FourOccurrences()) && Naive(b, FourOccurrences())
      && BothPlaced(BothPlaced([], a), b) == TwoAnchors()
    ensures var r, s := ClaimRecord("REQ-1"), ClaimRecord("REQ-2");
      && IsRecord(r, ClaimBy("REQ-1"), Extracted) && Grounded(r, TwoAnchors(), TwoSources(), rank)
      && IsRecord(s, ClaimBy("REQ-2"), Extracted) && Grounded(s, TwoAnchors(), TwoSources(), rank)
      && r != s && r.id == s.id
  {
    SourcesInOrder();
    FourScanned();
    ClaimIsGrounded("REQ-1", rank);
    ClaimIsGrounded("REQ-2", rank);
    ClaimIsNaive(true);
    ClaimIsNaive(false);
    ClaimsDiffer();
    ClaimsPlaced();
  }

  lemma ClaimsPlaced()
    ensures BothPlaced(BothPlaced([], ClaimBy("REQ-1")), ClaimBy("REQ-2")) == TwoAnchors()
  {
    var left, right := AnchorNode(LineEvidence(true)), AnchorNode(LineEvidence(false));
    assert Placed([], LineEvidence(true)) == [left];
    assert Placed([left], LineEvidence(false)) == [left, right] by { assert left.id != right.id; }
    var nodes := TwoAnchors();
    assert nodes[0] in nodes && nodes[1] in nodes;
    assert Placed(nodes, LineEvidence(true)) == nodes && Placed(nodes, LineEvidence(false)) == nodes;
  }
}
