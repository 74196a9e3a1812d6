/**
 From candidates to inferred relations: a build's candidates are grouped by pair of sources and
 offered to the model pass, and its judgments become relations of the same build.
 */
module Inference {
  import opened Common
  import opened Decisions
  import opened TokenMeter
  import opened ModelRelations
  import opened ModelPass
  import C = Composition
  import B = GroupBuild

  // ---- candidates as they are offered ----

  /** How the build writes candidate ids, source ids and text digests. */
  datatype Naming = Naming(id: C.Candidate -> string, name: C.SourceId -> string, sha: string -> string)

  function QuotedOf(e: C.Evidence, n: Naming): Quoted {
    map["source_id" := JStr(n.name(e.source)), "source_version" := JStr(e.version), "file" := JStr(e.file),
        "line_start" := JInt(e.start), "line_end" := JInt(e.end), "quote" := JStr(e.quote), "sha256" := JStr(n.sha(e.quote))]
  }

  function OfferOf(c: C.Candidate, n: Naming): Offer {
    Offer(n.id(c), QuotedOf(c.left, n), QuotedOf(c.right, n))
  }

  /** A candidate is offered under its id with both quotes, each by source, version, file, lines, text and digest. */
  lemma OfferMeans(c: C.Candidate, n: Naming)
    ensures OfferOf(c, n).id == n.id(c) && IsQuoteOf(OfferOf(c, n).left, c.left, n) && IsQuoteOf(OfferOf(c, n).right, c.right, n)
  {
  }

  predicate IsQuoteOf(q: Quoted, e: C.Evidence, n: Naming) {
    && q.Keys == {"source_id", "source_version", "file", "line_start", "line_end", "quote", "sha256"}
    && q["source_id"] == JStr(n.name(e.source)) && q["source_version"] == JStr(e.version) && q["file"] == JStr(e.file)
    && q["line_start"] == JInt(e.start) && q["line_end"] == JInt(e.end) && q["quote"] == JStr(e.quote)
    && q["sha256"] == JStr(n.sha(e.quote))
  }

  function OffersOf(cs: seq<C.Candidate>, n: Naming): (r: seq<Offer>)
    ensures |r| == |cs| && forall i :: 0 <= i < |cs| ==> r[i] == OfferOf(cs[i], n)
  {
    seq(|cs|, i requires 0 <= i < |cs| => OfferOf(cs[i], n))
  }

  /** Candidate ids are digests of the candidates: distinct candidates, distinct ids. */
  ghost predicate IdsTell(cs: seq<C.Candidate>, n: Naming) {
    forall i, j :: 0 <= i < |cs| && 0 <= j < |cs| && n.id(cs[i]) == n.id(cs[j]) ==> cs[i] == cs[j]
  }

  // ---- pairs of sources ----

  datatype PairKey = PairKey(lo: C.SourceId, hi: C.SourceId)

  function PairOf(c: C.Candidate): PairKey {
    if c.left.source <= c.right.source then PairKey(c.left.source, c.right.source) else PairKey(c.right.source, c.left.source)
  }

  predicate Before(a: PairKey, b: PairKey) {
    a.lo < b.lo || (a.lo == b.lo && a.hi < b.hi)
  }

  predicate InKeyOrder(keys: seq<PairKey>) {
    forall i, j :: 0 <= i < j < |keys| ==> Before(keys[i], keys[j])
  }

  function Insert(keys: seq<PairKey>, key: PairKey): (r: seq<PairKey>)
    requires InKeyOrder(keys)
    ensures InKeyOrder(r) && forall k :: k in r <==> k in keys || k == key
    ensures keys != [] && r != [] ==> r[0] == keys[0] || r[0] == key
  {
    if keys == [] then [key]
    else if Before(key, keys[0]) then [key] + keys
    else if key == keys[0] then keys
    else
      var rest := Insert(keys[1..], key);
      assert forall k :: k in rest ==> k in keys[1..] || k == key;
      assert keys == [keys[0]] + keys[1..];
      [keys[0]] + rest
  }

  /** The candidates between one pair of sources among the first `k`, in order. */
  function Between(cs: seq<C.Candidate>, k: nat, key: PairKey): seq<C.Candidate>
    requires k <= |cs|
  {
    if k == 0 then [] else Between(cs, k - 1, key) + if PairOf(cs[k - 1]) == key then [cs[k - 1]] else []
  }

  /** The pairs that occur, in order, each with its candidates. */
  ghost predicate PairedUp(cs: seq<C.Candidate>, k: nat, keys: seq<PairKey>, groups: map<PairKey, seq<C.Candidate>>)
    requires k <= |cs|
  {
    && InKeyOrder(keys) && (forall key :: key in keys <==> key in groups)
    && (forall key :: key in groups ==> GroupAt(cs, k, groups, key))
    && (forall i :: 0 <= i < k ==> PairOf(cs[i]) in groups)
  }

  predicate GroupAt(cs: seq<C.Candidate>, k: nat, groups: map<PairKey, seq<C.Candidate>>, key: PairKey)
    requires k <= |cs| && key in groups
  {
    groups[key] == Between(cs, k, key) && groups[key] != []
  }

  lemma {:induction false} BetweenNone(cs: seq<C.Candidate>, k: nat, key: PairKey)
    requires k <= |cs| && forall i :: 0 <= i < k ==> PairOf(cs[i]) != key
    ensures Between(cs, k, key) == []
  {
    if k > 0 { BetweenNone(cs, k - 1, key); }
  }

  lemma PairUpNext(cs: seq<C.Candidate>, k: nat, keys: seq<PairKey>, groups: map<PairKey, seq<C.Candidate>>)
    requires k < |cs| && PairedUp(cs, k, keys, groups)
    ensures var key := PairOf(cs[k]);
      PairedUp(cs, k + 1, Insert(keys, key), groups[key := (if key in groups then groups[key] else []) + [cs[k]]])
  {
    var key := PairOf(cs[k]);
    if key !in groups { BetweenNone(cs, k, key); }
    var groups' := groups[key := (if key in groups then groups[key] else []) + [cs[k]]];
    forall x | x in groups' ensures GroupAt(cs, k + 1, groups', x) {
      if x in groups { assert GroupAt(cs, k, groups, x); }
    }
  }

  method PairUpOne(cs: seq<C.Candidate>, k: nat, keys: seq<PairKey>, groups: map<PairKey, seq<C.Candidate>>)
    returns (keys': seq<PairKey>, groups': map<PairKey, seq<C.Candidate>>)
    requires k < |cs| && PairedUp(cs, k, keys, groups)
    ensures PairedUp(cs, k + 1, keys', groups')
  {
    PairUpNext(cs, k, keys, groups);
    var key := PairOf(cs[k]);
    groups' := groups[key := (if key in groups then groups[key] else []) + [cs[k]]];
    keys' := Insert(keys, key);
  }

  lemma NonePairedUp(cs: seq<C.Candidate>)
    ensures PairedUp(cs, 0, [], map[])
  {
  }

  /** Groups the candidates by pair of sources. */
  method PairUp(cs: seq<C.Candidate>) returns (keys: seq<PairKey>, groups: map<PairKey, seq<C.Candidate>>)
    ensures PairedUp(cs, |cs|, keys, groups)
  {
    keys, groups := [], map[];
    NonePairedUp(cs);
    var k := 0;
    while k < |cs|
      invariant 0 <= k <= |cs| && PairedUp(cs, k, keys, groups)
    {
      keys, groups := PairUpOne(cs, k, keys, groups);
      k := k + 1;
    }
  }

  lemma {:induction false} BetweenMeans(cs: seq<C.Candidate>, k: nat, key: PairKey)
    requires k <= |cs|
    ensures forall c :: c in Between(cs, k, key) ==> c in cs[..k] && PairOf(c) == key
    ensures forall i :: 0 <= i < k && PairOf(cs[i]) == key ==> cs[i] in Between(cs, k, key)
  {
    if k > 0 {
      BetweenMeans(cs, k - 1, key);
      assert forall c :: c in cs[..k - 1] ==> c in cs[..k];
    }
  }

  predicate NoneTwice(cs: seq<C.Candidate>) {
    forall i, j :: 0 <= i < j < |cs| ==> cs[i] != cs[j]
  }

  lemma {:induction false} BetweenDistinct(cs: seq<C.Candidate>, k: nat, key: PairKey)
    requires k <= |cs| && NoneTwice(cs)
    ensures NoneTwice(Between(cs, k, key))
  {
    if k > 0 {
      BetweenDistinct(cs, k - 1, key);
      BetweenMeans(cs, k - 1, key);
    }
  }

  // ---- the pairs put to the model ----

  /** The context of a pair, and the bytes each batch of its candidates must reserve. */
  datatype Prompts = Prompts(context: PairKey -> Context, reserve: (Context, seq<Offer>, nat) -> nat)

  function PairFor(key: PairKey, cs: seq<C.Candidate>, n: Naming, w: Prompts): Pair {
    var offers := OffersOf(cs, n);
    Pair(w.context(key), offers, seq(Batches(|offers|), b requires 0 <= b < Batches(|offers|) => w.reserve(w.context(key), offers, b)))
  }

  function PairsFor(keys: seq<PairKey>, groups: map<PairKey, seq<C.Candidate>>, n: Naming, w: Prompts): (r: seq<Pair>)
    requires forall key :: key in keys ==> key in groups
    ensures |r| == |keys| && forall i :: 0 <= i < |keys| ==> r[i] == PairFor(keys[i], groups[keys[i]], n, w)
  {
    seq(|keys|, i requires 0 <= i < |keys| => PairFor(keys[i], groups[keys[i]], n, w))
  }

  /** A group of distinct candidates whose ids tell them apart makes a sound pair. */
  lemma PairForOk(key: PairKey, cs: seq<C.Candidate>, n: Naming, w: Prompts)
    requires NoneTwice(cs) && IdsTell(cs, n)
    ensures PairOk(PairFor(key, cs, n, w))
  {
    var offers := OffersOf(cs, n);
    forall i | 0 <= i < |offers| ensures OfferOk(offers[i]) { assert offers[i] == OfferOf(cs[i], n); }
    forall i, j | 0 <= i < j < |offers| ensures IdsDiffer(offers, i, j) { assert cs[i] != cs[j]; }
  }

  lemma GroupTells(cs: seq<C.Candidate>, n: Naming, key: PairKey)
    requires NoneTwice(cs) && IdsTell(cs, n)
    ensures NoneTwice(Between(cs, |cs|, key)) && IdsTell(Between(cs, |cs|, key), n)
    ensures forall c :: c in Between(cs, |cs|, key) ==> c in cs && PairOf(c) == key
  {
    BetweenDistinct(cs, |cs|, key);
    BetweenMeans(cs, |cs|, key);
    assert cs[..|cs|] == cs;
    var g := Between(cs, |cs|, key);
    forall i, j | 0 <= i < |g| && 0 <= j < |g| && n.id(g[i]) == n.id(g[j]) ensures g[i] == g[j] {
      assert g[i] in cs && g[j] in cs;
      var a :| 0 <= a < |cs| && cs[a] == g[i];
      var b :| 0 <= b < |cs| && cs[b] == g[j];
    }
  }

  /** Pairs of different sources are stored under different keys. */
  lemma PairsTell(cs: seq<C.Candidate>, ds: seq<C.Candidate>, all: seq<C.Candidate>, n: Naming, a: PairKey, b: PairKey, w: Prompts)
    requires IdsTell(all, n) && cs != [] && ds != [] && cs[0] in all && ds[0] in all && cs[0] != ds[0]
    ensures ModelRelations.KeyOf(PairFor(a, cs, n, w)) != ModelRelations.KeyOf(PairFor(b, ds, n, w))
  {
    assert n.id(cs[0]) != n.id(ds[0]);
    assert OffersOf(cs, n)[0] != OffersOf(ds, n)[0];
  }

  lemma PairsForOk(cs: seq<C.Candidate>, keys: seq<PairKey>, groups: map<PairKey, seq<C.Candidate>>, n: Naming, w: Prompts)
    requires PairedUp(cs, |cs|, keys, groups) && NoneTwice(cs) && IdsTell(cs, n)
    ensures PairsOk(PairsFor(keys, groups, n, w))
  {
    var pairs := PairsFor(keys, groups, n, w);
    forall i | 0 <= i < |pairs| ensures PairOk(pairs[i]) {
      assert keys[i] in keys && GroupAt(cs, |cs|, groups, keys[i]);
      GroupTells(cs, n, keys[i]);
      PairForOk(keys[i], groups[keys[i]], n, w);
    }
    forall i, j | 0 <= i < j < |pairs| ensures KeysDiffer(pairs, i, j) {
      assert keys[i] in keys && GroupAt(cs, |cs|, groups, keys[i]);
      assert keys[j] in keys && GroupAt(cs, |cs|, groups, keys[j]);
      GroupTells(cs, n, keys[i]);
      GroupTells(cs, n, keys[j]);
      var l, r := groups[keys[i]], groups[keys[j]];
      assert Before(keys[i], keys[j]);
      assert l[0] in l && r[0] in r;
      PairsTell(l, r, cs, n, keys[i], keys[j], w);
    }
  }

  // ---- the candidate a judgment is about ----

  function Find(cs: seq<C.Candidate>, id: string, n: Naming): (r: Option<C.Candidate>)
    ensures r.Some? ==> r.value in cs && n.id(r.value) == id
    ensures r.None? ==> forall c :: c in cs ==> n.id(c) != id
  {
    if cs == [] then None else if n.id(cs[0]) == id then Some(cs[0]) else Find(cs[1..], id, n)
  }

  /** A proper judgment is on one candidate of the group and carries that candidate's own quotes. */
  lemma JudgedIsFound(cs: seq<C.Candidate>, n: Naming, d: Decision)
    requires NoneTwice(cs) && IdsTell(cs, n) && Owned(d, OffersById(OffersOf(cs, n), |cs|))
    ensures Find(cs, d.id, n).Some?
    ensures var c := Find(cs, d.id, n).value; d.left == QuotedOf(c.left, n) && d.right == QuotedOf(c.right, n)
  {
    var offers := OffersOf(cs, n);
    forall i | 0 <= i < |offers| ensures OfferOk(offers[i]) { assert offers[i] == OfferOf(cs[i], n); }
    forall i, j | 0 <= i < j < |offers| ensures IdsDiffer(offers, i, j) { assert cs[i] != cs[j]; }
    ByIdHolds(offers, |offers|);
    var i :| 0 <= i < |offers| && offers[i].id == d.id;
    assert cs[i] in cs && n.id(cs[i]) == d.id;
    var c := Find(cs, d.id, n).value;
    var j :| 0 <= j < |cs| && cs[j] == c;
    assert n.id(cs[i]) == n.id(cs[j]);
  }

  /** The candidate as judged: its relation replaced, its quotes swapped when reversed. */
  function Turned(c: C.Candidate, relation: string, reverse: bool): C.Candidate {
    if reverse then C.Candidate(relation, c.signal, c.right, c.left) else C.Candidate(relation, c.signal, c.left, c.right)
  }

  /** The emission is a judgment on a candidate of its pair. */
  predicate EmissionOk(e: Emission, keys: seq<PairKey>, groups: map<PairKey, seq<C.Candidate>>, n: Naming) {
    e.pair < |keys| && keys[e.pair] in groups && Find(groups[keys[e.pair]], e.decision.id, n).Some?
  }

  function ChosenFor(e: Emission, keys: seq<PairKey>, groups: map<PairKey, seq<C.Candidate>>, n: Naming): C.Candidate
    requires EmissionOk(e, keys, groups, n)
  {
    Turned(Find(groups[keys[e.pair]], e.decision.id, n).value, e.decision.relation, e.decision.reverse)
  }

  /** The candidate a judgment becomes: that of its pair with the judged id, under the judged relation, its two
      quotes in each other's place exactly when the judgment is reversed. */
  lemma ChosenMeans(e: Emission, keys: seq<PairKey>, groups: map<PairKey, seq<C.Candidate>>, n: Naming)
    requires EmissionOk(e, keys, groups, n)
    ensures var t := ChosenFor(e, keys, groups, n);
      exists c :: c in groups[keys[e.pair]] && n.id(c) == e.decision.id && t.relation == e.decision.relation && t.signal == c.signal
        && (if e.decision.reverse then t.left == c.right && t.right == c.left else t.left == c.left && t.right == c.right)
  {
    var c := Find(groups[keys[e.pair]], e.decision.id, n).value;
    assert c in groups[keys[e.pair]];
  }

  predicate EmissionsOk(es: seq<Emission>, keys: seq<PairKey>, groups: map<PairKey, seq<C.Candidate>>, n: Naming) {
    forall k :: 0 <= k < |es| ==> EmissionOk(es[k], keys, groups, n)
  }

  function Chosen(es: seq<Emission>, keys: seq<PairKey>, groups: map<PairKey, seq<C.Candidate>>, n: Naming): (r: seq<C.Candidate>)
    requires EmissionsOk(es, keys, groups, n)
    ensures |r| == |es| && forall k :: 0 <= k < |es| ==> r[k] == ChosenFor(es[k], keys, groups, n)
  {
    seq(|es|, k requires 0 <= k < |es| => ChosenFor(es[k], keys, groups, n))
  }

  lemma VisitChoosable(t: seq<Visit>, s: Setting, log: seq<Call>, cs: seq<C.Candidate>, keys: seq<PairKey>,
      groups: map<PairKey, seq<C.Candidate>>, n: Naming, w: Prompts, i: nat, k: nat)
    requires PairedUp(cs, |cs|, keys, groups) && NoneTwice(cs) && IdsTell(cs, n)
    requires s.pairs == PairsFor(keys, groups, n, w) && Trace(t, s, log) && i < |t|
    requires t[i].judged.Some? && k < |t[i].judged.value|
    ensures EmissionOk(Emission(i, t[i].judged.value[k]), keys, groups, n)
  {
    assert keys[i] in keys && GroupAt(cs, |cs|, groups, keys[i]);
    var group, d := groups[keys[i]], t[i].judged.value[k];
    assert VisitAt(t, i, s, log);
    assert OwnedAt(t[i].judged.value, k, OffersById(s.pairs[i].offers, |s.pairs[i].offers|));
    GroupTells(cs, n, keys[i]);
    JudgedIsFound(group, n, d);
  }

  /** Everything a pass over these pairs emits is about their candidates. */
  lemma {:induction false} EmittedChoosable(t: seq<Visit>, s: Setting, log: seq<Call>, cs: seq<C.Candidate>, keys: seq<PairKey>,
      groups: map<PairKey, seq<C.Candidate>>, n: Naming, w: Prompts, k: nat)
    requires PairedUp(cs, |cs|, keys, groups) && NoneTwice(cs) && IdsTell(cs, n)
    requires s.pairs == PairsFor(keys, groups, n, w) && Trace(t, s, log) && k <= |t|
    ensures EmissionsOk(Emitted(t, k), keys, groups, n)
  {
    if k > 0 {
      var last := k - 1;
      var before, all := Emitted(t, last), Emitted(t, k);
      EmittedChoosable(t, s, log, cs, keys, groups, n, w, last);
      forall e | 0 <= e < |all| ensures EmissionOk(all[e], keys, groups, n) {
        if e >= |before| { VisitChoosable(t, s, log, cs, keys, groups, n, w, last, e - |before|); }
        else { assert all[e] == before[e]; }
      }
    }
  }

  lemma ChosenAreCandidates(es: seq<Emission>, cs: seq<C.Candidate>, keys: seq<PairKey>,
      groups: map<PairKey, seq<C.Candidate>>, n: Naming, sources: seq<C.Source>)
    requires EmissionsOk(es, keys, groups, n) && PairedUp(cs, |cs|, keys, groups) && NoneTwice(cs) && IdsTell(cs, n)
    requires forall i :: 0 <= i < |cs| ==> cs[i].left.source != cs[i].right.source
    ensures forall k :: 0 <= k < |es| ==> Chosen(es, keys, groups, n)[k].left.source != Chosen(es, keys, groups, n)[k].right.source
    ensures B.AllQuoted(cs, sources) ==> B.AllQuoted(Chosen(es, keys, groups, n), sources)
  {
    forall k | 0 <= k < |es|
      ensures exists i :: 0 <= i < |cs| && Chosen(es, keys, groups, n)[k] == Turned(cs[i], es[k].decision.relation, es[k].decision.reverse)
    {
      assert EmissionOk(es[k], keys, groups, n) && GroupAt(cs, |cs|, groups, keys[es[k].pair]);
      GroupTells(cs, n, keys[es[k].pair]);
      var c := Find(groups[keys[es[k].pair]], es[k].decision.id, n).value;
      var i :| 0 <= i < |cs| && cs[i] == c;
    }
  }

  // ---- the inferred relations of a build ----

  /**
   * The emissions become relations. Relating a candidate touches nothing the pass reads, so the
   * relations can be made when the pass is over, in the order of its emissions.
   */
  method Infer(b: B.Build, es: seq<Emission>, keys: seq<PairKey>, groups: map<PairKey, seq<C.Candidate>>, n: Naming, model: string)
    returns (failure: Option<B.Failure>, ghost emitted: seq<C.GraphLink>)
    requires b.Valid() && EmissionsOk(es, keys, groups, n) && PairedUp(b.candidates, |b.candidates|, keys, groups)
    requires IdsTell(b.candidates, n)
    modifies b`nodes, b`anchors, b`links, b`relations, b`partial
    ensures b.Valid() && b.relations == old(b.relations) + emitted
    ensures B.AllQuoted(b.candidates, b.sources) ==> failure.None?
    ensures failure.None? ==>
      B.RelatedThrough(old(b.nodes), |old(b.links)|, Chosen(es, keys, groups, n), |es|, C.Inferred(model), b.nodes, emitted, b.Limited())
  {
    var cs := Chosen(es, keys, groups, n);
    ChosenAreCandidates(es, b.candidates, keys, groups, n, b.sources);
    failure, emitted := b.RelateEach(cs, C.Inferred(model));
  }

  /** The whole of the model's part in a build: the pass over the pairs of its candidates, and the relations it infers. */
  method ModelRelate(b: B.Build, m: Meter, memory: map<CacheKey, Entry>, available: bool, n: Naming, w: Prompts, model: string)
    returns (failure: Option<B.Failure>, cache: map<CacheKey, Entry>, es: seq<Emission>, ghost t: seq<Visit>,
             keys: seq<PairKey>, groups: map<PairKey, seq<C.Candidate>>, ghost s: Setting, ghost emitted: seq<C.GraphLink>)
    requires b.Valid() && IdsTell(b.candidates, n) && m.Open()
    modifies m, b`nodes, b`anchors, b`links, b`relations, b`partial
    ensures b.Valid() && b.relations == old(b.relations) + emitted && PairedUp(b.candidates, |b.candidates|, keys, groups)
    ensures s == Setting(PairsFor(keys, groups, n, w), memory, available, m.clock, old(m.ticks), |old(m.log)|)
    ensures m.Valid() && Done(cache, es, t, s, m.log) && Pass(t, s, m.log)
    ensures EmissionsOk(es, keys, groups, n) && (B.AllQuoted(b.candidates, b.sources) ==> failure.None?)
    ensures failure.None? ==>
      B.RelatedThrough(old(b.nodes), |old(b.links)|, Chosen(es, keys, groups, n), |es|, C.Inferred(model), b.nodes, emitted, b.Limited())
  {
    keys, groups := PairUp(b.candidates);
    cache, es, t, s := PassOver(b.candidates, m, memory, available, keys, groups, n, w);
    failure, emitted := Infer(b, es, keys, groups, n, model);
  }

  /** The pass over the pairs of these candidates. */
  method PassOver(cs: seq<C.Candidate>, m: Meter, memory: map<CacheKey, Entry>, available: bool,
                  keys: seq<PairKey>, groups: map<PairKey, seq<C.Candidate>>, n: Naming, w: Prompts)
    returns (cache: map<CacheKey, Entry>, es: seq<Emission>, ghost t: seq<Visit>, ghost s: Setting)
    requires m.Open() && PairedUp(cs, |cs|, keys, groups) && NoneTwice(cs) && IdsTell(cs, n)
    modifies m
    ensures s == Setting(PairsFor(keys, groups, n, w), memory, available, m.clock, old(m.ticks), |old(m.log)|)
    ensures m.Valid() && Done(cache, es, t, s, m.log) && Pass(t, s, m.log) && EmissionsOk(es, keys, groups, n)
  {
    var pairs := PairsFor(keys, groups, n, w);
    PairsForOk(cs, keys, groups, n, w);
    s := SettingOf(m, pairs, memory, available);
    cache, es, t := JudgeAll(m, pairs, memory, available);
    EmittedChoosable(t, s, m.log, cs, keys, groups, n, w, |t|);
  }

  /**
   * Two builds that start from the same graph and emit the same judgments append the same relation
   * records in the same order and end with the same nodes, each record grounded, whatever limits they meet.
   */
  lemma SameEmissionsSameRecords(
      es: seq<Emission>, keys: seq<PairKey>, groups: map<PairKey, seq<C.Candidate>>, n: Naming, model: string,
      nodes0: seq<C.GraphNode>, links: nat, sources: seq<C.Source>, rank: C.NodeId -> int,
      nodes1: seq<C.GraphNode>, rs: seq<C.GraphLink>, limited1: bool, nodes2: seq<C.GraphNode>, ss: seq<C.GraphLink>, limited2: bool)
    requires EmissionsOk(es, keys, groups, n)
    requires B.RelatedThrough(nodes0, links, Chosen(es, keys, groups, n), |es|, C.Inferred(model), nodes1, rs, limited1)
    requires B.RelatedThrough(nodes0, links, Chosen(es, keys, groups, n), |es|, C.Inferred(model), nodes2, ss, limited2)
    requires B.AllGrounded(rs, nodes1, sources, rank) && B.AllGrounded(ss, nodes2, sources, rank) && B.Injective(rank, nodes1)
    ensures nodes1 == nodes2 && rs == ss
  {
    var cs := Chosen(es, keys, groups, n);
    B.SameRecords(rs, ss, cs, B.Kept(nodes0, links, cs, |cs|), C.Inferred(model), nodes1, sources, rank);
  }

  /**
   * A second build over the same candidates, from the same graph, with the first one's cache: when
   * every pair was stored and time lasts, it appends the same relation records without a model call.
   */
  lemma ReplayedBuildSameRecords(
      cache: map<CacheKey, Entry>, es: seq<Emission>, t: seq<Visit>, s: Setting, log: seq<Call>,
      cache2: map<CacheKey, Entry>, es2: seq<Emission>, t2: seq<Visit>, s2: Setting, log2: seq<Call>,
      keys: seq<PairKey>, groups: map<PairKey, seq<C.Candidate>>, n: Naming, model: string,
      nodes0: seq<C.GraphNode>, links: nat, sources: seq<C.Source>, rank: C.NodeId -> int,
      nodes1: seq<C.GraphNode>, rs: seq<C.GraphLink>, limited1: bool, nodes2: seq<C.GraphNode>, ss: seq<C.GraphLink>, limited2: bool)
    requires PairsOk(s.pairs) && Done(cache, es, t, s, log) && forall i :: 0 <= i < |s.pairs| ==> KeyOf(s.pairs[i]) in cache
    requires s2.pairs == s.pairs && s2.memory == cache && Done(cache2, es2, t2, s2, log2) && Pass(t2, s2, log2) && TimeForAll(s2)
    requires EmissionsOk(es, keys, groups, n) && EmissionsOk(es2, keys, groups, n)
    requires B.RelatedThrough(nodes0, links, Chosen(es, keys, groups, n), |es|, C.Inferred(model), nodes1, rs, limited1)
    requires B.RelatedThrough(nodes0, links, Chosen(es2, keys, groups, n), |es2|, C.Inferred(model), nodes2, ss, limited2)
    requires B.AllGrounded(rs, nodes1, sources, rank) && B.AllGrounded(ss, nodes2, sources, rank) && B.Injective(rank, nodes1)
    ensures es2 == es && rs == ss && nodes1 == nodes2 && cache2 == cache && NextCall(t2, s2) == s2.first
  {
    ReplayedBuildIsSame(cache, t, s, log, cache2, t2, s2, log2);
    SameEmissionsSameRecords(es, keys, groups, n, model, nodes0, links, sources, rank, nodes1, rs, limited1, nodes2, ss, limited2);
  }

  /**
   * The same with a partly filled cache: when both passes get equally far and the pairs the first
   * did not store get the same replies again, the same relation records are appended.
   */
  lemma PartlyReplayedBuildSameRecords(
      cache: map<CacheKey, Entry>, es: seq<Emission>, t: seq<Visit>, s: Setting, log: seq<Call>,
      cache2: map<CacheKey, Entry>, es2: seq<Emission>, t2: seq<Visit>, s2: Setting, log2: seq<Call>,
      keys: seq<PairKey>, groups: map<PairKey, seq<C.Candidate>>, n: Naming, model: string,
      nodes0: seq<C.GraphNode>, links: nat, sources: seq<C.Source>, rank: C.NodeId -> int,
      nodes1: seq<C.GraphNode>, rs: seq<C.GraphLink>, limited1: bool, nodes2: seq<C.GraphNode>, ss: seq<C.GraphLink>, limited2: bool)
    requires PairsOk(s.pairs) && Done(cache, es, t, s, log)
    requires s2.pairs == s.pairs && s2.memory == cache && Done(cache2, es2, t2, s2, log2)
    requires |t2| == |t| && OthersSame(cache, s, t, log, t2, log2, |t|)
    requires EmissionsOk(es, keys, groups, n) && EmissionsOk(es2, keys, groups, n)
    requires B.RelatedThrough(nodes0, links, Chosen(es, keys, groups, n), |es|, C.Inferred(model), nodes1, rs, limited1)
    requires B.RelatedThrough(nodes0, links, Chosen(es2, keys, groups, n), |es2|, C.Inferred(model), nodes2, ss, limited2)
    requires B.AllGrounded(rs, nodes1, sources, rank) && B.AllGrounded(ss, nodes2, sources, rank) && B.Injective(rank, nodes1)
    ensures es2 == es && rs == ss && nodes1 == nodes2
  {
    PartlyReplayedIsSame(cache, t, s, log, cache2, t2, s2, log2, |t|);
    SameEmissionsSameRecords(es, keys, groups, n, model, nodes0, links, sources, rank, nodes1, rs, limited1, nodes2, ss, limited2);
  }
}
