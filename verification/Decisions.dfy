/** Decoding a model's judgments to evidence the server owns, and replaying judgments from a cache. */
module Decisions {
  import opened Common

  datatype Json =
    | JNull
    | JBool(on: bool)
    | JInt(n: int)
    | JReal(text: string)
    | JStr(s: string)
    | JList(items: seq<Json>)
    | JObj(fields: map<string, Json>)

  /** A quote as the object sent to the model. */
  type Quoted = map<string, Json>

  const REQUIRED: set<string> := {"source_id", "file", "line_start", "line_end", "quote"}

  /** A candidate offered for judgment: its canonical id and its two quotes. */
  datatype Offer = Offer(id: string, left: Quoted, right: Quoted)

  predicate OfferOk(o: Offer) {
    REQUIRED <= o.left.Keys && REQUIRED <= o.right.Keys
  }

  datatype Decision = Decision(id: string, relation: string, reverse: bool, left: Quoted, right: Quoted)

  const RELATIONS: set<string> := {
    "shared_requirement", "shared_contract", "shared_test_case", "references_file",
    "references_symbol", "related_to", "calls_api", "implements_requirement",
    "tests_requirement", "tests_api"
  }

  const FIELDS: set<string> := {"candidate_id", "relation", "reverse", "evidence_refs", "evidence"}

  // ---- decoding ----

  /** A supplied quote agrees with the original: the required fields, no others, equal values. */
  predicate Agrees(actual: Json, original: Quoted) {
    && actual.JObj? && REQUIRED <= actual.fields.Keys && actual.fields.Keys <= original.Keys
    && forall key :: key in actual.fields ==> actual.fields[key] == original[key]
  }

  predicate SuppliesBoth(supplied: Json, o: Offer) {
    && supplied.JList? && |supplied.items| == 2
    && Agrees(supplied.items[0], o.left) && Agrees(supplied.items[1], o.right)
  }

  predicate RefersToBoth(refs: Json) {
    refs == JList([JInt(0), JInt(1)])
  }

  /** Exactly one of the two ways to name the evidence, and that one right. */
  predicate EvidenceOk(item: map<string, Json>, o: Offer) {
    if "evidence_refs" in item then "evidence" !in item && RefersToBoth(item["evidence_refs"])
    else "evidence" in item && SuppliesBoth(item["evidence"], o)
  }

  function ReverseOf(item: map<string, Json>): Json {
    if "reverse" in item then item["reverse"] else JBool(false)
  }

  /** One judgment, with the evidence of the offer it names. */
  function DecodeItem(item: Json, offers: map<string, Offer>): Option<Decision> {
    if !item.JObj? || !(item.fields.Keys <= FIELDS) then None
    else
      var f := item.fields;
      if "candidate_id" !in f || !f["candidate_id"].JStr? || f["candidate_id"].s !in offers then None
      else
        var o := offers[f["candidate_id"].s];
        if "relation" !in f || !f["relation"].JStr? || f["relation"].s !in RELATIONS then None
        else if !ReverseOf(f).JBool? || !EvidenceOk(f, o) then None
        else Some(Decision(o.id, f["relation"].s, ReverseOf(f).on, o.left, o.right))
  }

  predicate Judged(ds: seq<Decision>, id: string) {
    exists i :: 0 <= i < |ds| && ds[i].id == id
  }

  /** The first `k` judgments; none when one is malformed or a candidate is judged twice. */
  function DecodeItems(items: seq<Json>, k: nat, offers: map<string, Offer>): Option<seq<Decision>>
    requires k <= |items|
  {
    if k == 0 then Some([])
    else
      var before := DecodeItems(items, k - 1, offers);
      var d := DecodeItem(items[k - 1], offers);
      if before.None? || d.None? || Judged(before.value, d.value.id) then None else Some(before.value + [d.value])
  }

  function ItemsOf(payload: Json): Option<seq<Json>> {
    if payload.JObj? && payload.fields.Keys == {"relations"} && payload.fields["relations"].JList?
    then Some(payload.fields["relations"].items) else None
  }

  function Decode(payload: Json, offers: map<string, Offer>): Option<seq<Decision>> {
    var items := ItemsOf(payload);
    if items.None? || |items.value| > |offers| then None else DecodeItems(items.value, |items.value|, offers)
  }

  lemma {:induction false} DecodeStops(items: seq<Json>, k: nat, n: nat, offers: map<string, Offer>)
    requires k <= n <= |items| && DecodeItems(items, k, offers).None?
    ensures DecodeItems(items, n, offers).None?
  {
    if k < n { DecodeStops(items, k, n - 1, offers); }
  }

  ghost predicate SeenIn(seen: set<string>, ds: seq<Decision>) {
    forall id :: id in seen <==> Judged(ds, id)
  }

  method DecodeNext(items: seq<Json>, k: nat, offers: map<string, Offer>, accepted: seq<Decision>, seen: set<string>)
    returns (d: Option<Decision>)
    requires k < |items| && DecodeItems(items, k, offers) == Some(accepted) && SeenIn(seen, accepted)
    ensures d.None? ==> DecodeItems(items, k + 1, offers).None?
    ensures d.Some? ==> DecodeItems(items, k + 1, offers) == Some(accepted + [d.value])
    ensures d.Some? ==> SeenIn(seen + {d.value.id}, accepted + [d.value])
  {
    d := DecodeItem(items[k], offers);
    if d.None? || d.value.id in seen { return None; }
    MoreJudged(accepted, d.value);
  }

  /** `_decisions`: collects judgments one by one and gives up at the first bad one. */
  method ReadDecisions(payload: Json, offers: map<string, Offer>) returns (r: Option<seq<Decision>>)
    ensures r == Decode(payload, offers)
  {
    var items := ItemsOf(payload);
    if items.None? || |items.value| > |offers| { return None; }
    var accepted, seen, k := [], {}, 0;
    while k < |items.value|
      invariant 0 <= k <= |items.value|
      invariant DecodeItems(items.value, k, offers) == Some(accepted) && SeenIn(seen, accepted)
    {
      var d := DecodeNext(items.value, k, offers, accepted, seen);
      k := k + 1;
      if d.None? {
        DecodeStops(items.value, k, |items.value|, offers);
        return None;
      }
      accepted, seen := accepted + [d.value], seen + {d.value.id};
    }
    r := Some(accepted);
  }

  lemma MoreJudged(ds: seq<Decision>, d: Decision)
    ensures forall id :: Judged(ds + [d], id) <==> Judged(ds, id) || id == d.id
  {
    forall id ensures Judged(ds + [d], id) <==> Judged(ds, id) || id == d.id {
      if Judged(ds, id) {
        var i :| 0 <= i < |ds| && ds[i].id == id;
        assert (ds + [d])[i].id == id;
      }
      assert (ds + [d])[|ds|] == d;
    }
  }

  // ---- what a decoded judgment is ----

  /** Offers by canonical id. */
  predicate ById(offers: map<string, Offer>) {
    forall id :: id in offers ==> offers[id].id == id && OfferOk(offers[id])
  }

  /** A judgment on an offer, carrying that offer's own quotes. */
  predicate Owned(d: Decision, offers: map<string, Offer>) {
    && d.relation in RELATIONS && d.id in offers
    && d.left == offers[d.id].left && d.right == offers[d.id].right
  }

  /** Judgments on distinct offers, every quote the server's own. */
  predicate Proper(ds: seq<Decision>, offers: map<string, Offer>) {
    && (forall i :: 0 <= i < |ds| ==> OwnedAt(ds, i, offers))
    && (forall i, j :: 0 <= i < j < |ds| ==> Differ(ds, i, j))
  }

  predicate OwnedAt(ds: seq<Decision>, i: nat, offers: map<string, Offer>)
    requires i < |ds|
  {
    Owned(ds[i], offers)
  }

  predicate Differ(ds: seq<Decision>, i: nat, j: nat)
    requires i < |ds| && j < |ds|
  {
    ds[i].id != ds[j].id
  }

  /** Offers under batch ids, each of them one of the canonical offers. */
  predicate Within(batch: map<string, Offer>, offers: map<string, Offer>) {
    forall key :: key in batch ==> batch[key].id in offers && offers[batch[key].id] == batch[key]
  }

  /** Whatever the model replies, what is decoded is proper. */
  lemma {:induction false} DecodedIsProper(items: seq<Json>, k: nat, batch: map<string, Offer>, offers: map<string, Offer>)
    requires k <= |items| && Within(batch, offers) && DecodeItems(items, k, batch).Some?
    ensures Proper(DecodeItems(items, k, batch).value, offers) && |DecodeItems(items, k, batch).value| == k
  {
    if k > 0 {
      DecodedIsProper(items, k - 1, batch, offers);
      var before, d := DecodeItems(items, k - 1, batch).value, DecodeItem(items[k - 1], batch).value;
      var ds := before + [d];
      assert Owned(d, offers);
      forall i | 0 <= i < |ds| ensures OwnedAt(ds, i, offers) {
        if i < k - 1 { assert OwnedAt(before, i, offers); }
      }
      forall i, j | 0 <= i < j < |ds| ensures Differ(ds, i, j) {
        if j < k - 1 { assert Differ(before, i, j); }
      }
    }
  }

  // ---- the cache ----

  function EncodeDecision(d: Decision): Json {
    JObj(map[
      "candidate_id" := JStr(d.id), "relation" := JStr(d.relation), "reverse" := JBool(d.reverse),
      "evidence" := JList([JObj(d.left), JObj(d.right)])])
  }

  function EncodeItems(ds: seq<Decision>): (items: seq<Json>)
    ensures |items| == |ds| && forall i :: 0 <= i < |ds| ==> items[i] == EncodeDecision(ds[i])
  {
    seq(|ds|, i requires 0 <= i < |ds| => EncodeDecision(ds[i]))
  }

  /** The stored form of a judged pair. */
  function Encode(ds: seq<Decision>): Json {
    JObj(map["relations" := JList(EncodeItems(ds))])
  }

  lemma EncodedDecodes(d: Decision, offers: map<string, Offer>)
    requires ById(offers) && Owned(d, offers)
    ensures DecodeItem(EncodeDecision(d), offers) == Some(d)
  {
    var o := offers[d.id];
    var f := EncodeDecision(d).fields;
    assert f["evidence"] == JList([JObj(o.left), JObj(o.right)]);
    assert Agrees(JObj(o.left), o.left) && Agrees(JObj(o.right), o.right);
    assert SuppliesBoth(f["evidence"], o);
  }

  lemma {:induction false} AllDecode(items: seq<Json>, ds: seq<Decision>, k: nat, offers: map<string, Offer>)
    requires k <= |ds| == |items|
    requires forall i :: 0 <= i < k ==> DecodeItem(items[i], offers) == Some(ds[i])
    requires forall i, j :: 0 <= i < j < |ds| ==> ds[i].id != ds[j].id
    ensures DecodeItems(items, k, offers) == Some(ds[..k])
  {
    if k > 0 {
      AllDecode(items, ds, k - 1, offers);
      assert ds[..k] == ds[..k - 1] + [ds[k - 1]];
    }
  }

  lemma EncodedItemsDecode(ds: seq<Decision>, offers: map<string, Offer>)
    requires ById(offers) && Proper(ds, offers)
    ensures DecodeItems(EncodeItems(ds), |ds|, offers) == Some(ds)
  {
    forall i | 0 <= i < |ds| ensures DecodeItem(EncodeItems(ds)[i], offers) == Some(ds[i]) {
      assert OwnedAt(ds, i, offers);
      EncodedDecodes(ds[i], offers);
    }
    forall i, j | 0 <= i < j < |ds| ensures ds[i].id != ds[j].id {
      assert Differ(ds, i, j);
    }
    AllDecode(EncodeItems(ds), ds, |ds|, offers);
    assert ds[..|ds|] == ds;
  }

  lemma {:induction false} DistinctFit(ds: seq<Decision>, k: nat, offers: map<string, Offer>, ids: set<string>)
    requires k <= |ds| && Proper(ds, offers)
    requires ids == set i | 0 <= i < k :: ds[i].id
    ensures |ids| == k
  {
    if k > 0 {
      var fewer := set i | 0 <= i < k - 1 :: ds[i].id;
      DistinctFit(ds, k - 1, offers, fewer);
      var last := k - 1;
      forall i | 0 <= i < last ensures ds[i].id != ds[last].id { assert Differ(ds, i, last); }
      assert ids == fewer + {ds[k - 1].id};
    }
  }

  lemma ProperFits(ds: seq<Decision>, offers: map<string, Offer>)
    requires Proper(ds, offers)
    ensures |ds| <= |offers|
  {
    var ids := set i | 0 <= i < |ds| :: ds[i].id;
    DistinctFit(ds, |ds|, offers, ids);
    forall i | 0 <= i < |ds| ensures ds[i].id in offers { assert OwnedAt(ds, i, offers); }
    assert ids <= offers.Keys;
    var rest := offers.Keys - ids;
    assert offers.Keys == ids + rest;
  }

  /** Replaying stored judgments gives back exactly those judgments, in order. */
  lemma ReplayIsExact(ds: seq<Decision>, offers: map<string, Offer>)
    requires ById(offers) && Proper(ds, offers)
    ensures Decode(Encode(ds), offers) == Some(ds)
  {
    ProperFits(ds, offers);
    EncodedItemsDecode(ds, offers);
    assert ItemsOf(Encode(ds)) == Some(EncodeItems(ds));
  }

  /** Decoding is idempotent: the normalised form of anything decoded decodes to the same. */
  lemma DecodeIdempotent(payload: Json, offers: map<string, Offer>)
    requires ById(offers) && Decode(payload, offers).Some?
    ensures Decode(Encode(Decode(payload, offers).value), offers) == Decode(payload, offers)
  {
    var items := ItemsOf(payload).value;
    DecodedIsProper(items, |items|, offers, offers);
    ReplayIsExact(Decode(payload, offers).value, offers);
  }

  // ---- short ids ----

  /** The item with its batch id replaced by the canonical one. */
  function Renamed(item: Json, batch: map<string, Offer>): Json {
    if item.JObj? && "candidate_id" in item.fields && item.fields["candidate_id"].JStr?
       && item.fields["candidate_id"].s in batch
    then JObj(item.fields["candidate_id" := JStr(batch[item.fields["candidate_id"].s].id)])
    else item
  }

  function RenamedItems(items: seq<Json>, batch: map<string, Offer>): (r: seq<Json>)
    ensures |r| == |items| && forall i :: 0 <= i < |items| ==> r[i] == Renamed(items[i], batch)
  {
    seq(|items|, i requires 0 <= i < |items| => Renamed(items[i], batch))
  }

  lemma RenamedDecodes(item: Json, batch: map<string, Offer>, offers: map<string, Offer>)
    requires Within(batch, offers) && DecodeItem(item, batch).Some?
    ensures DecodeItem(Renamed(item, batch), offers) == DecodeItem(item, batch)
  {
    var f, r := item.fields, Renamed(item, batch).fields;
    assert r.Keys == f.Keys;
    assert ReverseOf(r) == ReverseOf(f);
  }

  lemma {:induction false} RenamedItemsDecode(items: seq<Json>, k: nat, batch: map<string, Offer>, offers: map<string, Offer>)
    requires k <= |items| && Within(batch, offers) && DecodeItems(items, k, batch).Some?
    ensures DecodeItems(RenamedItems(items, batch), k, offers) == DecodeItems(items, k, batch)
  {
    if k > 0 {
      RenamedItemsDecode(items, k - 1, batch, offers);
      RenamedDecodes(items[k - 1], batch, offers);
    }
  }

  /** A reply in short batch ids means what the same reply in canonical ids means. */
  lemma ShortIdsMeanCanonical(items: seq<Json>, batch: map<string, Offer>, offers: map<string, Offer>)
    requires Within(batch, offers) && |batch| <= |offers|
    requires Decode(JObj(map["relations" := JList(items)]), batch).Some?
    ensures Decode(JObj(map["relations" := JList(RenamedItems(items, batch))]), offers)
         == Decode(JObj(map["relations" := JList(items)]), batch)
  {
    RenamedItemsDecode(items, |items|, batch, offers);
    assert ItemsOf(JObj(map["relations" := JList(items)])) == Some(items);
    var renamed := RenamedItems(items, batch);
    assert ItemsOf(JObj(map["relations" := JList(renamed)])) == Some(renamed);
  }
}
