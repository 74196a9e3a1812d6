/** Which replies decode, and to what, for any list of items and any offers. */
module DecisionReplies {
  import opened Common
  import opened Decisions
  import opened ModelRelations

  // ---- one item ----

  predicate KnownRelation(r: string) {
    || r in {"shared_requirement", "shared_contract", "shared_test_case", "references_file", "references_symbol"}
    || r in {"related_to", "calls_api", "implements_requirement", "tests_requirement", "tests_api"}
  }

  predicate KnownField(name: string) {
    name in {"candidate_id", "relation", "reverse", "evidence_refs", "evidence"}
  }

  /** A quote sent back: an object with at least the five fields that place it, every field as it was sent. */
  predicate SameQuote(v: Json, original: Quoted) {
    && v.JObj?
    && (forall name :: name in {"source_id", "file", "line_start", "line_end", "quote"} ==> name in v.fields)
    && (forall name :: name in v.fields ==> name in original && v.fields[name] == original[name])
  }

  /** The evidence by its two numbers, or quoted in full, and not both. */
  predicate NamesEvidence(item: map<string, Json>, left: Quoted, right: Quoted) {
    || ("evidence" !in item && "evidence_refs" in item && item["evidence_refs"] == JList([JInt(0), JInt(1)]))
    || ("evidence_refs" !in item && "evidence" in item && item["evidence"].JList? && |item["evidence"].items| == 2
        && SameQuote(item["evidence"].items[0], left) && SameQuote(item["evidence"].items[1], right))
  }

  /** This item is this judgment: on the offer it names, with that offer's own quotes. */
  predicate ItemSays(item: Json, d: Decision, offers: map<string, Offer>) {
    && item.JObj? && (forall name :: name in item.fields ==> KnownField(name))
    && "candidate_id" in item.fields && item.fields["candidate_id"].JStr? && item.fields["candidate_id"].s in offers
    && "relation" in item.fields && item.fields["relation"] == JStr(d.relation) && KnownRelation(d.relation)
    && (if "reverse" in item.fields then item.fields["reverse"] == JBool(d.reverse) else !d.reverse)
    && var o := offers[item.fields["candidate_id"].s];
       d.id == o.id && d.left == o.left && d.right == o.right && NamesEvidence(item.fields, o.left, o.right)
  }

  lemma EvidenceMeans(item: map<string, Json>, o: Offer)
    ensures EvidenceOk(item, o) <==> NamesEvidence(item, o.left, o.right)
  {
    if "evidence" in item && item["evidence"].JList? && |item["evidence"].items| == 2 {
      QuoteMeans(item["evidence"].items[0], o.left);
      QuoteMeans(item["evidence"].items[1], o.right);
    }
  }

  lemma QuoteMeans(v: Json, original: Quoted)
    ensures Agrees(v, original) <==> SameQuote(v, original)
  {
  }

  lemma ItemMeans(item: Json, d: Decision, offers: map<string, Offer>)
    ensures DecodeItem(item, offers) == Some(d) <==> ItemSays(item, d, offers)
  {
    if item.JObj? && "candidate_id" in item.fields && item.fields["candidate_id"].JStr? && item.fields["candidate_id"].s in offers {
      EvidenceMeans(item.fields, offers[item.fields["candidate_id"].s]);
    }
  }

  // ---- a whole reply ----

  predicate ItemAt(items: seq<Json>, ds: seq<Decision>, i: nat, offers: map<string, Offer>)
    requires i < |items| && i < |ds|
  {
    ItemSays(items[i], ds[i], offers)
  }

  /** The reply is these judgments, one item each, in order, no candidate twice, no more than there are offers. */
  predicate ReplySays(payload: Json, ds: seq<Decision>, offers: map<string, Offer>) {
    && payload.JObj? && payload.fields.Keys == {"relations"} && payload.fields["relations"].JList?
    && var items := payload.fields["relations"].items;
       && |items| == |ds| && |ds| <= |offers|
       && (forall i :: 0 <= i < |items| ==> ItemAt(items, ds, i, offers))
       && (forall i, j :: 0 <= i < j < |ds| ==> Differ(ds, i, j))
  }

  lemma {:induction false} ItemsSay(items: seq<Json>, ds: seq<Decision>, k: nat, offers: map<string, Offer>)
    requires k <= |items| && DecodeItems(items, k, offers) == Some(ds)
    ensures |ds| == k && (forall i :: 0 <= i < k ==> ItemAt(items, ds, i, offers))
    ensures forall i, j :: 0 <= i < j < |ds| ==> Differ(ds, i, j)
    decreases k
  {
    if k > 0 {
      var before, d := DecodeItems(items, k - 1, offers).value, DecodeItem(items[k - 1], offers).value;
      ItemsSay(items, before, k - 1, offers);
      ItemMeans(items[k - 1], d, offers);
      forall i | 0 <= i < k ensures ItemAt(items, ds, i, offers) {
        if i < k - 1 { assert ItemAt(items, before, i, offers); }
      }
      forall i, j | 0 <= i < j < |ds| ensures Differ(ds, i, j) {
        if j < k - 1 { assert Differ(before, i, j); }
      }
    }
  }

  lemma SayingItemsDecode(items: seq<Json>, ds: seq<Decision>, offers: map<string, Offer>)
    requires |items| == |ds| && (forall i :: 0 <= i < |items| ==> ItemAt(items, ds, i, offers))
    requires forall i, j :: 0 <= i < j < |ds| ==> Differ(ds, i, j)
    ensures DecodeItems(items, |items|, offers) == Some(ds)
  {
    forall i | 0 <= i < |items| ensures DecodeItem(items[i], offers) == Some(ds[i]) {
      assert ItemAt(items, ds, i, offers);
      ItemMeans(items[i], ds[i], offers);
    }
    forall i, j | 0 <= i < j < |ds| ensures ds[i].id != ds[j].id { assert Differ(ds, i, j); }
    AllDecode(items, ds, |ds|, offers);
    assert ds[..|ds|] == ds;
  }

  /** A reply decodes to these judgments if and only if that is what its items say; any other reply is refused whole. */
  lemma ReplyMeans(payload: Json, ds: seq<Decision>, offers: map<string, Offer>)
    ensures Decode(payload, offers) == Some(ds) <==> ReplySays(payload, ds, offers)
  {
    if Decode(payload, offers) == Some(ds) {
      var items := ItemsOf(payload).value;
      ItemsSay(items, ds, |items|, offers);
    } else if ReplySays(payload, ds, offers) {
      SayingItemsDecode(payload.fields["relations"].items, ds, offers);
    }
  }

  /** Whatever decodes refers to its evidence as [0, 1] and in no other way: any other reference refuses the reply. */
  lemma ReferencesAreExact(payload: Json, i: nat, offers: map<string, Offer>)
    requires Decode(payload, offers).Some? && i < |payload.fields["relations"].items|
    ensures var item := payload.fields["relations"].items[i];
      item.JObj? && ("evidence_refs" in item.fields ==> item.fields["evidence_refs"] == JList([JInt(0), JInt(1)]))
  {
    var ds := Decode(payload, offers).value;
    ReplyMeans(payload, ds, offers);
    assert ItemAt(payload.fields["relations"].items, ds, i, offers);
  }

  /** The item that judges one offer in the prescribed form: its id, the relation, the direction, both references. */
  function Prescribed(id: string, relation: string, reverse: bool): Json {
    JObj(map["candidate_id" := JStr(id), "relation" := JStr(relation), "reverse" := JBool(reverse),
             "evidence_refs" := JList([JInt(0), JInt(1)])])
  }

  /** A reply in the prescribed form about distinct candidates decodes to exactly what it says. */
  lemma PrescribedDecodes(ids: seq<string>, ds: seq<Decision>, offers: map<string, Offer>)
    requires |ids| == |ds| <= |offers| && forall i, j :: 0 <= i < j < |ds| ==> Differ(ds, i, j)
    requires forall i :: 0 <= i < |ds| ==> ids[i] in offers && KnownRelation(ds[i].relation)
    requires forall i :: 0 <= i < |ds| ==>
      ds[i] == Decision(offers[ids[i]].id, ds[i].relation, ds[i].reverse, offers[ids[i]].left, offers[ids[i]].right)
    ensures Decode(JObj(map["relations" := JList(seq(|ids|, i requires 0 <= i < |ids| =>
              Prescribed(ids[i], ds[i].relation, ds[i].reverse)))]), offers) == Some(ds)
  {
    var items := seq(|ids|, i requires 0 <= i < |ids| => Prescribed(ids[i], ds[i].relation, ds[i].reverse));
    forall i | 0 <= i < |items| ensures ItemAt(items, ds, i, offers) { assert items[i] == Prescribed(ids[i], ds[i].relation, ds[i].reverse); }
    ReplyMeans(JObj(map["relations" := JList(items)]), ds, offers);
  }

  // ---- batch ids ----

  /** Eight candidates to a batch: as few batches as hold them all, none of them empty. */
  lemma BatchesHold(n: nat)
    ensures n <= 8 * Batches(n) < n + 8
  {
  }

  /** Candidate `k` of batch `b` goes by the name "c1" to "c8", and no other name is known. */
  lemma BatchNames(offers: seq<Offer>, b: nat)
    requires 8 * b <= |offers|
    ensures var n := if |offers| - 8 * b < 8 then |offers| - 8 * b else 8;
      var names := ["c1", "c2", "c3", "c4", "c5", "c6", "c7", "c8"];
      && (forall k :: 0 <= k < n ==> names[k] in BatchAt(offers, b) && BatchAt(offers, b)[names[k]] == offers[8 * b + k])
      && (forall name :: name in BatchAt(offers, b) ==> exists k :: 0 <= k < n && name == names[k])
  {
    NamesUpTo(offers, 8 * b, if |offers| - 8 * b < 8 then |offers| - 8 * b else 8);
  }

  lemma {:induction false} NamesUpTo(offers: seq<Offer>, off: nat, n: nat)
    requires off + n <= |offers| && n <= 8
    ensures var names := ["c1", "c2", "c3", "c4", "c5", "c6", "c7", "c8"];
      && (forall k :: 0 <= k < n ==> names[k] in BatchById(offers, off, n) && BatchById(offers, off, n)[names[k]] == offers[off + k])
      && (forall name :: name in BatchById(offers, off, n) ==> exists k :: 0 <= k < n && name == names[k])
  {
    if n > 0 {
      NamesUpTo(offers, off, n - 1);
      NameOf(n - 1);
    }
  }

  lemma NameOf(k: nat)
    requires k < 8
    ensures ShortId(k) == ["c1", "c2", "c3", "c4", "c5", "c6", "c7", "c8"][k]
  {
  }
}
