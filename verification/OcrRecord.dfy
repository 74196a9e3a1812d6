/**
 The stored form of a transcribed page and the validator that admits it. JSON text stands for
 the value it encodes, and a digest for the value digested, so equal digests mean equal values.
 */
module OcrRecord {
  import opened Common

  const CACHE_VERSION: int := 1

  /** The text of a page, with what the readability patterns find in it. */
  datatype Text = Text(content: string, unreadable: bool)

  datatype Json =
    | Null | Bool(b: bool) | Int(n: int) | Float(r: real)
    | Name(name: string) | Prose(text: Text) | Hash(of: Json)
    | List(items: seq<Json>) | Obj(fields: map<string, Json>)

  // ---- the page ----

  datatype Status = Transcribed | Blank

  datatype PageText = PageText(status: Status, text: Text)

  predicate IsControl(c: char) {
    c <= '\U{08}' || '\U{0B}' <= c <= '\U{0C}' || '\U{0E}' <= c <= '\U{1F}' || c == '\U{7F}'
  }

  predicate PageOk(p: PageText) {
    && (p.status == Transcribed ==> exists i :: 0 <= i < |p.text.content| && !IsBlank(p.text.content[i]))
    && (p.status == Blank ==> p.text.content == "")
    && !p.text.unreadable
    && forall i :: 0 <= i < |p.text.content| ==> !IsControl(p.text.content[i])
  }

  type Page = p: PageText | PageOk(p) witness PageText(Blank, Text("", false))

  function StatusName(status: Status): string {
    match status case Transcribed => "transcribed" case Blank => "blank"
  }

  function PageJson(p: Page): Json {
    Obj(map["status" := Name(StatusName(p.status)), "text" := Prose(p.text)])
  }

  /** `_validate_transcription`: exactly a known status and a text that fits it. */
  predicate ValidTranscription(v: Json) {
    && v.Obj? && v.fields.Keys == {"status", "text"} && v.fields["status"].Name? && v.fields["text"].Prose?
    && v.fields["status"].name in {"transcribed", "blank"}
    && var status := if v.fields["status"].name == "transcribed" then Transcribed else Blank;
       PageOk(PageText(status, v.fields["text"].text))
  }

  function PageOf(v: Json): Page
    requires ValidTranscription(v)
  {
    PageText(if v.fields["status"].name == "transcribed" then Transcribed else Blank, v.fields["text"].text)
  }

  // ---- token usage ----

  const TOKEN_NAMES: set<string> := {"inputTokens", "outputTokens", "totalTokens"}

  type Usage = u: map<string, nat> | TOKEN_NAMES <= u.Keys
    witness map["inputTokens" := 0, "outputTokens" := 0, "totalTokens" := 0]

  const ZERO_USAGE: Usage := map["inputTokens" := 0, "outputTokens" := 0, "totalTokens" := 0]

  function Spent(u: Usage, name: string): nat {
    if name in u then u[name] else 0
  }

  predicate IsCount(v: Json) {
    v.Int? && v.n >= 0
  }

  predicate CountsTokens(name: string) {
    |name| >= 6 && name[|name| - 6..] == "Tokens"
  }

  /** `_validate_raw_usage`: the three counters, and every counter of tokens a natural number. */
  predicate ValidRawUsage(v: Json) {
    && v.Obj? && TOKEN_NAMES <= v.fields.Keys
    && forall name :: name in v.fields && CountsTokens(name) ==> IsCount(v.fields[name])
  }

  type RawUsage = v: Json | ValidRawUsage(v)
    witness Obj(map["inputTokens" := Int(0), "outputTokens" := Int(0), "totalTokens" := Int(0)])

  /** `_add_usage`: natural numbers are added under their names, anything else is passed over. */
  function AddUsage(u: Usage, raw: map<string, Json>): (r: Usage)
    ensures forall name :: Spent(r, name) == Spent(u, name) + Reported(raw, name)
  {
    map name | name in u.Keys + raw.Keys && (name in u || IsCount(raw[name])) :: Spent(u, name) + Reported(raw, name)
  }

  function Reported(raw: map<string, Json>, name: string): nat {
    if name in raw && IsCount(raw[name]) then raw[name].n else 0
  }

  function UsageJson(u: Usage): Json {
    Obj(map name | name in u :: Int(u[name]))
  }

  predicate ValidUsage(v: Json) {
    && v.Obj? && TOKEN_NAMES <= v.fields.Keys
    && forall name :: name in v.fields ==> IsCount(v.fields[name])
  }

  function UsageOf(v: Json): Usage
    requires ValidUsage(v)
  {
    map name | name in v.fields :: v.fields[name].n
  }

  // ---- the record ----

  /** A cache key is the digest of a page's bindings: document, page, model, prompt and limit. */
  datatype Key = Digest(bindings: Json)

  /** A success: its key, the page, the tokens spent on it, the last reply's own usage, and how
      many attempts reported none; records of an older build lack that count. */
  datatype Entry = Entry(key: Key, page: Page, usage: Usage, raw: RawUsage, unavailable: Option<nat>)

  const FIELDS: set<string> := {"cache_version", "cache_key", "bindings", "result", "usage", "raw_usage", "payload_sha256"}

  function Unsigned(e: Entry): map<string, Json> {
    var m := map["cache_version" := Int(CACHE_VERSION), "cache_key" := Hash(e.key.bindings), "bindings" := e.key.bindings,
                 "result" := PageJson(e.page), "usage" := UsageJson(e.usage), "raw_usage" := e.raw];
    match e.unavailable
    case Some(n) => m[UNAVAILABLE := Int(n)]
    case None => m
  }

  /** The record as `_generate` builds and signs it. */
  function Encode(e: Entry): Json {
    Obj(Unsigned(e)[SIGNATURE := Hash(Obj(Unsigned(e)))])
  }

  const SIGNATURE: string := "payload_sha256"
  const UNAVAILABLE: string := "usage_unavailable_attempts"

  function FieldsOf(unavailable: Option<nat>): set<string> {
    if unavailable.Some? then FIELDS + {UNAVAILABLE} else FIELDS
  }

  /** The fields, the binding to the request and the signature. */
  predicate BoundTo(m: map<string, Json>, bindings: Json, key: Key) {
    && (m.Keys == FIELDS || m.Keys == FIELDS + {UNAVAILABLE})
    && m["cache_version"] == Int(CACHE_VERSION) && m["cache_key"] == Hash(key.bindings) && m["bindings"] == bindings
    && m[SIGNATURE] == Hash(Obj(m - {SIGNATURE}))
  }

  /** The result and the token counts. */
  predicate ValidParts(m: map<string, Json>) {
    && "result" in m && "raw_usage" in m && "usage" in m
    && ValidTranscription(m["result"]) && ValidRawUsage(m["raw_usage"]) && ValidUsage(m["usage"])
    && (UNAVAILABLE in m ==> IsCount(m[UNAVAILABLE]))
  }

  /** `_validate_cache`. */
  predicate ValidCache(v: Json, bindings: Json, key: Key) {
    v.Obj? && BoundTo(v.fields, bindings, key) && ValidParts(v.fields)
  }

  /** What the validator returns. */
  function EntryOf(v: Json, bindings: Json, key: Key): Entry
    requires ValidCache(v, bindings, key)
  {
    Entry(key, PageOf(v.fields["result"]), UsageOf(v.fields["usage"]), v.fields["raw_usage"],
          if UNAVAILABLE in v.fields then Some(v.fields[UNAVAILABLE].n) else None)
  }

  // ---- the validator admits exactly what was built for its bindings ----

  lemma PageReadBack(p: Page)
    ensures ValidTranscription(PageJson(p)) && PageOf(PageJson(p)) == p
  {
    assert PageJson(p).fields.Keys == {"status", "text"};
  }

  lemma UsageReadBack(u: Usage)
    ensures ValidUsage(UsageJson(u)) && UsageOf(UsageJson(u)) == u
  {
    assert UsageJson(u).fields.Keys == u.Keys;
  }

  lemma UnsignedFields(e: Entry)
    ensures SIGNATURE !in Unsigned(e) && Unsigned(e).Keys + {SIGNATURE} == FieldsOf(e.unavailable)
    ensures Encode(e).fields - {SIGNATURE} == Unsigned(e)
  {
  }

  lemma EncodedParts(e: Entry)
    ensures var m := Encode(e).fields;
      && "result" in m && m["result"] == PageJson(e.page) && "usage" in m && m["usage"] == UsageJson(e.usage)
      && "raw_usage" in m && m["raw_usage"] == e.raw
      && (UNAVAILABLE in m <==> e.unavailable.Some?) && (e.unavailable.Some? ==> m[UNAVAILABLE] == Int(e.unavailable.value))
  {
  }

  lemma EncodedIsBound(e: Entry)
    ensures BoundTo(Encode(e).fields, e.key.bindings, e.key)
  {
    UnsignedFields(e);
    assert Encode(e).fields.Keys == FieldsOf(e.unavailable);
  }

  /** Every record that is generated is admitted under its own bindings, as it was. */
  lemma GeneratedIsAccepted(e: Entry)
    ensures ValidCache(Encode(e), e.key.bindings, e.key)
    ensures EntryOf(Encode(e), e.key.bindings, e.key) == e
  {
    EncodedIsBound(e);
    EncodedParts(e);
    PageReadBack(e.page);
    UsageReadBack(e.usage);
  }

  lemma PartsWereEncoded(v: Json, bindings: Json, key: Key)
    requires ValidCache(v, bindings, key)
    ensures var e := EntryOf(v, bindings, key);
      && PageJson(e.page) == v.fields["result"] && UsageJson(e.usage) == v.fields["usage"]
  {
    var e := EntryOf(v, bindings, key);
    assert PageJson(e.page).fields == v.fields["result"].fields;
    assert UsageJson(e.usage).fields == v.fields["usage"].fields;
  }

  lemma WithoutKeys(m: map<string, Json>, w: map<string, Json>, name: string)
    requires m - {name} == w - {name} && name in m && name in w && m[name] == w[name]
    ensures m == w
  {
    assert m == (m - {name})[name := m[name]];
    assert w == (w - {name})[name := w[name]];
  }

  lemma UnsignedAt(v: Json, bindings: Json, key: Key, name: string)
    requires ValidCache(v, bindings, key) && key == Digest(bindings) && name in v.fields && name != SIGNATURE
    ensures name in Unsigned(EntryOf(v, bindings, key)) && Unsigned(EntryOf(v, bindings, key))[name] == v.fields[name]
  {
    PartsWereEncoded(v, bindings, key);
    assert name in {"cache_version", "cache_key", "bindings", "result", "usage", "raw_usage", UNAVAILABLE};
  }

  lemma UnsignedWasEncoded(v: Json, bindings: Json, key: Key)
    requires ValidCache(v, bindings, key) && key == Digest(bindings)
    ensures Unsigned(EntryOf(v, bindings, key)) == v.fields - {SIGNATURE}
  {
    var e := EntryOf(v, bindings, key);
    var m := v.fields - {SIGNATURE};
    PartsWereEncoded(v, bindings, key);
    UnsignedFields(e);
    assert Unsigned(e).Keys == m.Keys;
    forall name | name in m ensures Unsigned(e)[name] == m[name] { UnsignedAt(v, bindings, key, name); }
  }

  /** Whatever is admitted is the record of an entry for exactly the requested bindings. */
  lemma AcceptedWasEncoded(v: Json, bindings: Json, key: Key)
    requires ValidCache(v, bindings, key) && key == Digest(bindings)
    ensures v == Encode(EntryOf(v, bindings, key))
  {
    var e := EntryOf(v, bindings, key);
    UnsignedWasEncoded(v, bindings, key);
    UnsignedFields(e);
    WithoutKeys(v.fields, Encode(e).fields, SIGNATURE);
  }

  /** One signature, one record: no record is admitted for two sets of bindings, and none
      survives a change under its signature. */
  lemma RecordsAreBound(v: Json, w: Json, b: Json, c: Json)
    requires ValidCache(v, b, Digest(b)) && ValidCache(w, c, Digest(c))
    requires v.fields[SIGNATURE] == w.fields[SIGNATURE]
    ensures v == w && b == c
  {
    WithoutKeys(v.fields, w.fields, SIGNATURE);
  }

  // ---- what an admitted record holds ----

  /** A page: some text that is not blank, or none at all; nothing unreadable and no control character but line ends and tabs. */
  predicate IsPage(p: PageText) {
    && (if p.status == Blank then p.text.content == ""
        else exists i :: 0 <= i < |p.text.content| && !IsBlank(p.text.content[i]))
    && !p.text.unreadable
    && forall i :: 0 <= i < |p.text.content| ==>
         var n := p.text.content[i] as int; n != 127 && (n >= 32 || n in {9, 10, 13})
  }

  lemma PageMeans(p: PageText)
    ensures PageOk(p) <==> IsPage(p)
  {
    assert forall c: char :: IsControl(c) <==> (c as int == 127 || (c as int < 32 && c as int !in {9, 10, 13}));
  }

  /** Counts of input, output and total tokens, and no count of tokens that is not a natural number. */
  predicate IsRawUsage(v: Json) {
    && v.Obj? && "inputTokens" in v.fields && "outputTokens" in v.fields && "totalTokens" in v.fields
    && forall name :: name in v.fields && |name| >= 6 && name[|name| - 6..] == "Tokens" ==> IsNatural(v.fields[name])
  }

  predicate IsNatural(v: Json) { v.Int? && v.n >= 0 }

  lemma RawUsageMeans(v: Json)
    ensures ValidRawUsage(v) <==> IsRawUsage(v)
  {
    if v.Obj? {
      assert TOKEN_NAMES <= v.fields.Keys <==> "inputTokens" in v.fields && "outputTokens" in v.fields && "totalTokens" in v.fields;
    }
  }

  /** The record of an entry, field by field: version 1, the digest of the bindings as key, the bindings, the page as
      status and text, the counts, and a digest of all that. */
  lemma RecordSays(e: Entry)
    ensures var m := Encode(e).fields;
      && m.Keys == (if e.unavailable.Some? then RECORD_NAMES + {"usage_unavailable_attempts"} else RECORD_NAMES)
      && m["cache_version"] == Int(1) && m["cache_key"] == Hash(e.key.bindings) && m["bindings"] == e.key.bindings
      && m["raw_usage"] == e.raw && m["payload_sha256"] == Hash(Obj(m - {"payload_sha256"}))
      && (e.unavailable.Some? ==> m["usage_unavailable_attempts"] == Int(e.unavailable.value))
    ensures IsPageRecord(Encode(e).fields["result"], e.page) && IsUsageRecord(Encode(e).fields["usage"], e.usage)
  {
    UnsignedFields(e);
    EncodedIsBound(e);
    EncodedParts(e);
    assert FieldsOf(e.unavailable) == if e.unavailable.Some? then RECORD_NAMES + {"usage_unavailable_attempts"} else RECORD_NAMES;
  }

  const RECORD_NAMES: set<string> :=
    {"cache_version", "cache_key", "bindings", "result", "usage", "raw_usage", "payload_sha256"}

  predicate IsPageRecord(v: Json, page: PageText) {
    && v.Obj? && v.fields.Keys == {"status", "text"} && v.fields["text"] == Prose(page.text)
    && v.fields["status"] == Name(if page.status == Blank then "blank" else "transcribed")
  }

  predicate IsUsageRecord(v: Json, usage: map<string, nat>) {
    v.Obj? && v.fields.Keys == usage.Keys && forall name :: name in usage ==> v.fields[name] == Int(usage[name])
  }
}
