/** What the assembled parts say: the texts of titles and body lines, read part by part. */
module PartTexts {
  import opened Common
  import opened DocumentParts
  import opened PartAssembly

  // ---- titles ----

  /** `u` is how a title shows `t`: whole within 80 characters, else its first 79 without the blanks
      they end in, and an ellipsis. */
  predicate ShowsTitle(u: string, t: string) {
    if |t| <= 80 then u == t
    else
      && 1 <= |u| <= 80 && u[|u| - 1] == '\U{2026}' && u[..|u| - 1] <= t && BlankFrom(t[..79], |u| - 1, IsBlank)
      && (|u| > 1 ==> !IsBlank(u[|u| - 2]))
  }

  lemma TitleMeans(title: string, stem: string) returns (t: string, i: nat)
    ensures TrimmedAt(if title == [] then stem else title, t, i, IsBlank) && ShowsTitle(Title(title, stem), t)
  {
    i := TrimMeans(if title == [] then stem else title, IsBlank);
    t := Strip(if title == [] then stem else title);
    TrimRightMeans(t[..if |t| > 80 then 79 else 0], IsBlank);
  }

  // ---- texts ----

  /** A body line's text without the signs of a heading of this level. */
  function Unmarked(text: string, level: nat): string {
    if level == 0 || |text| <= level then text else text[level + 1..]
  }

  function LineAt(pages: seq<Page>, at: Place): Line {
    if 1 <= at.page <= |pages| && at.index < |pages[at.page - 1].lines| then pages[at.page - 1].lines[at.index] else Line(0, [])
  }

  function TextOf(o: Out, pages: seq<Page>): seq<string> {
    if o.Body? then [Unmarked(o.text, LineAt(pages, Place(o.page, o.index)).level)] else []
  }

  function TitleText(p: Part): seq<string> {
    if p.heading.Some? then [p.title] else []
  }

  /** The texts of the parts up to line `m` of part `k`; a title that stands for its heading is read as its text. */
  function TextsTo(parts: seq<Part>, pages: seq<Page>, k: nat, m: nat): seq<string>
    requires k < |parts| && m <= |parts[k].lines|
    decreases k, m
  {
    if m > 0 then TextsTo(parts, pages, k, m - 1) + TextOf(parts[k].lines[m - 1], pages)
    else if k > 0 then TextsTo(parts, pages, k - 1, |parts[k - 1].lines|) + TitleText(parts[k])
    else TitleText(parts[k])
  }

  function Texts(parts: seq<Part>, pages: seq<Page>): seq<string> {
    if parts == [] then [] else TextsTo(parts, pages, |parts| - 1, |Last(parts).lines|)
  }

  /** A heading with no text, or with a blank at an end: a title shows it trimmed, or shows the document's name. */
  predicate Ragged(l: Line) {
    l.level > 0 && (l.text == [] || IsBlank(l.text[0]) || IsBlank(l.text[|l.text| - 1]))
  }

  /** The line's text, or the title of a part that stands for such a heading. */
  predicate Says(text: string, l: Line, stem: string) {
    text == l.text || (Ragged(l) && |l.text| <= 80 && text == Title(l.text, stem))
  }

  predicate AllSay(texts: seq<string>, at: seq<Place>, pages: seq<Page>, stem: string) {
    |texts| == |at| && forall i :: 0 <= i < |at| ==> Says(texts[i], LineAt(pages, at[i]), stem)
  }

  lemma SayBoth(a: seq<string>, p: seq<Place>, b: seq<string>, q: seq<Place>, pages: seq<Page>, stem: string)
    requires AllSay(a, p, pages, stem) && AllSay(b, q, pages, stem)
    ensures AllSay(a + b, p + q, pages, stem)
  {
  }

  lemma BodySays(p: Part, m: nat, pages: seq<Page>, stem: string)
    requires m < |p.lines| && PartOk(p, pages, stem)
    ensures AllSay(TextOf(p.lines[m], pages), PlaceOf(p.lines[m]), pages, stem)
  {
    assert FaithfulAt(p, m, pages);
  }

  lemma TitleSays(p: Part, pages: seq<Page>, stem: string)
    requires PartOk(p, pages, stem)
    ensures AllSay(TitleText(p), HeadingOf(p), pages, stem)
  {
    if p.heading.Some? && !Ragged(LineAt(pages, p.heading.value)) {
      TitleKeepsHeading(LineAt(pages, p.heading.value).text, stem);
    }
  }

  lemma {:induction false} TextsSay(parts: seq<Part>, pages: seq<Page>, stem: string, k: nat, m: nat)
    requires k < |parts| && m <= |parts[k].lines| && forall i :: 0 <= i < |parts| ==> PartOkAt(parts, i, pages, stem)
    ensures AllSay(TextsTo(parts, pages, k, m), ReadTo(parts, k, m), pages, stem)
    decreases k, m
  {
    assert PartOkAt(parts, k, pages, stem);
    if m > 0 {
      TextsSay(parts, pages, stem, k, m - 1);
      BodySays(parts[k], m - 1, pages, stem);
      var o := parts[k].lines[m - 1];
      SayBoth(TextsTo(parts, pages, k, m - 1), ReadTo(parts, k, m - 1), TextOf(o, pages), PlaceOf(o), pages, stem);
    } else {
      TitleSays(parts[k], pages, stem);
      if k > 0 {
        var n := |parts[k - 1].lines|;
        TextsSay(parts, pages, stem, k - 1, n);
        SayBoth(TextsTo(parts, pages, k - 1, n), ReadTo(parts, k - 1, n), TitleText(parts[k]), HeadingOf(parts[k]), pages, stem);
      }
    }
  }

  function LineTexts(pages: seq<Page>, at: seq<Place>): (r: seq<string>)
    ensures |r| == |at| && forall i :: 0 <= i < |at| ==> r[i] == LineAt(pages, at[i]).text
  {
    seq(|at|, i requires 0 <= i < |at| => LineAt(pages, at[i]).text)
  }

  predicate NoneRagged(pages: seq<Page>) {
    forall i, j :: 0 <= i < |pages| && 0 <= j < |pages[i].lines| ==> !Ragged(pages[i].lines[j])
  }

  lemma LineAtIsLine(pages: seq<Page>, at: Place)
    requires NoneRagged(pages)
    ensures !Ragged(LineAt(pages, at))
  {
  }

  /**
   * The texts of an assembled document, read part by part, are the texts of its pages' lines, in
   * order; the only line that may read otherwise is a heading with no text or with a blank at an end.
   */
  lemma DocumentSays(parts: seq<Part>, pages: seq<Page>, stem: string)
    requires PartsOk(parts, |parts|, pages, stem) && Reading(parts) == AllLines(pages)
    ensures AllSay(Texts(parts, pages), AllLines(pages), pages, stem)
    ensures NoneRagged(pages) ==> Texts(parts, pages) == LineTexts(pages, AllLines(pages))
  {
    if parts != [] { TextsSay(parts, pages, stem, |parts| - 1, |Last(parts).lines|); }
    var texts, at := Texts(parts, pages), AllLines(pages);
    if NoneRagged(pages) {
      forall i | 0 <= i < |at| ensures texts[i] == LineAt(pages, at[i]).text {
        LineAtIsLine(pages, at[i]);
        assert Says(texts[i], LineAt(pages, at[i]), stem);
      }
    }
  }

  // ---- sizes ----

  /** The first `k` lines as they are written to the file. */
  function FileText(lines: seq<Out>, k: nat): string
    requires k <= |lines|
  {
    if k == 0 then [] else FileText(lines, k - 1) + lines[k - 1].text + "\n"
  }

  /** A part's size is the length of its lines in the file. */
  lemma {:induction false} SizeIsLength(lines: seq<Out>, k: nat)
    requires k <= |lines|
    ensures Size(lines, k) == |FileText(lines, k)|
  {
    if k > 0 { SizeIsLength(lines, k - 1); }
  }
}
