/** The parts a document is cut into, and what one page adds to them. */
module DocumentParts {
  import opened Common

  const PART_MIN: nat := 8_000
  const PART_SOFT_MAX: nat := 12_000
  const PART_HARD_MAX: nat := 15_000
  const PART_PAGE_MAX: nat := 16_000
  const TITLE_MAX: nat := 80

  /** A line of a page: level 0 is body text, any other a heading. */
  datatype Line = Line(level: nat, text: string)

  /**
   * A page as it reaches assembly: its lines; for a page with chosen images, the line of each image
   * that could be saved; its marker line; for a transcribed page, its provenance line; and the title
   * of a part that opens on it without a heading.
   */
  datatype Page = Page(
    lines: seq<Line>, images: Option<seq<Option<string>>>, marker: string, note: Option<string>, fallback: string)

  /** Where a line stands: its page, counted from one, and its place on the page. */
  datatype Place = Place(page: nat, index: nat)

  /** A line of a part, with where it comes from. */
  datatype Out =
    | Marker(page: nat, text: string)
    | Note(page: nat, text: string)
    | Image(page: nat, index: nat, text: string)
    | Body(page: nat, index: nat, text: string)
    | Filler(page: nat, text: string)

  /** A part; `heading` is the line whose text it is titled with, when the title stands for that line. */
  datatype Part = Part(title: string, heading: Option<Place>, first: nat, last: nat, lines: seq<Out>, size: nat)

  // ---- titles and formatting ----

  function Strip(s: string): string { TrimRight(TrimLeft(s, IsBlank), IsBlank) }

  /** The title a part shows: stripped, and cut with an ellipsis when longer than 80 characters. */
  function Title(title: string, stem: string): string {
    var t := Strip(if title == [] then stem else title);
    if |t| > TITLE_MAX then TrimRight(t[..TITLE_MAX - 1], IsBlank) + ['\U{2026}'] else t
  }

  /** A heading that is not blank at its ends and not too long is its part's title, unchanged. */
  lemma TitleKeepsHeading(text: string, stem: string)
    requires 0 < |text| <= 80 && !IsBlank(text[0]) && !IsBlank(text[|text| - 1])
    ensures Title(text, stem) == text
  {
  }

  function Hashes(n: nat): string {
    if n == 0 then [] else Hashes(n - 1) + "#"
  }

  function Format(l: Line): string {
    if l.level == 0 then l.text else Hashes(l.level) + " " + l.text
  }

  /** How a line is written: text as it is, a heading behind as many signs as its level and a blank. */
  predicate WrittenAs(text: string, l: Line) {
    if l.level == 0 then text == l.text
    else
      && |text| == l.level + 1 + |l.text| && (forall k :: 0 <= k < l.level ==> text[k] == '#')
      && text[l.level] == ' ' && text[l.level + 1..] == l.text
  }

  lemma {:induction false} HashesMean(n: nat)
    ensures |Hashes(n)| == n && forall k :: 0 <= k < n ==> Hashes(n)[k] == '#'
  {
    if n > 0 { HashesMean(n - 1); }
  }

  lemma FormatMeans(l: Line)
    ensures WrittenAs(Format(l), l) && Cost(Format(l)) == LineCost(l)
  {
    HashesMean(l.level);
  }

  // ---- the parts as values ----

  function Opened(parts: seq<Part>, title: string, heading: Option<Place>, page: nat): seq<Part> {
    parts + [Part(title, heading, page, page, [], 0)]
  }

  function Cost(text: string): nat { |text| + 1 }

  function AddTo(p: Part, o: Out): Part {
    p.(lines := p.lines + [o], size := p.size + Cost(o.text))
  }

  function ReplaceLast(parts: seq<Part>, p: Part): (r: seq<Part>)
    requires parts != []
    ensures |r| == |parts| && r[|parts| - 1] == p && forall k :: 0 <= k < |parts| - 1 ==> r[k] == parts[k]
  {
    parts[..|parts| - 1] + [p]
  }

  function Last(parts: seq<Part>): Part
    requires parts != []
  {
    parts[|parts| - 1]
  }

  // ---- reading the parts back ----

  /** What a line of a part gives to read: its place, if it is a line of the document. */
  function PlaceOf(o: Out): seq<Place> {
    if o.Body? then [Place(o.page, o.index)] else []
  }

  function HeadingOf(p: Part): seq<Place> {
    if p.heading.Some? then [p.heading.value] else []
  }

  /** The lines of the document read part by part, up to line `m` of part `k`; a title stands for its heading. */
  function ReadTo(parts: seq<Part>, k: nat, m: nat): seq<Place>
    requires k < |parts| && m <= |parts[k].lines|
    decreases k, m
  {
    if m > 0 then ReadTo(parts, k, m - 1) + PlaceOf(parts[k].lines[m - 1])
    else if k > 0 then ReadTo(parts, k - 1, |parts[k - 1].lines|) + HeadingOf(parts[k])
    else HeadingOf(parts[k])
  }

  function Reading(parts: seq<Part>): seq<Place> {
    if parts == [] then [] else ReadTo(parts, |parts| - 1, |Last(parts).lines|)
  }

  lemma {:induction false} ReadPrefix(a: seq<Part>, b: seq<Part>, k: nat, m: nat)
    requires k < |a| && k < |b| && m <= |a[k].lines| && m <= |b[k].lines|
    requires forall i :: 0 <= i < k ==> a[i] == b[i]
    requires a[k].heading == b[k].heading && forall i :: 0 <= i < m ==> a[k].lines[i] == b[k].lines[i]
    ensures ReadTo(a, k, m) == ReadTo(b, k, m)
    decreases k, m
  {
    if m > 0 {
      ReadPrefix(a, b, k, m - 1);
    } else if k > 0 {
      ReadPrefix(a, b, k - 1, |a[k - 1].lines|);
    }
  }

  // ---- the images left in the parts ----

  function ImageOf(o: Out): seq<Place> {
    if o.Image? then [Place(o.page, o.index)] else []
  }

  /** The images of the parts in order, up to line `m` of part `k`. */
  function ShownTo(parts: seq<Part>, k: nat, m: nat): seq<Place>
    requires k < |parts| && m <= |parts[k].lines|
    decreases k, m
  {
    if m > 0 then ShownTo(parts, k, m - 1) + ImageOf(parts[k].lines[m - 1])
    else if k > 0 then ShownTo(parts, k - 1, |parts[k - 1].lines|)
    else []
  }

  function Shown(parts: seq<Part>): seq<Place> {
    if parts == [] then [] else ShownTo(parts, |parts| - 1, |Last(parts).lines|)
  }

  lemma {:induction false} ShownPrefix(a: seq<Part>, b: seq<Part>, k: nat, m: nat)
    requires k < |a| && k < |b| && m <= |a[k].lines| && m <= |b[k].lines|
    requires forall i :: 0 <= i < k ==> a[i] == b[i]
    requires forall i :: 0 <= i < m ==> a[k].lines[i] == b[k].lines[i]
    ensures ShownTo(a, k, m) == ShownTo(b, k, m)
    decreases k, m
  {
    if m > 0 {
      ShownPrefix(a, b, k, m - 1);
    } else if k > 0 {
      ShownPrefix(a, b, k - 1, |a[k - 1].lines|);
    }
  }

  lemma AddShows(parts: seq<Part>, o: Out)
    requires parts != []
    ensures Shown(ReplaceLast(parts, AddTo(Last(parts), o))) == Shown(parts) + ImageOf(o)
  {
    ShownPrefix(parts, ReplaceLast(parts, AddTo(Last(parts), o)), |parts| - 1, |Last(parts).lines|);
  }

  lemma WidenShows(parts: seq<Part>, page: nat)
    requires parts != []
    ensures Shown(ReplaceLast(parts, Last(parts).(last := page))) == Shown(parts)
  {
    ShownPrefix(parts, ReplaceLast(parts, Last(parts).(last := page)), |parts| - 1, |Last(parts).lines|);
  }

  lemma OpenShows(parts: seq<Part>, title: string, heading: Option<Place>, page: nat)
    ensures Shown(Opened(parts, title, heading, page)) == Shown(parts)
  {
    if parts != [] {
      ShownPrefix(parts, Opened(parts, title, heading, page), |parts| - 1, |Last(parts).lines|);
    }
  }

  // ---- reading the parts back, one change at a time ----

  lemma AddReads(parts: seq<Part>, o: Out)
    requires parts != []
    ensures Reading(ReplaceLast(parts, AddTo(Last(parts), o))) == Reading(parts) + PlaceOf(o)
  {
    ReadPrefix(parts, ReplaceLast(parts, AddTo(Last(parts), o)), |parts| - 1, |Last(parts).lines|);
  }

  lemma WidenReads(parts: seq<Part>, page: nat)
    requires parts != []
    ensures Reading(ReplaceLast(parts, Last(parts).(last := page))) == Reading(parts)
  {
    ReadPrefix(parts, ReplaceLast(parts, Last(parts).(last := page)), |parts| - 1, |Last(parts).lines|);
  }

  lemma OpenReads(parts: seq<Part>, title: string, heading: Option<Place>, page: nat)
    ensures var r := Opened(parts, title, heading, page); Reading(r) == Reading(parts) + HeadingOf(Last(r))
  {
    if parts != [] {
      ReadPrefix(parts, Opened(parts, title, heading, page), |parts| - 1, |Last(parts).lines|);
    }
  }

  // ---- the lines of the document ----

  /** All lines of the first `i` pages and the first `j` of the next, in order. */
  function LinesUpTo(pages: seq<Page>, i: nat, j: nat): seq<Place>
    requires i <= |pages|
    decreases i, j
  {
    if j > 0 then LinesUpTo(pages, i, j - 1) + [Place(i + 1, j - 1)]
    else if i > 0 then LinesUpTo(pages, i - 1, |pages[i - 1].lines|)
    else []
  }

  function AllLines(pages: seq<Page>): seq<Place> {
    LinesUpTo(pages, |pages|, 0)
  }

  function ImagesOf(p: Page): seq<Option<string>> {
    if p.images.Some? then p.images.value else []
  }

  /** The images that could be saved of the first `i` pages and of the first `k` images of the next, in order. */
  function SavedUpTo(pages: seq<Page>, i: nat, k: nat): seq<Place>
    requires i <= |pages| && (k > 0 ==> i < |pages| && k <= |ImagesOf(pages[i])|)
    decreases i, k
  {
    if k > 0 then SavedUpTo(pages, i, k - 1) + if ImagesOf(pages[i])[k - 1].Some? then [Place(i + 1, k - 1)] else []
    else if i > 0 then SavedUpTo(pages, i - 1, |ImagesOf(pages[i - 1])|)
    else []
  }

  function AllSaved(pages: seq<Page>): seq<Place> {
    SavedUpTo(pages, |pages|, 0)
  }

  // ---- what is true of a part ----

  /** The page of a line changes only at a marker: every other line has its own page's line before it,
      and an image none of the page's text. */
  predicate Marked(lines: seq<Out>) {
    forall k :: 0 <= k < |lines| ==> Follows(lines, k)
  }

  predicate IsText(o: Out) { o.Body? || o.Filler? }

  predicate Follows(lines: seq<Out>, k: nat)
    requires k < |lines|
  {
    || lines[k].Marker?
    || (k > 0 && lines[k - 1].page == lines[k].page && (lines[k].Image? ==> !IsText(lines[k - 1])))
  }

  /** In such a part each line stands below its own page's marker, with nothing of another page between. */
  lemma {:induction false} OwnMarker(lines: seq<Out>, k: nat)
    requires k < |lines| && Marked(lines)
    ensures exists m :: 0 <= m <= k && lines[m].Marker? && forall j :: m <= j <= k ==> lines[j].page == lines[k].page
  {
    assert Follows(lines, k);
    if lines[k].Marker? {
      assert forall j :: k <= j <= k ==> lines[j].page == lines[k].page;
    } else {
      OwnMarker(lines, k - 1);
      var m :| 0 <= m <= k - 1 && lines[m].Marker? && forall j :: m <= j <= k - 1 ==> lines[j].page == lines[k - 1].page;
      assert forall j :: m <= j <= k ==> lines[j].page == lines[k].page;
    }
  }

  function Size(lines: seq<Out>, k: nat): nat
    requires k <= |lines|
  {
    if k == 0 then 0 else Size(lines, k - 1) + Cost(lines[k - 1].text)
  }

  lemma {:induction false} SizePrefix(a: seq<Out>, b: seq<Out>, k: nat)
    requires k <= |a| && k <= |b| && forall i :: 0 <= i < k ==> a[i] == b[i]
    ensures Size(a, k) == Size(b, k)
  {
    if k > 0 { SizePrefix(a, b, k - 1); }
  }

  /** A body line is the page's line as written; an image is one of the page's; marker and provenance are its own. */
  predicate Faithful(o: Out, pages: seq<Page>) {
    && 1 <= o.page <= |pages|
    && (o.Body? ==> o.index < |pages[o.page - 1].lines| && WrittenAs(o.text, pages[o.page - 1].lines[o.index]))
    && (o.Image? ==> o.index < |ImagesOf(pages[o.page - 1])| && ImagesOf(pages[o.page - 1])[o.index] == Some(o.text))
    && (o.Marker? ==> o.text == pages[o.page - 1].marker) && (o.Note? ==> pages[o.page - 1].note == Some(o.text))
    && (o.Filler? ==> o.text == "")
  }

  /** The title of a part stands for a heading of its first page, and shows it. */
  predicate TitleOk(p: Part, pages: seq<Page>, stem: string) {
    p.heading.Some? ==>
      var h := p.heading.value;
      && h.page == p.first && 1 <= h.page <= |pages| && h.index < |pages[h.page - 1].lines|
      && pages[h.page - 1].lines[h.index].level > 0 && |pages[h.page - 1].lines[h.index].text| <= 80
      && p.title == Title(pages[h.page - 1].lines[h.index].text, stem)
  }

  predicate PartOk(p: Part, pages: seq<Page>, stem: string) {
    && TitleOk(p, pages, stem)
    && p.size == Size(p.lines, |p.lines|) && Marked(p.lines) && 1 <= p.first <= p.last <= |pages|
    && AllFaithful(p, pages)
  }

  predicate AllFaithful(p: Part, pages: seq<Page>) {
    forall k :: 0 <= k < |p.lines| ==> FaithfulAt(p, k, pages)
  }

  predicate FaithfulAt(p: Part, k: nat, pages: seq<Page>)
    requires k < |p.lines|
  {
    Faithful(p.lines[k], pages) && p.first <= p.lines[k].page <= p.last && NotedAt(p.lines, k, pages)
  }

  /** Provenance stands right below a marker, and nothing else does on a transcribed page. */
  predicate NotedAt(lines: seq<Out>, k: nat, pages: seq<Page>)
    requires k < |lines| && 1 <= lines[k].page <= |pages|
  {
    && (lines[k].Note? ==> k > 0 && lines[k - 1].Marker?)
    && (!lines[k].Note? && !lines[k].Marker? && k > 0 && lines[k - 1].Marker? ==> pages[lines[k].page - 1].note.None?)
  }

  /** On a transcribed page every line stands below the page's marker and its provenance. */
  lemma {:induction false} NoteAbove(p: Part, k: nat, pages: seq<Page>, stem: string)
    requires PartOk(p, pages, stem) && k < |p.lines| && !p.lines[k].Marker? && 1 <= p.lines[k].page <= |pages|
    requires pages[p.lines[k].page - 1].note.Some?
    ensures exists m :: 0 < m <= k && p.lines[m - 1].Marker? && p.lines[m].Note?
              && p.lines[m - 1].page == p.lines[m].page == p.lines[k].page && p.lines[m].text == pages[p.lines[k].page - 1].note.value
  {
    assert FaithfulAt(p, k, pages) && Follows(p.lines, k);
    if !p.lines[k].Note? { NoteAbove(p, k - 1, pages, stem); }
  }

  // ---- what a page can add ----

  function LineCosts(lines: seq<Line>, k: nat): nat
    requires k <= |lines|
  {
    if k == 0 then 0 else LineCosts(lines, k - 1) + LineCost(lines[k - 1])
  }

  /** A line's text and line end, and a heading's signs and blank. */
  function LineCost(l: Line): nat {
    |l.text| + 1 + if l.level == 0 then 0 else l.level + 1
  }

  function ImageCosts(images: seq<Option<string>>, k: nat): nat
    requires k <= |images|
  {
    if k == 0 then 0 else ImageCosts(images, k - 1) + if images[k - 1].Some? then Cost(images[k - 1].value) else 0
  }

  function MarkerCost(p: Page): nat {
    Cost(p.marker) + if p.note.Some? then Cost(p.note.value) else 0
  }

  /** The most a page adds to one part: its marker, its images, its lines, and one empty line if transcribed. */
  function Contribution(p: Page): nat {
    MarkerCost(p) + ImageCosts(ImagesOf(p), |ImagesOf(p)|) + LineCosts(p.lines, |p.lines|) + if p.note.Some? then 1 else 0
  }

  /** A part is smaller than the page limit plus what its own last page contributes. */
  predicate Bounded(p: Part, pages: seq<Page>) {
    1 <= p.last <= |pages| && p.size < 16_000 + Contribution(pages[p.last - 1])
  }

  // ---- all parts ----

  predicate PartOkAt(parts: seq<Part>, k: nat, pages: seq<Page>, stem: string)
    requires k < |parts|
  {
    PartOk(parts[k], pages, stem)
  }

  /** Pages never go back from one part to a later one. */
  predicate Before(parts: seq<Part>, j: nat, k: nat)
    requires j < |parts| && k < |parts|
  {
    parts[j].last <= parts[k].first
  }

  predicate BoundedAt(parts: seq<Part>, k: nat, pages: seq<Page>)
    requires k < |parts|
  {
    Bounded(parts[k], pages)
  }

  /** Every part sound, in page order, and the first `n` within the size bound. */
  predicate PartsOk(parts: seq<Part>, n: nat, pages: seq<Page>, stem: string)
    requires n <= |parts|
  {
    && (forall k :: 0 <= k < |parts| ==> PartOkAt(parts, k, pages, stem))
    && (forall j, k :: 0 <= j < k < |parts| ==> Before(parts, j, k))
    && (forall k :: 0 <= k < n ==> BoundedAt(parts, k, pages))
  }
}
