/** Cutting a document into parts: one pass over the pages, writing page markers only when needed. */
module PartAssembly {
  import opened Common
  import opened DocumentParts

  // ---- one line into a part ----

  /** The part once the page's marker, and its provenance if transcribed, are written. */
  function Stamp(q: Part, p: Page, page: nat): Part {
    var a := AddTo(q, Marker(page, p.marker));
    (if p.note.Some? then AddTo(a, Note(page, p.note.value)) else a).(last := page)
  }

  /** The part is open at a line of this page, below its marker. */
  predicate OnPage(q: Part, page: nat) {
    q.last == page && q.lines != [] && q.lines[|q.lines| - 1].page == page && !q.lines[|q.lines| - 1].Marker?
  }

  /** The part is open at the head of this page, its marker written, and its provenance if there is one. */
  predicate AtHead(q: Part, page: nat, p: Page) {
    && q.last == page && q.lines != [] && q.lines[|q.lines| - 1].page == page
    && (q.lines[|q.lines| - 1].Marker? ==> p.note.None?)
  }

  /** The part ends in no line of text of its current page. */
  predicate NoTextYet(q: Part) {
    q.lines != [] && !IsText(q.lines[|q.lines| - 1])
  }

  lemma AddKeeps(q: Part, o: Out, pages: seq<Page>, stem: string)
    requires PartOk(q, pages, stem) && Faithful(o, pages) && q.first <= o.page <= q.last
    requires o.Marker? || (q.lines != [] && q.lines[|q.lines| - 1].page == o.page)
    requires o.Image? ==> !IsText(q.lines[|q.lines| - 1])
    requires o.Note? ==> q.lines[|q.lines| - 1].Marker?
    requires !o.Note? && !o.Marker? && q.lines[|q.lines| - 1].Marker? ==> pages[o.page - 1].note.None?
    ensures PartOk(AddTo(q, o), pages, stem) && AddTo(q, o).size == q.size + Cost(o.text)
  {
    var lines := q.lines + [o];
    SizePrefix(q.lines, lines, |q.lines|);
    forall k | 0 <= k < |lines| ensures Follows(lines, k) && FaithfulAt(AddTo(q, o), k, pages) {
      if k < |q.lines| { assert Follows(q.lines, k) && FaithfulAt(q, k, pages); }
    }
  }

  lemma WidenKeeps(q: Part, page: nat, pages: seq<Page>, stem: string)
    requires PartOk(q, pages, stem) && q.last <= page <= |pages|
    ensures PartOk(q.(last := page), pages, stem)
  {
    forall k | 0 <= k < |q.lines| ensures FaithfulAt(q.(last := page), k, pages) { assert FaithfulAt(q, k, pages); }
  }

  lemma StampKeeps(q: Part, p: Page, page: nat, pages: seq<Page>, stem: string)
    requires PartOk(q, pages, stem) && q.last <= page && 1 <= page <= |pages| && p == pages[page - 1]
    ensures PartOk(Stamp(q, p, page), pages, stem) && AtHead(Stamp(q, p, page), page, p) && NoTextYet(Stamp(q, p, page))
    ensures Stamp(q, p, page).size == q.size + MarkerCost(p)
  {
    var wide := q.(last := page);
    WidenKeeps(q, page, pages, stem);
    var a := AddTo(wide, Marker(page, p.marker));
    AddKeeps(wide, Marker(page, p.marker), pages, stem);
    if p.note.Some? {
      AddKeeps(a, Note(page, p.note.value), pages, stem);
    }
  }

  /** Writing a line of the current page: the marker first if it is not there yet. */
  function Written(q: Part, marked: bool, p: Page, o: Out): Part {
    AddTo(if marked then q else Stamp(q, p, o.page), o)
  }

  lemma WrittenKeeps(q: Part, marked: bool, p: Page, o: Out, pages: seq<Page>, stem: string)
    requires PartOk(q, pages, stem) && q.last <= o.page && !o.Marker? && !o.Note? && Faithful(o, pages) && p == pages[o.page - 1]
    requires marked ==> OnPage(q, o.page) && (o.Image? ==> NoTextYet(q))
    ensures var r := Written(q, marked, p, o);
      && PartOk(r, pages, stem) && OnPage(r, o.page)
      && r.size == q.size + (if marked then 0 else MarkerCost(p)) + Cost(o.text)
      && r.first == q.first && (!IsText(o) ==> NoTextYet(r))
  {
    if !marked { StampKeeps(q, p, o.page, pages, stem); }
    var s := if marked then q else Stamp(q, p, o.page);
    AddKeeps(s, o, pages, stem);
  }

  /** Markers and provenance are not read; the line itself is. */
  lemma WrittenReads(parts: seq<Part>, marked: bool, p: Page, o: Out)
    requires parts != []
    ensures Reading(ReplaceLast(parts, Written(Last(parts), marked, p, o))) == Reading(parts) + PlaceOf(o)
    ensures Shown(ReplaceLast(parts, Written(Last(parts), marked, p, o))) == Shown(parts) + ImageOf(o)
  {
    var q := Last(parts);
    var stamped := if marked then parts else ReplaceLast(parts, Stamp(q, p, o.page));
    if !marked { StampReads(parts, p, o.page); }
    AddReads(stamped, o);
    AddShows(stamped, o);
    assert ReplaceLast(stamped, AddTo(Last(stamped), o)) == ReplaceLast(parts, Written(q, marked, p, o));
  }

  lemma StampReads(parts: seq<Part>, p: Page, page: nat)
    requires parts != []
    ensures Reading(ReplaceLast(parts, Stamp(Last(parts), p, page))) == Reading(parts)
    ensures Shown(ReplaceLast(parts, Stamp(Last(parts), p, page))) == Shown(parts)
  {
    var q := Last(parts);
    var a := ReplaceLast(parts, AddTo(q, Marker(page, p.marker)));
    AddReads(parts, Marker(page, p.marker));
    AddShows(parts, Marker(page, p.marker));
    var b := a;
    if p.note.Some? {
      b := ReplaceLast(a, AddTo(Last(a), Note(page, p.note.value)));
      AddReads(a, Note(page, p.note.value));
      AddShows(a, Note(page, p.note.value));
    }
    WidenReads(b, page);
    WidenShows(b, page);
    assert ReplaceLast(b, Last(b).(last := page)) == ReplaceLast(parts, Stamp(q, p, page));
  }

  // ---- the parts between two lines ----

  /** What has been read and shown so far. */
  datatype Sofar = Sofar(lines: seq<Place>, images: seq<Place>)

  function With(d: Sofar, o: Out): Sofar {
    Sofar(d.lines + PlaceOf(o), d.images + ImageOf(o))
  }

  /** A line once read, as a body line or as a title. */
  function WithLine(d: Sofar, at: Place): Sofar {
    d.(lines := d.lines + [at])
  }

  /** What holds while a page is written: `done` has been read and shown so far, `spent` has been written of the page. */
  predicate Writing(parts: seq<Part>, marked: bool, pages: seq<Page>, stem: string, page: nat, spent: nat, done: Sofar) {
    && parts != [] && 1 <= page <= |pages| && PartsOk(parts, |parts| - 1, pages, stem)
    && Reading(parts) == done.lines && Shown(parts) == done.images
    && Last(parts).last <= page && (marked ==> OnPage(Last(parts), page))
    && Last(parts).size < PART_PAGE_MAX + if marked then MarkerCost(pages[page - 1]) + spent else 0
  }

  /** What holds between pages. */
  predicate Between(parts: seq<Part>, pages: seq<Page>, stem: string, i: nat)
    requires i <= |pages|
  {
    && PartsOk(parts, |parts|, pages, stem) && Reading(parts) == LinesUpTo(pages, i, 0)
    && Shown(parts) == SavedUpTo(pages, i, 0)
    && (parts != [] ==> Last(parts).last <= i)
  }

  lemma ReplaceKeeps(parts: seq<Part>, p: Part, pages: seq<Page>, stem: string)
    requires parts != [] && PartsOk(parts, |parts| - 1, pages, stem) && PartOk(p, pages, stem) && p.first == Last(parts).first
    ensures PartsOk(ReplaceLast(parts, p), |parts| - 1, pages, stem)
  {
    var r, n := ReplaceLast(parts, p), |parts| - 1;
    forall k | 0 <= k < |r| ensures PartOkAt(r, k, pages, stem) {
      if k < n { assert PartOkAt(parts, k, pages, stem); }
    }
    forall j, k | 0 <= j < k < |r| ensures Before(r, j, k) {
      assert Before(parts, j, k);
    }
    forall k | 0 <= k < n ensures BoundedAt(r, k, pages) {
      assert BoundedAt(parts, k, pages);
    }
  }

  lemma WriteKeeps(parts: seq<Part>, marked: bool, pages: seq<Page>, stem: string, o: Out, spent: nat, done: Sofar)
    requires Writing(parts, marked, pages, stem, o.page, spent, done) && !o.Marker? && !o.Note? && Faithful(o, pages)
    requires o.Image? && marked ==> NoTextYet(Last(parts))
    ensures var r := ReplaceLast(parts, Written(Last(parts), marked, pages[o.page - 1], o));
      Writing(r, true, pages, stem, o.page, spent + Cost(o.text), With(done, o)) && (!IsText(o) ==> NoTextYet(Last(r)))
  {
    var r := Written(Last(parts), marked, pages[o.page - 1], o);
    assert PartOkAt(parts, |parts| - 1, pages, stem);
    WrittenKeeps(Last(parts), marked, pages[o.page - 1], o, pages, stem);
    WrittenReads(parts, marked, pages[o.page - 1], o);
    ReplaceKeeps(parts, r, pages, stem);
  }

  lemma AppendKeeps(parts: seq<Part>, p: Part, pages: seq<Page>, stem: string)
    requires PartsOk(parts, |parts|, pages, stem) && PartOk(p, pages, stem)
    requires parts != [] ==> Last(parts).last <= p.first
    ensures PartsOk(parts + [p], |parts|, pages, stem)
  {
    var r, n := parts + [p], |parts|;
    forall k | 0 <= k < |r| ensures PartOkAt(r, k, pages, stem) {
      if k < n { assert PartOkAt(parts, k, pages, stem); }
    }
    forall j, k | 0 <= j < k < |r| ensures Before(r, j, k) {
      if k < n {
        assert Before(parts, j, k);
      } else if j < n - 1 {
        assert Before(parts, j, n - 1) && PartOkAt(parts, n - 1, pages, stem);
      }
    }
    forall k | 0 <= k < n ensures BoundedAt(r, k, pages) {
      assert BoundedAt(parts, k, pages);
    }
  }

  lemma OpenKeeps(parts: seq<Part>, pages: seq<Page>, stem: string, title: string, heading: Option<Place>, page: nat, done: Sofar)
    requires 1 <= page <= |pages| && PartsOk(parts, |parts|, pages, stem) && Reading(parts) == done.lines && Shown(parts) == done.images
    requires parts != [] ==> Last(parts).last <= page
    requires TitleOk(Part(title, heading, page, page, [], 0), pages, stem)
    ensures Writing(Opened(parts, title, heading, page), false, pages, stem, page, 0,
                    if heading.Some? then WithLine(done, heading.value) else done)
  {
    OpenReads(parts, title, heading, page);
    OpenShows(parts, title, heading, page);
    AppendKeeps(parts, Part(title, heading, page, page, [], 0), pages, stem);
  }

  lemma MoreSpent(parts: seq<Part>, marked: bool, pages: seq<Page>, stem: string, page: nat, spent: nat, more: nat, done: Sofar)
    requires Writing(parts, marked, pages, stem, page, spent, done) && spent <= more
    ensures Writing(parts, marked, pages, stem, page, more, done)
  {
  }

  /** A page wholly or partly written leaves every part within the bound. */
  lemma WritingIsBounded(parts: seq<Part>, marked: bool, pages: seq<Page>, stem: string, page: nat, spent: nat, done: Sofar)
    requires Writing(parts, marked, pages, stem, page, spent, done)
    requires MarkerCost(pages[page - 1]) + spent <= Contribution(pages[page - 1])
    ensures PartsOk(parts, |parts|, pages, stem)
  {
    var last := |parts| - 1;
    assert PartOkAt(parts, last, pages, stem);
    assert BoundedAt(parts, last, pages);
    forall k | 0 <= k < |parts| ensures BoundedAt(parts, k, pages) {
    }
  }

  /** What a page's images and its first `j` lines cost. */
  function SpentAt(p: Page, j: nat): nat
    requires j <= |p.lines|
  {
    ImageCosts(ImagesOf(p), |ImagesOf(p)|) + LineCosts(p.lines, j)
  }

  /** What has been written and read once a page's first `j` lines are. */
  predicate Reached(pages: seq<Page>, i: nat, j: nat, spent: nat, done: Sofar)
    requires i < |pages| && j <= |pages[i].lines|
  {
    spent == SpentAt(pages[i], j) && done == DoneAt(pages, i, j, |ImagesOf(pages[i])|)
  }

  /** The lines and images of the first `i` pages, and the first `j` and `k` of the next. */
  function DoneAt(pages: seq<Page>, i: nat, j: nat, k: nat): Sofar
    requires i < |pages| && j <= |pages[i].lines| && k <= |ImagesOf(pages[i])|
  {
    Sofar(LinesUpTo(pages, i, j), SavedUpTo(pages, i, k))
  }

  predicate KeptAt(before: seq<Part>, after: seq<Part>, k: nat)
    requires k < |before| && k < |after|
  {
    after[k] == before[k]
  }

  /** The same parts, but for what was written into the last one. */
  predicate SameParts(before: seq<Part>, after: seq<Part>) {
    && |after| == |before|
    && (forall k :: 0 <= k < |before| - 1 ==> KeptAt(before, after, k))
    && (before != [] ==> Last(after).title == Last(before).title && Last(after).first == Last(before).first)
  }

  /** One part more, with this title; those before are closed as they were. */
  predicate OnePartMore(before: seq<Part>, after: seq<Part>, title: string, page: nat) {
    && |after| == |before| + 1 && (forall k :: 0 <= k < |before| ==> KeptAt(before, after, k))
    && Last(after).title == title && Last(after).first == page
  }

  /** A heading of level 1 or 2 splits at 8000, one of level 3 at 12000, any other at 15000. */
  predicate Splits(level: nat, size: nat) {
    level > 0 && size >= (if level <= 2 then 8000 else if level == 3 then 12000 else 15000)
  }

  lemma MoreThenSame(a: seq<Part>, b: seq<Part>, c: seq<Part>, title: string, page: nat)
    requires OnePartMore(a, b, title, page) && SameParts(b, c)
    ensures OnePartMore(a, c, title, page)
  {
    forall k | 0 <= k < |a| ensures KeptAt(a, c, k) {
      assert KeptAt(a, b, k) && KeptAt(b, c, k);
    }
  }

  // ---- the pass ----

  class Assembler {
    const stem: string
    const pages: seq<Page>
    var parts: seq<Part>
    var marked: bool

    constructor (stem: string, pages: seq<Page>)
      ensures this.stem == stem && this.pages == pages && parts == [] && !marked
    {
      this.stem, this.pages, parts, marked := stem, pages, [], false;
    }

    method OpenPart(title: string, heading: Option<Place>, page: nat)
      modifies this
      ensures parts == Opened(old(parts), Title(title, stem), heading, page) && !marked
    {
      parts := Opened(parts, Title(title, stem), heading, page);
      marked := false;
    }

    /** A heading closes the part when the part is big enough for a heading of its level. */
    predicate SplitsHere(level: nat) reads this {
      && level > 0 && parts != []
      && (|| (level <= 2 && Last(parts).size >= PART_MIN)
          || (level <= 3 && Last(parts).size >= PART_SOFT_MAX)
          || Last(parts).size >= PART_HARD_MAX)
    }

    /** A page opens a part at the start of the document, past the page limit, or with a splitting heading. */
    predicate OpensAt(p: Page) reads this {
      parts == [] || Last(parts).size >= PART_PAGE_MAX || (p.lines != [] && SplitsHere(p.lines[0].level))
    }

    /** Its title is the page's top heading, else the document's name, else the page's fallback. */
    function OpeningTitle(p: Page): string reads this {
      Title(if p.lines != [] && p.lines[0].level > 0 then p.lines[0].text
            else if parts == [] then stem else p.fallback, stem)
    }

    method Emit(o: Out, ghost spent: nat, ghost done: Sofar)
      requires Writing(parts, marked, pages, stem, o.page, spent, done) && !o.Marker? && !o.Note? && Faithful(o, pages)
      requires o.Image? && marked ==> NoTextYet(Last(parts))
      modifies this
      ensures marked && SameParts(old(parts), parts) && (!IsText(o) ==> NoTextYet(Last(parts)))
      ensures Writing(parts, marked, pages, stem, o.page, spent + Cost(o.text), With(done, o))
    {
      WriteKeeps(parts, marked, pages, stem, o, spent, done);
      var p := pages[o.page - 1];
      var q := Last(parts);
      if !marked {
        q := AddTo(q, Marker(o.page, p.marker));
        if p.note.Some? { q := AddTo(q, Note(o.page, p.note.value)); }
        q := q.(last := o.page);
        marked := true;
      }
      parts := ReplaceLast(parts, AddTo(q, o));
    }

    /** A part opened by a heading; `whole` when the title stands for the heading. */
    method OpenHeading(i: nat, j: nat, ghost done: Sofar) returns (whole: bool)
      requires i < |pages| && j < |pages[i].lines| && pages[i].lines[j].level > 0
      requires PartsOk(parts, |parts|, pages, stem) && Reading(parts) == done.lines && Shown(parts) == done.images
      requires parts != [] ==> Last(parts).last <= i + 1
      modifies this
      ensures whole <==> |pages[i].lines[j].text| <= 80
      ensures !marked && OnePartMore(old(parts), parts, Title(pages[i].lines[j].text, stem), i + 1)
      ensures Writing(parts, marked, pages, stem, i + 1, 0, if whole then WithLine(done, Place(i + 1, j)) else done)
    {
      var text := pages[i].lines[j].text;
      whole := |text| <= TITLE_MAX;
      var heading := if whole then Some(Place(i + 1, j)) else None;
      OpenKeeps(parts, pages, stem, Title(text, stem), heading, i + 1, done);
      OpenPart(text, heading, i + 1);
    }

    /** The part a page starts in: a new one at the start, past the page limit, or at a splitting heading. */
    method StartPage(i: nat) returns (start: nat)
      requires i < |pages| && Between(parts, pages, stem, i)
      modifies this
      ensures start <= 1 && start <= |pages[i].lines| && !marked
      ensures if old(parts) == [] || old(Last(parts).size) >= 16000
                 || (pages[i].lines != [] && Splits(pages[i].lines[0].level, old(Last(parts).size)))
              then OnePartMore(old(parts), parts, old(OpeningTitle(pages[i])), i + 1)
              else parts == old(parts)
      ensures Writing(parts, marked, pages, stem, i + 1, 0, DoneAt(pages, i, start, 0))
    {
      var lines := pages[i].lines;
      ghost var done := DoneAt(pages, i, 0, 0);
      marked := false;
      start := 0;
      if OpensAt(pages[i]) {
        if lines != [] && lines[0].level > 0 {
          var whole := OpenHeading(i, 0, done);
          start := if whole then 1 else 0;
        } else {
          var title := if parts == [] then stem else pages[i].fallback;
          OpenKeeps(parts, pages, stem, Title(title, stem), None, i + 1, done);
          OpenPart(title, None, i + 1);
        }
      }
    }

    /** The page's saved images, in order, before any of its text. */
    method EmitImages(i: nat, start: nat)
      requires i < |pages| && start <= |pages[i].lines| && !marked
      requires Writing(parts, marked, pages, stem, i + 1, 0, DoneAt(pages, i, start, 0))
      modifies this
      ensures Writing(parts, marked, pages, stem, i + 1, SpentAt(pages[i], 0), DoneAt(pages, i, start, |ImagesOf(pages[i])|))
    {
      var images := ImagesOf(pages[i]);
      var k := 0;
      while k < |images|
        invariant 0 <= k <= |images| && (marked ==> parts != [] && NoTextYet(Last(parts)))
        invariant Writing(parts, marked, pages, stem, i + 1, ImageCosts(images, k), DoneAt(pages, i, start, k))
      {
        EmitImage(i, k, start);
        k := k + 1;
      }
    }

    method EmitImage(i: nat, k: nat, ghost start: nat)
      requires i < |pages| && k < |ImagesOf(pages[i])| && start <= |pages[i].lines|
      requires Writing(parts, marked, pages, stem, i + 1, ImageCosts(ImagesOf(pages[i]), k), DoneAt(pages, i, start, k))
      requires marked ==> NoTextYet(Last(parts))
      modifies this
      ensures Writing(parts, marked, pages, stem, i + 1, ImageCosts(ImagesOf(pages[i]), k + 1), DoneAt(pages, i, start, k + 1))
      ensures marked ==> NoTextYet(Last(parts))
    {
      var images := ImagesOf(pages[i]);
      ghost var done := DoneAt(pages, i, start, k);
      if images[k].Some? {
        var o := Image(i + 1, k, images[k].value);
        assert With(done, o) == DoneAt(pages, i, start, k + 1);
        Emit(o, ImageCosts(images, k), done);
      } else {
        assert done == DoneAt(pages, i, start, k + 1);
      }
    }

    /** The page's images and its first `j` lines are written. */
    ghost predicate WroteLines(i: nat, j: nat)
      requires i < |pages| && j <= |pages[i].lines|
      reads this
    {
      forall spent, done :: Reached(pages, i, j, spent, done) ==> Writing(parts, marked, pages, stem, i + 1, spent, done)
    }

    /** A splitting heading titles a new part, and is repeated in it only if too long for a title. */
    method SplitLine(i: nat, j: nat, ghost done: Sofar)
      requires i < |pages| && j < |pages[i].lines| && pages[i].lines[j].level > 0
      requires PartsOk(parts, |parts|, pages, stem) && Reading(parts) == done.lines && Shown(parts) == done.images
      requires parts != [] ==> Last(parts).last <= i + 1
      modifies this
      ensures Writing(parts, marked, pages, stem, i + 1, LineCost(pages[i].lines[j]), WithLine(done, Place(i + 1, j)))
      ensures OnePartMore(old(parts), parts, Title(pages[i].lines[j].text, stem), i + 1)
    {
      var ln := pages[i].lines[j];
      FormatMeans(ln);
      var whole := OpenHeading(i, j, done);
      ghost var begun := parts;
      if whole {
        MoreSpent(parts, marked, pages, stem, i + 1, 0, LineCost(ln), WithLine(done, Place(i + 1, j)));
      } else {
        Emit(Body(i + 1, j, Format(ln)), 0, done);
        MoreThenSame(old(parts), begun, parts, Title(ln.text, stem), i + 1);
      }
    }

    method EmitBody(i: nat, j: nat, ghost spent: nat, ghost done: Sofar)
      requires i < |pages| && j < |pages[i].lines|
      requires Writing(parts, marked, pages, stem, i + 1, spent, done)
      modifies this
      ensures Writing(parts, marked, pages, stem, i + 1, spent + LineCost(pages[i].lines[j]), WithLine(done, Place(i + 1, j)))
      ensures SameParts(old(parts), parts)
    {
      FormatMeans(pages[i].lines[j]);
      Emit(Body(i + 1, j, Format(pages[i].lines[j])), spent, done);
    }

    /** One line: written into the part, or starting the next one. */
    method EmitLine(i: nat, j: nat, ghost spent: nat, ghost done: Sofar)
      requires i < |pages| && j < |pages[i].lines|
      requires Writing(parts, marked, pages, stem, i + 1, spent, done)
      requires MarkerCost(pages[i]) + spent <= Contribution(pages[i])
      modifies this
      ensures Writing(parts, marked, pages, stem, i + 1, spent + LineCost(pages[i].lines[j]), WithLine(done, Place(i + 1, j)))
      ensures if Splits(pages[i].lines[j].level, old(Last(parts).size))
              then OnePartMore(old(parts), parts, Title(pages[i].lines[j].text, stem), i + 1)
              else SameParts(old(parts), parts)
    {
      var ln := pages[i].lines[j];
      ghost var cost := LineCost(ln);
      if SplitsHere(ln.level) {
        WritingIsBounded(parts, marked, pages, stem, i + 1, spent, done);
        SplitLine(i, j, done);
        MoreSpent(parts, marked, pages, stem, i + 1, cost, spent + cost, WithLine(done, Place(i + 1, j)));
      } else {
        EmitBody(i, j, spent, done);
      }
    }

    method EmitNext(i: nat, j: nat)
      requires i < |pages| && j < |pages[i].lines| && WroteLines(i, j)
      modifies this
      ensures WroteLines(i, j + 1)
    {
      ghost var spent, done := SpentAt(pages[i], j), DoneAt(pages, i, j, |ImagesOf(pages[i])|);
      assert Reached(pages, i, j, spent, done);
      CostsGrow(pages[i].lines, j, |pages[i].lines|);
      EmitLine(i, j, spent, done);
    }

    method EmitLines(i: nat, start: nat)
      requires i < |pages| && start <= |pages[i].lines| && WroteLines(i, start)
      modifies this
      ensures WroteLines(i, |pages[i].lines|)
    {
      var j := start;
      while j < |pages[i].lines|
        invariant start <= j <= |pages[i].lines| && WroteLines(i, j)
      {
        EmitNext(i, j);
        j := j + 1;
      }
    }

    /** A transcribed page whose heading alone became a title still leaves its marker and provenance. */
    method EndPage(i: nat)
      requires i < |pages| && WroteLines(i, |pages[i].lines|)
      modifies this
      ensures Between(parts, pages, stem, i + 1)
      ensures parts != [] && (pages[i].note.Some? ==> OnPage(Last(parts), i + 1))
    {
      var p := pages[i];
      ghost var spent, done := SpentAt(p, |p.lines|), DoneAt(pages, i, |p.lines|, |ImagesOf(p)|);
      assert Reached(pages, i, |p.lines|, spent, done);
      if p.note.Some? && !marked {
        Emit(Filler(i + 1, ""), spent, done);
        spent := spent + 1;
      }
      WritingIsBounded(parts, marked, pages, stem, i + 1, spent, done);
    }

    /** One page; a page with neither lines nor chosen images is passed over. */
    method AddPage(i: nat)
      requires i < |pages| && Between(parts, pages, stem, i)
      modifies this
      ensures Between(parts, pages, stem, i + 1)
      ensures pages[i].lines == [] && pages[i].images.None? ==> parts == old(parts)
    {
      var p := pages[i];
      if p.lines == [] && p.images.None? { return; }
      var start := StartPage(i);
      EmitImages(i, start);
      MoreSpent(parts, marked, pages, stem, i + 1, SpentAt(p, 0), SpentAt(p, start), DoneAt(pages, i, start, |ImagesOf(p)|));
      EmitLines(i, start);
      EndPage(i);
    }

    /**
     * The whole pass: read part by part, titles and body lines are the lines of the pages in order,
     * and the images are those saved, in order, each before its page's text; each line stands below
     * its own page's marker; page ranges never go back; and every part is smaller than 16000 plus
     * what its last page contributes.
     */
    method Assemble()
      requires parts == [] && !marked
      modifies this
      ensures Reading(parts) == AllLines(pages) && Shown(parts) == AllSaved(pages)
      ensures PartsOk(parts, |parts|, pages, stem)
    {
      var i := 0;
      while i < |pages|
        invariant 0 <= i <= |pages| && Between(parts, pages, stem, i)
      {
        AddPage(i);
        i := i + 1;
      }
    }
  }

  lemma {:induction false} CostsGrow(lines: seq<Line>, j: nat, k: nat)
    requires j <= k <= |lines|
    ensures LineCosts(lines, j) <= LineCosts(lines, k)
    decreases k
  {
    if j < k { CostsGrow(lines, j, k - 1); }
  }
}
