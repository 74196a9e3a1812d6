/** What a quote is: the cited lines of the pinned file, for evidence and for both ends of every relation. */
module Quotes {
  import opened Common
  import opened Composition
  import opened GroupBuild

  // ---- lines and bytes ----

  /** A text cut at its line ends. */
  function Cut(text: string): (r: seq<string>)
    ensures r != []
  {
    if text == [] then [[]]
    else
      var rest := Cut(text[1..]);
      if text[0] == '\n' then [[]] + rest else [[text[0]] + rest[0]] + rest[1..]
  }

  predicate OneLine(s: string) {
    forall i :: 0 <= i < |s| ==> s[i] != '\n'
  }

  predicate AllLines(lines: seq<string>) {
    forall i :: 0 <= i < |lines| ==> OneLine(lines[i])
  }

  lemma {:induction false} CutOne(line: string)
    requires OneLine(line)
    ensures Cut(line) == [line]
  {
    if line != [] {
      CutOne(line[1..]);
      assert [line[0]] + line[1..] == line;
    }
  }

  lemma {:induction false} CutFirst(line: string, rest: string)
    requires OneLine(line)
    ensures Cut(line + "\n" + rest) == [line] + Cut(rest)
  {
    var s := line + "\n" + rest;
    if line == [] {
      assert s[1..] == rest;
    } else {
      CutFirst(line[1..], rest);
      assert s[0] == line[0] && s[1..] == line[1..] + "\n" + rest;
      assert [line[0]] + line[1..] == line;
    }
  }

  lemma {:induction false} JoinedIsCut(lines: seq<string>)
    requires lines != [] && AllLines(lines)
    ensures Cut(JoinLines(lines)) == lines
  {
    assert OneLine(lines[0]);
    if |lines| == 1 {
      CutOne(lines[0]);
    } else {
      CutFirst(lines[0], JoinLines(lines[1..]));
      JoinedIsCut(lines[1..]);
      assert [lines[0]] + lines[1..] == lines;
    }
  }

  /** The UTF-8 bytes of a character. */
  function BytesOf(c: char): seq<nat> {
    var n := c as int;
    if n < 128 then [n]
    else if n < 2048 then [192 + n / 64, 128 + n % 64]
    else if n < 65536 then [224 + n / 4096, 128 + n / 64 % 64, 128 + n % 64]
    else [240 + n / 262144, 128 + n / 4096 % 64, 128 + n / 64 % 64, 128 + n % 64]
  }

  function Utf8(s: string): seq<nat> {
    if s == [] then [] else BytesOf(s[0]) + Utf8(s[1..])
  }

  lemma {:induction false} LengthIsBytes(s: string)
    ensures Utf8Length(s) == |Utf8(s)|
  {
    if s != [] { LengthIsBytes(s[1..]); }
  }

  /** Some character of these lines is not blank. */
  predicate HasText(lines: seq<string>) {
    exists i, j :: 0 <= i < |lines| && 0 <= j < |lines[i]| && !IsBlank(lines[i][j])
  }

  lemma BlankCat(a: string, b: string)
    ensures AllBlank(a + b) <==> AllBlank(a) && AllBlank(b)
  {
    if AllBlank(a + b) {
      forall i | 0 <= i < |a| ensures IsBlank(a[i]) { assert (a + b)[i] == a[i]; }
      forall i | 0 <= i < |b| ensures IsBlank(b[i]) { assert (a + b)[|a| + i] == b[i]; }
    }
  }

  lemma {:induction false} JoinedIsBlank(lines: seq<string>)
    ensures AllBlank(JoinLines(lines)) <==> forall i :: 0 <= i < |lines| ==> AllBlank(lines[i])
  {
    if |lines| > 1 {
      var rest := JoinLines(lines[1..]);
      JoinedIsBlank(lines[1..]);
      BlankCat(lines[0] + "\n", rest);
      BlankCat(lines[0], "\n");
      assert forall i :: 1 <= i < |lines| ==> lines[i] == lines[1..][i - 1];
    }
  }

  lemma TextIsNotBlank(lines: seq<string>)
    ensures HasText(lines) <==> !AllBlank(JoinLines(lines))
  {
    JoinedIsBlank(lines);
  }

  // ---- quotes ----

  /** Lines `start` to `end` of this file can be quoted: they are there, hold some text, and are at most 2048 bytes. */
  predicate CanQuote(lines: seq<string>, start: int, end: int) {
    && 1 <= start <= end <= |lines| && HasText(lines[start - 1..end])
    && |Utf8(JoinLines(lines[start - 1..end]))| <= 2048
  }

  /** This evidence cites exactly these lines of this version of the file. */
  predicate Cites(e: Evidence, s: Source) {
    && e.source == s.id && e.version == s.version && e.file in s.files
    && 1 <= e.start <= e.end <= |s.files[e.file]| && Cut(e.quote) == s.files[e.file][e.start - 1..e.end]
  }

  predicate InLines(s: Source) {
    forall file :: file in s.files ==> AllLines(s.files[file])
  }

  /** A quote exists if and only if the lines can be quoted, and then it is those lines and nothing else. */
  lemma QuoteMeans(s: Source, file: Path, start: int, end: int)
    requires InLines(s) && file in s.files
    ensures Quote(s, file, start, end).Some? <==> CanQuote(s.files[file], start, end)
    ensures Quote(s, file, start, end).Some? ==>
      var e := Quote(s, file, start, end).value;
      && Cites(e, s) && e.file == file && e.start == start && e.end == end
      && (start == end ==> e.quote == s.files[file][start - 1])
  {
    if 1 <= start <= end <= |s.files[file]| {
      var lines := s.files[file][start - 1..end];
      JoinedIsCut(lines);
      TextIsNotBlank(lines);
      LengthIsBytes(JoinLines(lines));
    }
  }

  lemma {:induction false} CutThenJoined(a: string)
    ensures JoinLines(Cut(a)) == a
  {
    if a != [] {
      var rest := Cut(a[1..]);
      CutThenJoined(a[1..]);
      if a[0] == '\n' {
        assert ([[]] + rest)[1..] == rest;
      } else {
        var all := [[a[0]] + rest[0]] + rest[1..];
        assert all[1..] == rest[1..];
        assert |rest| > 1 ==> [a[0]] + rest[0] + "\n" + JoinLines(rest[1..]) == [a[0]] + (rest[0] + "\n" + JoinLines(rest[1..]));
      }
    }
  }

  lemma CutInjective(a: string, b: string)
    requires Cut(a) == Cut(b)
    ensures a == b
  {
    CutThenJoined(a);
    CutThenJoined(b);
  }

  /** Evidence passes the check if and only if it cites lines of a source of the build that can be quoted. */
  lemma ValidMeans(e: Evidence, sources: seq<Source>)
    requires InOrder(sources) && forall k :: 0 <= k < |sources| ==> InLines(sources[k])
    ensures ValidEvidence(e, sources) <==>
      exists k :: 0 <= k < |sources| && Cites(e, sources[k]) && CanQuote(sources[k].files[e.file], e.start, e.end)
  {
    if ValidEvidence(e, sources) {
      var s := FindSource(sources, e.source).value;
      var k :| 0 <= k < |sources| && sources[k] == s;
      QuoteMeans(s, e.file, e.start, e.end);
    }
    if k :| 0 <= k < |sources| && Cites(e, sources[k]) && CanQuote(sources[k].files[e.file], e.start, e.end) {
      CitedIsValid(e, sources, k);
    }
  }

  lemma CitedIsValid(e: Evidence, sources: seq<Source>, k: nat)
    requires InOrder(sources) && k < |sources| && InLines(sources[k])
    requires Cites(e, sources[k]) && CanQuote(sources[k].files[e.file], e.start, e.end)
    ensures ValidEvidence(e, sources)
  {
    var s := FindSource(sources, e.source);
    assert sources[k] in sources;
    assert s.value == sources[k] by {
      var j :| 0 <= j < |sources| && sources[j] == s.value;
    }
    QuoteMeans(sources[k], e.file, e.start, e.end);
    CutInjective(e.quote, Quote(sources[k], e.file, e.start, e.end).value.quote);
  }

  /** In a build, both quotes of every relation are exactly lines of the pinned sources of its two ends. */
  lemma RelationsCite(b: Build, i: nat)
    requires b.Valid() && i < |b.relations| && InOrder(b.sources)
    requires forall k :: 0 <= k < |b.sources| ==> InLines(b.sources[k])
    ensures var r := b.relations[i];
      && r.Related?
      && (exists k :: 0 <= k < |b.sources| && Cites(r.left, b.sources[k]))
      && (exists k :: 0 <= k < |b.sources| && Cites(r.right, b.sources[k]))
      && r.left.source != r.right.source
  {
    assert Grounded(b.relations[i], b.nodes, b.sources, b.rank);
    ValidMeans(b.relations[i].left, b.sources);
    ValidMeans(b.relations[i].right, b.sources);
  }
}
