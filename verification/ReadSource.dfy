/** The numbered-line printer of the runtime and the console parser that reads it back. */
module ReadSource {
  import opened Common

  const READ_MAX_LINES: nat := 400
  const READ_LINE_CAP: nat := 500

  // ---- characters ----

  predicate IsDigit(c: char) { '0' <= c <= '9' }

  /** What `.` does not match in the console's regular expressions. */
  predicate IsTerminator(c: char) { c in {'\n', '\r', '\U{2028}', '\U{2029}'} }

  predicate IsSpace(c: char) {
    || c in {' ', '\t', '\n', '\U{000B}', '\U{000C}', '\r', '\U{00A0}', '\U{1680}', '\U{2028}', '\U{2029}'}
    || c in {'\U{202F}', '\U{205F}', '\U{3000}', '\U{FEFF}'} || '\U{2000}' <= c <= '\U{200A}'
  }

  /** Both sets by code point: line feed, carriage return and the two separators; and, with them, tab, vertical
      tab, form feed, the blanks of Unicode and the byte order mark. */
  lemma CharactersMean(c: char)
    ensures IsTerminator(c) <==> c as int in {10, 13, 8232, 8233}
    ensures IsSpace(c) <==>
      var n := c as int;
      9 <= n <= 13 || n in {32, 160, 5760, 8232, 8233, 8239, 8287, 12288, 65279} || 8192 <= n <= 8202
  {
  }

  /** A line as `splitlines` leaves it. */
  predicate IsLine(s: string) {
    forall i :: 0 <= i < |s| ==> !IsTerminator(s[i])
  }

  predicate AllDigits(s: string) {
    forall i :: 0 <= i < |s| ==> IsDigit(s[i])
  }

  // ---- numbers ----

  function Digit(d: nat): char
    requires d < 10
  {
    ('0' as int + d) as char
  }

  function Decimal(n: nat): string {
    if n < 10 then [Digit(n)] else Decimal(n / 10) + [Digit(n % 10)]
  }

  /** `parseInt` on a run of digits. */
  function Value(s: string): nat
    requires AllDigits(s)
  {
    if s == [] then 0
    else
      assert IsDigit(s[|s| - 1]);
      Value(s[..|s| - 1]) * 10 + (s[|s| - 1] as int - '0' as int)
  }

  lemma {:induction false} DecimalRoundTrip(n: nat)
    ensures |Decimal(n)| >= 1 && AllDigits(Decimal(n))
    ensures Value(Decimal(n)) == n
  {
    if n >= 10 {
      DecimalRoundTrip(n / 10);
      assert Decimal(n)[..|Decimal(n)| - 1] == Decimal(n / 10);
    } else {
      assert Decimal(n)[..0] == [];
    }
  }

  // ---- the printer ----

  function PadLeft(s: string, width: nat): string
    decreases width - |s|
  {
    if |s| < width then PadLeft([' '] + s, width) else s
  }

  function Cut(s: string): string {
    if |s| <= READ_LINE_CAP then s else s[..READ_LINE_CAP]
  }

  function PrintRow(n: nat, line: string): string {
    PadLeft(Decimal(n), 6) + "| " + Cut(line)
  }

  /** Rows `lo` to `hi`, joined by newlines. */
  function PrintRows(lines: seq<string>, lo: int, hi: int): string
    requires 1 <= lo <= hi <= |lines|
    decreases hi - lo
  {
    if lo == hi then PrintRow(lo, lines[lo - 1])
    else PrintRow(lo, lines[lo - 1]) + "\n" + PrintRows(lines, lo + 1, hi)
  }

  function Header(file: string, start: nat, end: nat, total: nat): string {
    file + " lines " + Decimal(start) + "-" + Decimal(end) + " of " + Decimal(total) + ":"
  }

  function Min(a: int, b: int): int { if a <= b then a else b }

  function WindowStart(startArg: int): int {
    if startArg > 1 then startArg else 1
  }

  function WindowEnd(startArg: int, endArg: int, total: nat): int {
    var start := WindowStart(startArg);
    var end := if endArg < start then start + READ_MAX_LINES - 1 else endArg;
    Min(Min(end, total), start + READ_MAX_LINES - 1)
  }

  /** Line `e` may end a window from `start`: in the file, at most 400 lines, not past a requested end. */
  predicate MayEnd(e: int, start: int, endArg: int, total: nat) {
    start <= e <= total && e < start + 400 && (endArg >= start ==> e <= endArg)
  }

  /** A window starts at the requested line, or at line 1, and ends at the last line at which it may end. */
  lemma WindowInFile(startArg: int, endArg: int, total: nat)
    requires WindowStart(startArg) <= total
    ensures WindowStart(startArg) == if startArg >= 1 then startArg else 1
    ensures MayEnd(WindowEnd(startArg, endArg, total), WindowStart(startArg), endArg, total)
    ensures forall e :: MayEnd(e, WindowStart(startArg), endArg, total) ==> e <= WindowEnd(startArg, endArg, total)
  {
  }

  /** The text `read_source` returns for the decoded lines of a text file. */
  function Print(file: string, lines: seq<string>, startArg: int, endArg: int): string {
    if lines == [] then file + " is empty (0 lines)"
    else
      var start := WindowStart(startArg);
      if start > |lines|
      then "error: start_line " + Decimal(start) + " beyond end of file (" + Decimal(|lines|) + " lines)"
      else
        WindowInFile(startArg, endArg, |lines|);
        var end := WindowEnd(startArg, endArg, |lines|);
        Header(file, start, end, |lines|) + "\n" + PrintRows(lines, start, end)
  }

  // ---- the parser ----

  datatype Row = Row(n: nat, text: string)

  datatype Parsed =
    | Failed(error: string)
    | Window(file: string, start: nat, end: nat, total: nat, rows: seq<Row>)

  function Trim(s: string): string { TrimRight(TrimLeft(s, IsSpace), IsSpace) }

  /** How many characters from `i` on are digits. */
  function DigitRun(s: string, i: nat): (k: nat)
    requires i <= |s|
    ensures i + k <= |s| && AllDigits(s[i..i + k])
    ensures i + k < |s| ==> !IsDigit(s[i + k])
    decreases |s| - i
  {
    if i < |s| && IsDigit(s[i]) then
      var k := DigitRun(s, i + 1);
      assert s[i..i + 1 + k] == [s[i]] + s[i + 1..i + 1 + k];
      1 + k
    else 0
  }

  /** `part` stands at `i`. */
  predicate At(s: string, i: nat, part: string) {
    i + |part| <= |s| && s[i..i + |part|] == part
  }

  datatype Number = NoNumber | Number(value: nat, next: nat)

  /** A run of digits at `i` followed by `literal`: its value and where the literal ends. */
  function NumberThen(s: string, i: nat, literal: string): (r: Number)
    requires i <= |s|
    ensures r.Number? ==> i < r.next <= |s|
  {
    var k := DigitRun(s, i);
    if k >= 1 && At(s, i + k, literal) then Number(Value(s[i..i + k]), i + k + |literal|) else NoNumber
  }

  datatype Head = NoHead | Head(start: nat, end: nat, total: nat, next: nat)

  /** The fixed part of the header expression, matched at `i`. */
  function HeadAt(s: string, i: nat): (r: Head)
    requires i <= |s|
    ensures r.Head? ==> i + 7 < r.next <= |s|
  {
    if !At(s, i, " lines ") then NoHead
    else
      var a := NumberThen(s, i + 7, "-");
      if a.NoNumber? then NoHead
      else
        var b := NumberThen(s, a.next, " of ");
        if b.NoNumber? then NoHead
        else
          var c := NumberThen(s, b.next, ":");
          if c.NoNumber? then NoHead else Head(a.value, b.value, c.value, c.next)
  }

  /** Where the first line of the text ends. */
  function FirstLineEnd(s: string): (k: nat)
    ensures k <= |s| && IsLine(s[..k]) && (k < |s| ==> IsTerminator(s[k]))
  {
    if s == [] || IsTerminator(s[0]) then 0 else 1 + FirstLineEnd(s[1..])
  }

  /** The greedy prefix: the last place at or below `i` where the header matches, or 0. */
  function LastHead(s: string, i: nat): (k: nat)
    requires i <= |s|
    ensures k <= i
  {
    if HeadAt(s, i).Head? || i == 0 then i else LastHead(s, i - 1)
  }

  /** A number, a bar, at most one blank, and the rest of the line. */
  function ParseRow(s: string): Option<Row> {
    var t := TrimLeft(s, IsSpace);
    var k := DigitRun(t, 0);
    if k == 0 || k >= |t| || t[k] != '|' then None
    else
      var rest := t[k + 1..];
      var text := if rest != [] && rest[0] == ' ' then rest[1..] else rest;
      if IsLine(text) then Some(Row(Value(t[..k]), text)) else None
  }

  function Split(s: string): (parts: seq<string>)
    ensures |parts| >= 1
  {
    if s == [] then [[]]
    else
      var rest := Split(s[1..]);
      if s[0] == '\n' then [[]] + rest else [[s[0]] + rest[0]] + rest[1..]
  }

  /** The lines that look like rows, as rows. */
  function ParseRows(parts: seq<string>): seq<Row> {
    Keep(ParseRow, parts)
  }

  /** Where the rows begin: after the header and one optional newline. */
  function RowsFrom(s: string, next: nat): (k: nat)
    requires next <= |s|
    ensures next <= k <= |s|
  {
    if next < |s| && s[next] == '\n' then next + 1 else next
  }

  function Parse(s: string): Parsed {
    var i := LastHead(s, FirstLineEnd(s));
    var head := HeadAt(s, i);
    if head.NoHead? then Failed(Trim(s))
    else Window(s[..i], head.start, head.end, head.total, ParseRows(Split(s[RowsFrom(s, head.next)..])))
  }

  /** The rows of the lines that look like rows, in order. */
  method CollectRows(parts: seq<string>) returns (rows: seq<Row>)
    ensures rows == ParseRows(parts)
  {
    rows := [];
    var k := 0;
    while k < |parts|
      invariant 0 <= k <= |parts|
      invariant rows == ParseRows(parts[..k])
    {
      var m := ParseRow(parts[k]);
      if m.Some? { rows := rows + [m.value]; }
      KeepNext(ParseRow, parts, k);
      k := k + 1;
    }
    assert parts[..k] == parts;
  }

  /** `parseReadSource`. */
  method ParseReadSource(s: string) returns (r: Parsed)
    ensures r == Parse(s)
  {
    var i := LastHead(s, FirstLineEnd(s));
    var head := HeadAt(s, i);
    if head.NoHead? { return Failed(Trim(s)); }
    var rows := CollectRows(Split(s[RowsFrom(s, head.next)..]));
    r := Window(s[..i], head.start, head.end, head.total, rows);
  }

  // ---- the round trip ----

  lemma {:induction false} DigitRunOf(s: string, i: nat, d: string)
    requires i + |d| <= |s| && s[i..i + |d|] == d && AllDigits(d)
    requires i + |d| < |s| ==> !IsDigit(s[i + |d|])
    ensures DigitRun(s, i) == |d|
    decreases |d|
  {
    if d != [] {
      assert s[i] == d[0] && IsDigit(d[0]);
      assert s[i + 1..i + 1 + |d[1..]|] == d[1..] by {
        assert s[i + 1..i + |d|] == s[i..i + |d|][1..];
      }
      assert AllDigits(d[1..]);
      DigitRunOf(s, i + 1, d[1..]);
    }
  }

  /** A string that stands at `i`, cut in two. */
  lemma Cleave(s: string, i: nat, a: string, b: string)
    requires At(s, i, a + b)
    ensures At(s, i, a) && At(s, i + |a|, b)
  {
    var whole := s[i..i + |a + b|];
    assert s[i..i + |a|] == whole[..|a|] == a;
    assert s[i + |a|..i + |a| + |b|] == whole[|a|..] == b;
  }

  lemma NumberThenReads(s: string, i: nat, n: nat, literal: string)
    requires At(s, i, Decimal(n) + literal)
    requires literal != [] && !IsDigit(literal[0])
    ensures NumberThen(s, i, literal) == Number(n, i + |Decimal(n)| + |literal|)
  {
    var d := Decimal(n);
    DecimalRoundTrip(n);
    Cleave(s, i, d, literal);
    assert s[i + |d|] == s[i + |d|..i + |d| + |literal|][0];
    DigitRunOf(s, i, d);
  }

  // The fixed part of the header line, from its end.

  function TotalPart(total: nat): string { Decimal(total) + ":" }

  function EndPart(end: nat, total: nat): string { Decimal(end) + " of " + TotalPart(total) }

  function StartPart(start: nat, end: nat, total: nat): string { Decimal(start) + "-" + EndPart(end, total) }

  function Tail(start: nat, end: nat, total: nat): string { " lines " + StartPart(start, end, total) }

  /** Neither an `l` nor a line terminator. */
  predicate Plain(s: string) {
    forall k :: 0 <= k < |s| ==> s[k] != 'l' && !IsTerminator(s[k])
  }

  lemma DecimalPlain(n: nat)
    ensures Plain(Decimal(n))
  {
    DecimalRoundTrip(n);
    forall k | 0 <= k < |Decimal(n)| ensures Decimal(n)[k] != 'l' && !IsTerminator(Decimal(n)[k]) {
      assert IsDigit(Decimal(n)[k]);
    }
  }

  lemma PlainCat(n: nat, literal: string, rest: string)
    requires Plain(literal) && Plain(rest)
    ensures Plain(Decimal(n) + literal + rest)
  {
    DecimalPlain(n);
  }

  lemma StartPartPlain(start: nat, end: nat, total: nat)
    ensures Plain(StartPart(start, end, total))
  {
    DecimalPlain(total);
    PlainCat(end, " of ", TotalPart(total));
    PlainCat(start, "-", EndPart(end, total));
  }

  lemma NumberHere(s: string, i: nat, n: nat, literal: string, rest: string)
    requires At(s, i, Decimal(n) + literal + rest)
    requires literal != [] && !IsDigit(literal[0])
    ensures NumberThen(s, i, literal) == Number(n, i + |Decimal(n)| + |literal|)
    ensures At(s, i + |Decimal(n)| + |literal|, rest)
  {
    Cleave(s, i, Decimal(n) + literal, rest);
    NumberThenReads(s, i, n, literal);
  }

  lemma HeadOfNumbers(s: string, i: nat, x: nat, a: nat, y: nat, b: nat, z: nat, c: nat)
    requires i + 7 <= |s| && a <= |s| && b <= |s| && At(s, i, " lines ")
    requires NumberThen(s, i + 7, "-") == Number(x, a) && NumberThen(s, a, " of ") == Number(y, b)
    requires NumberThen(s, b, ":") == Number(z, c)
    ensures HeadAt(s, i) == Head(x, y, z, c)
  {
  }

  lemma HeadHere(s: string, i: nat, start: nat, end: nat, total: nat)
    requires At(s, i, Tail(start, end, total))
    ensures HeadAt(s, i) == Head(start, end, total, i + |Tail(start, end, total)|)
  {
    var a := i + 7 + |Decimal(start)| + 1;
    var b := a + |Decimal(end)| + 4;
    Cleave(s, i, " lines ", StartPart(start, end, total));
    NumberHere(s, i + 7, start, "-", EndPart(end, total));
    NumberHere(s, a, end, " of ", TotalPart(total));
    NumberThenReads(s, b, total, ":");
    HeadOfNumbers(s, i, start, a, end, b, total, b + |Decimal(total)| + 1);
  }

  lemma HeadLetters(s: string, i: nat)
    requires i <= |s| && HeadAt(s, i).Head?
    ensures i + 7 < |s| && s[i] == ' ' && s[i + 1] == 'l'
  {
    assert s[i] == s[i..i + 7][0] && s[i + 1] == s[i..i + 7][1];
  }

  /** After the printed header's own place, nothing up to the end of the first line reads as a header. */
  lemma NoLaterHead(s: string, i: nat, j: nat, start: nat, end: nat, total: nat)
    requires i < j <= i + |Tail(start, end, total)| <= |s|
    requires At(s, i, Tail(start, end, total))
    requires i + |Tail(start, end, total)| < |s| ==> s[i + |Tail(start, end, total)|] == '\n'
    ensures HeadAt(s, j).NoHead?
  {
    StartPartPlain(start, end, total);
    NoLetter(s, i, j, StartPart(start, end, total));
    if HeadAt(s, j).Head? {
      HeadLetters(s, j);
    }
  }

  lemma NoLetter(s: string, i: nat, j: nat, p: string)
    requires i < j <= i + 7 + |p| <= |s| && At(s, i, " lines " + p)
    requires (i + 7 + |p| < |s| ==> s[i + 7 + |p|] == '\n') && Plain(p)
    ensures j + 7 < |s| ==> s[j] != ' ' || s[j + 1] != 'l'
  {
    var t := " lines " + p;
    assert s[i..i + |t|] == t;
    if j < i + 6 {
      assert s[j] == t[j - i];
    } else if j + 1 < i + |t| {
      assert s[j + 1] == t[j + 1 - i] == p[j - 6 - i];
    }
  }

  lemma {:induction false} FirstLineIs(line: string, rest: string)
    requires IsLine(line)
    ensures FirstLineEnd(line + "\n" + rest) == |line|
  {
    var s := line + "\n" + rest;
    if line != [] {
      assert s[0] == line[0] && s[1..] == line[1..] + "\n" + rest;
      FirstLineIs(line[1..], rest);
    }
  }

  lemma {:induction false} LastHeadIs(s: string, k: nat, i: nat)
    requires k <= i <= |s| && HeadAt(s, k).Head?
    requires forall j :: k < j <= i ==> HeadAt(s, j).NoHead?
    ensures LastHead(s, i) == k
  {
    if k < i { LastHeadIs(s, k, i - 1); }
  }

  lemma TailIsLine(start: nat, end: nat, total: nat)
    ensures IsLine(Tail(start, end, total))
  {
    StartPartPlain(start, end, total);
    LineCat(" lines ", StartPart(start, end, total));
  }

  lemma LineCat(a: string, b: string)
    requires IsLine(a) && IsLine(b)
    ensures IsLine(a + b)
  {
  }

  /** The header read back: the parser takes the printed header, whatever the file name looks like. */
  lemma HeaderReadBack(file: string, start: nat, end: nat, total: nat, rest: string)
    requires IsLine(file)
    ensures var s := file + Tail(start, end, total) + "\n" + rest;
      && LastHead(s, FirstLineEnd(s)) == |file|
      && HeadAt(s, |file|) == Head(start, end, total, |file + Tail(start, end, total)|)
  {
    var t := Tail(start, end, total);
    var line := file + t;
    var s := line + "\n" + rest;
    TailIsLine(start, end, total);
    LineCat(file, t);
    FirstLineIs(line, rest);
    assert s[|file|..|file| + |t|] == t;
    HeadHere(s, |file|, start, end, total);
    forall j | |file| < j <= |line| ensures HeadAt(s, j).NoHead? {
      NoLaterHead(s, |file|, j, start, end, total);
    }
    LastHeadIs(s, |file|, |line|);
  }

  lemma {:induction false} LineHasNoEnd(line: string)
    requires IsLine(line)
    ensures FirstLineEnd(line) == |line|
  {
    if line != [] { LineHasNoEnd(line[1..]); }
  }

  lemma HeadOfLine(file: string, start: nat, end: nat, total: nat)
    requires IsLine(file)
    ensures var s := file + Tail(start, end, total);
      LastHead(s, FirstLineEnd(s)) == |file| && HeadAt(s, |file|) == Head(start, end, total, |s|)
  {
    var t := Tail(start, end, total);
    var s := file + t;
    TailIsLine(start, end, total);
    LineCat(file, t);
    LineHasNoEnd(s);
    assert s[|file|..|file| + |t|] == t;
    HeadHere(s, |file|, start, end, total);
    forall j | |file| < j <= |s| ensures HeadAt(s, j).NoHead? { NoLaterHead(s, |file|, j, start, end, total); }
    LastHeadIs(s, |file|, |s|);
  }

  lemma NoRows()
    ensures ParseRows(Split([])) == []
  {
    assert ParseRow([]) == None;
    assert Keep(ParseRow, [[]]) == Keep(ParseRow, []);
  }

  lemma ParsesHead(s: string, k: nat, start: nat, end: nat, total: nat)
    requires k <= |s| && LastHead(s, FirstLineEnd(s)) == k && HeadAt(s, k) == Head(start, end, total, |s|)
    ensures Parse(s) == Window(s[..k], start, end, total, ParseRows(Split([])))
  {
    assert s[|s|..] == [];
  }

  /** A header with nothing after it is a window without rows. */
  lemma HeaderAlone(file: string, start: nat, end: nat, total: nat)
    requires IsLine(file)
    ensures Parse(Header(file, start, end, total)) == Window(file, start, end, total, [])
  {
    var s := file + Tail(start, end, total);
    HeaderIs(file, start, end, total);
    HeadOfLine(file, start, end, total);
    ParsesHead(s, |file|, start, end, total);
    NoRows();
    assert s[..|file|] == file;
  }

  // ---- the rows read back ----

  lemma {:induction false} TrimPadded(d: string, width: nat, rest: string)
    ensures TrimLeft(PadLeft(d, width) + rest, IsSpace) == TrimLeft(d + rest, IsSpace)
    decreases width - |d|
  {
    if |d| < width {
      TrimPadded([' '] + d, width, rest);
      assert ([' '] + d + rest)[1..] == d + rest;
    }
  }

  lemma {:induction false} PaddedIsLine(d: string, width: nat)
    requires IsLine(d)
    ensures IsLine(PadLeft(d, width))
    decreases width - |d|
  {
    if |d| < width {
      LineCat([' '], d);
      PaddedIsLine([' '] + d, width);
    }
  }

  lemma {:induction false} PaddedMeans(d: string, width: nat)
    ensures |PadLeft(d, width)| == if |d| < width then width else |d|
    ensures forall i :: 0 <= i < |PadLeft(d, width)| - |d| ==> PadLeft(d, width)[i] == ' '
    ensures PadLeft(d, width)[|PadLeft(d, width)| - |d|..] == d
    decreases width - |d|
  {
    if |d| < width {
      PaddedMeans([' '] + d, width);
      var p := PadLeft(d, width);
      assert p[|p| - |d|..] == p[|p| - |d| - 1..][1..];
      assert p[|p| - |d| - 1] == p[|p| - |d| - 1..][0];
    }
  }

  /** A printed row: blanks up to six characters, the number, a bar, a blank and at most 500 characters. */
  lemma RowLayout(n: nat, line: string)
    ensures PrintRow(n, line)
         == seq(if |Decimal(n)| < 6 then 6 - |Decimal(n)| else 0, i => ' ') + Decimal(n) + "| "
            + if |line| <= 500 then line else line[..500]
  {
    var d, p := Decimal(n), PadLeft(Decimal(n), 6);
    PaddedMeans(d, 6);
    assert p == p[..|p| - |d|] + p[|p| - |d|..];
    assert p[..|p| - |d|] == seq(if |d| < 6 then 6 - |d| else 0, i => ' ');
  }

  lemma RowIsLine(n: nat, line: string)
    requires IsLine(line)
    ensures IsLine(PrintRow(n, line))
  {
    DecimalPlain(n);
    PaddedIsLine(Decimal(n), 6);
    LineCat(PadLeft(Decimal(n), 6), "| ");
    LineCat(PadLeft(Decimal(n), 6) + "| ", Cut(line));
  }

  lemma DigitsThenBar(d: string, text: string)
    requires d != [] && AllDigits(d)
    ensures var t := d + "| " + text;
      && TrimLeft(t, IsSpace) == t && DigitRun(t, 0) == |d| && t[..|d|] == d
      && t[|d|] == '|' && t[|d| + 1..] == [' '] + text
  {
    var t := d + "| " + text;
    assert IsDigit(d[0]) && t[0] == d[0];
    assert t[0..|d|] == d;
    DigitRunOf(t, 0, d);
  }

  /** A printed row gives back its number and its line, or the first 500 characters of it. */
  lemma RowReadBack(n: nat, line: string)
    requires IsLine(line)
    ensures ParseRow(PrintRow(n, line)) == Some(Row(n, if |line| <= 500 then line else line[..500]))
  {
    var d, text := Decimal(n), Cut(line);
    DecimalRoundTrip(n);
    RowTrimmed(n, line);
    RowParsed(PrintRow(n, line), d, text);
  }

  lemma RowTrimmed(n: nat, line: string)
    ensures TrimLeft(PrintRow(n, line), IsSpace) == Decimal(n) + "| " + Cut(line)
  {
    var d, text := Decimal(n), Cut(line);
    DecimalRoundTrip(n);
    DigitsThenBar(d, text);
    assert PrintRow(n, line) == PadLeft(d, 6) + ("| " + text);
    TrimPadded(d, 6, "| " + text);
    assert d + ("| " + text) == d + "| " + text;
  }

  lemma RowParsed(s: string, d: string, text: string)
    requires TrimLeft(s, IsSpace) == d + "| " + text && d != [] && AllDigits(d) && IsLine(text)
    ensures ParseRow(s) == Some(Row(Value(d), text))
  {
    DigitsThenBar(d, text);
    assert ([' '] + text)[1..] == text;
  }

  lemma {:induction false} SplitLine(a: string)
    requires IsLine(a)
    ensures Split(a) == [a]
  {
    if a != [] {
      assert !IsTerminator(a[0]);
      SplitLine(a[1..]);
      assert [a[0]] + a[1..] == a;
    }
  }

  lemma {:induction false} SplitFirst(a: string, b: string)
    requires IsLine(a)
    ensures Split(a + "\n" + b) == [a] + Split(b)
  {
    var s := a + "\n" + b;
    if a == [] {
      assert s[1..] == b;
    } else {
      assert !IsTerminator(a[0]) && s[0] == a[0];
      SplitFirst(a[1..], b);
      assert s[1..] == a[1..] + "\n" + b;
      assert [a[0]] + a[1..] == a;
    }
  }

  /** The rows a window of the file holds: its line numbers, each with the first 500 characters. */
  function WindowRows(lines: seq<string>, lo: int, hi: int): (rows: seq<Row>)
    requires 1 <= lo <= hi <= |lines|
    ensures |rows| == hi - lo + 1
    ensures forall i :: 0 <= i < |rows| ==> rows[i] == Row(lo + i, Cut(lines[lo + i - 1]))
  {
    seq(hi - lo + 1, i requires 0 <= i < hi - lo + 1 => Row(lo + i, Cut(lines[lo + i - 1])))
  }

  /** Row `i` has the number of line `lo + i` and the line's text, or the first 500 characters of it. */
  predicate IsRowOf(row: Row, lines: seq<string>, n: int)
    requires 1 <= n <= |lines|
  {
    row.n == n && row.text == if |lines[n - 1]| <= 500 then lines[n - 1] else lines[n - 1][..500]
  }

  /** The parse holds the file, the range, the total and one row for each line of the range, in order. */
  predicate IsWindow(r: Parsed, file: string, lines: seq<string>, start: int, end: int)
    requires 1 <= start <= end <= |lines|
  {
    && r.Window? && r.file == file && r.start == start && r.end == end && r.total == |lines|
    && |r.rows| == end - start + 1 && forall i :: 0 <= i < |r.rows| ==> IsRowOf(r.rows[i], lines, start + i)
  }

  predicate AreLines(lines: seq<string>) {
    forall k :: 0 <= k < |lines| ==> IsLine(lines[k])
  }

  function RowTexts(lines: seq<string>, lo: int, hi: int): (texts: seq<string>)
    requires 1 <= lo <= hi <= |lines|
    ensures |texts| == hi - lo + 1
    ensures forall i :: 0 <= i < |texts| ==> texts[i] == PrintRow(lo + i, lines[lo + i - 1])
  {
    seq(hi - lo + 1, i requires 0 <= i < hi - lo + 1 => PrintRow(lo + i, lines[lo + i - 1]))
  }

  lemma {:induction false} SplitRows(lines: seq<string>, lo: int, hi: int)
    requires 1 <= lo <= hi <= |lines| && AreLines(lines)
    ensures Split(PrintRows(lines, lo, hi)) == RowTexts(lines, lo, hi)
    decreases hi - lo
  {
    var row := PrintRow(lo, lines[lo - 1]);
    RowIsLine(lo, lines[lo - 1]);
    if lo == hi {
      SplitLine(row);
    } else {
      SplitFirst(row, PrintRows(lines, lo + 1, hi));
      SplitRows(lines, lo + 1, hi);
    }
  }

  lemma RowsReadBack(lines: seq<string>, lo: int, hi: int)
    requires 1 <= lo <= hi <= |lines| && AreLines(lines)
    ensures ParseRows(Split(PrintRows(lines, lo, hi))) == WindowRows(lines, lo, hi)
  {
    SplitRows(lines, lo, hi);
    var texts, rows := RowTexts(lines, lo, hi), WindowRows(lines, lo, hi);
    forall i | 0 <= i < |texts| ensures ParseRow(texts[i]) == Some(rows[i]) {
      RowReadBack(lo + i, lines[lo + i - 1]);
    }
    KeepAll(ParseRow, texts, rows);
  }

  // ---- the round trip ----

  /**
   * Reading a printed window back gives the file, the range, the total and exactly the lines of
   * the range, even when the file name itself looks like a header, if and only if the file name
   * holds no line terminator.
   */
  lemma WindowReadBack(file: string, lines: seq<string>, startArg: int, endArg: int)
    requires lines != [] && AreLines(lines) && WindowStart(startArg) <= |lines|
    ensures var start, end := WindowStart(startArg), WindowEnd(startArg, endArg, |lines|);
      && 1 <= start <= end <= |lines|
      && (IsWindow(Parse(Print(file, lines, startArg, endArg)), file, lines, start, end) <==> IsLine(file))
  {
    PrintIs(file, lines, startArg, endArg);
    var start, end := WindowStart(startArg), WindowEnd(startArg, endArg, |lines|);
    PartsReadBack(file, start, end, lines);
  }

  lemma PartsReadBack(file: string, start: int, end: int, lines: seq<string>)
    requires AreLines(lines) && 1 <= start <= end <= |lines|
    ensures IsWindow(Parse(file + Tail(start, end, |lines|) + "\n" + PrintRows(lines, start, end)), file, lines, start, end)
            <==> IsLine(file)
  {
    var t, rest := Tail(start, end, |lines|), PrintRows(lines, start, end);
    if IsLine(file) {
      ParseParts(file, start, end, |lines|, rest);
      RowsReadBack(lines, start, end);
    } else {
      TerminatorCutsName(file, t + "\n" + rest);
      assert file + (t + "\n" + rest) == file + t + "\n" + rest;
    }
  }

  lemma ParseParts(file: string, start: nat, end: nat, total: nat, rest: string)
    requires IsLine(file)
    ensures Parse(file + Tail(start, end, total) + "\n" + rest)
         == Window(file, start, end, total, ParseRows(Split(rest)))
  {
    var t := Tail(start, end, total);
    var s := file + t + "\n" + rest;
    HeaderReadBack(file, start, end, total, rest);
    assert s[..|file|] == file;
    assert s[|file + t|] == '\n' && s[|file + t| + 1..] == rest;
  }

  lemma PrintIs(file: string, lines: seq<string>, startArg: int, endArg: int)
    requires lines != [] && WindowStart(startArg) <= |lines|
    ensures var start, end := WindowStart(startArg), WindowEnd(startArg, endArg, |lines|);
      && 1 <= start <= end <= |lines|
      && Print(file, lines, startArg, endArg) == file + Tail(start, end, |lines|) + "\n" + PrintRows(lines, start, end)
  {
    WindowInFile(startArg, endArg, |lines|);
    var start, end := WindowStart(startArg), WindowEnd(startArg, endArg, |lines|);
    HeaderIs(file, start, end, |lines|);
  }

  lemma HeaderIs(file: string, start: nat, end: nat, total: nat)
    ensures Header(file, start, end, total) == file + Tail(start, end, total)
  {
    assert StartPart(start, end, total) == Decimal(start) + "-" + Decimal(end) + " of " + TotalPart(total);
    assert Tail(start, end, total) == " lines " + Decimal(start) + "-" + Decimal(end) + " of " + Decimal(total) + ":";
  }

  lemma {:induction false} FirstLineEndsBy(s: string, k: nat)
    requires k < |s| && IsTerminator(s[k])
    ensures FirstLineEnd(s) <= k
  {
    if k > 0 { FirstLineEndsBy(s[1..], k - 1); }
  }

  /** A file name with a line terminator is never read back whole. */
  lemma TerminatorCutsName(file: string, rest: string)
    requires !IsLine(file)
    ensures Parse(file + rest).Window? ==> Parse(file + rest).file != file
  {
    var s := file + rest;
    var k :| 0 <= k < |file| && IsTerminator(file[k]);
    FirstLineEndsBy(s, k);
  }

  // ---- the error text ----

  predicate HasHead(s: string, j: nat)
    requires j <= |s|
  {
    HeadAt(s, j).Head?
  }

  /** A text without a header is reported as an error, without the white space at its ends. */
  lemma FailureMeans(s: string) returns (i: nat)
    ensures Parse(s).Failed? ==> TrimmedAt(s, Parse(s).error, i, IsSpace)
    ensures Parse(s).Failed? <==> forall j :: 0 <= j <= FirstLineEnd(s) ==> !HasHead(s, j)
  {
    i := TrimMeans(s, IsSpace);
    if !HasHead(s, LastHead(s, FirstLineEnd(s))) { LastHeadMeans(s, FirstLineEnd(s)); }
  }

  lemma LastHeadStep(s: string, i: nat)
    requires i <= |s|
    ensures HasHead(s, i) ==> LastHead(s, i) == i
    ensures !HasHead(s, i) && i > 0 ==> LastHead(s, i) == LastHead(s, i - 1)
  {
  }

  lemma {:induction false} LastHeadMeans(s: string, i: nat)
    requires i <= |s| && !HasHead(s, LastHead(s, i))
    ensures forall j :: 0 <= j <= i ==> !HasHead(s, j)
  {
    LastHeadStep(s, i);
    if i > 0 { LastHeadMeans(s, i - 1); }
  }

  /** No blank followed by an `l`. */
  predicate NoBlankL(s: string) {
    forall k :: 0 <= k < |s| - 1 && s[k] == ' ' ==> s[k + 1] != 'l'
  }

  lemma NoBlankLCat(a: string, b: string)
    requires NoBlankL(a) && NoBlankL(b) && a != [] && b != [] && (a[|a| - 1] != ' ' || b[0] != 'l')
    ensures NoBlankL(a + b)
  {
    var s := a + b;
    forall k | 0 <= k < |s| - 1 && s[k] == ' ' ensures s[k + 1] != 'l' {
      if k + 1 < |a| {
        assert s[k] == a[k] && s[k + 1] == a[k + 1];
      } else if k >= |a| {
        assert s[k] == b[k - |a|] && s[k + 1] == b[k + 1 - |a|];
      }
    }
  }

  lemma DecimalNoBlank(n: nat)
    ensures NoBlankL(Decimal(n)) && Decimal(n) != [] && IsDigit(Decimal(n)[0]) && IsDigit(Decimal(n)[|Decimal(n)| - 1])
  {
    DecimalRoundTrip(n);
    forall k | 0 <= k < |Decimal(n)| ensures Decimal(n)[k] != ' ' {
      assert IsDigit(Decimal(n)[k]);
    }
  }

  lemma BeyondPrefix(start: nat, total: nat)
    ensures NoBlankL("error: start_line " + Decimal(start) + " beyond end of file (" + Decimal(total))
  {
    DecimalNoBlank(start);
    DecimalNoBlank(total);
    NoBlankLCat("error: start_line ", Decimal(start));
    NoBlankLCat("error: start_line " + Decimal(start), " beyond end of file (");
    NoBlankLCat("error: start_line " + Decimal(start) + " beyond end of file (", Decimal(total));
  }

  lemma {:induction false} NoHeads(s: string, i: nat)
    requires i <= |s| && forall j :: 0 <= j <= i ==> HeadAt(s, j).NoHead?
    ensures HeadAt(s, LastHead(s, i)).NoHead?
  {
    if i > 0 { NoHeads(s, i - 1); }
  }

  /** An empty file is reported as such. */
  lemma EmptyIsSaid(file: string, startArg: int, endArg: int)
    ensures Print(file, [], startArg, endArg) == file + " is empty (0 lines)"
  {
  }

  /** A start past the end of the file is reported as that error, word for word. */
  lemma BeyondEndFails(file: string, lines: seq<string>, startArg: int, endArg: int)
    requires lines != [] && startArg > |lines|
    ensures Print(file, lines, startArg, endArg)
         == "error: start_line " + Decimal(startArg) + " beyond end of file (" + Decimal(|lines|) + " lines)"
    ensures Parse(Print(file, lines, startArg, endArg)) == Failed(Print(file, lines, startArg, endArg))
  {
    BeyondParses("error: start_line " + Decimal(startArg) + " beyond end of file (" + Decimal(|lines|)) by {
      BeyondPrefix(startArg, |lines|);
    }
  }

  lemma BeyondParses(a: string)
    requires NoBlankL(a) && a != [] && a[0] == 'e'
    ensures Parse(a + " lines)") == Failed(a + " lines)")
  {
    var s := a + " lines)";
    forall j | 0 <= j <= |s| ensures HeadAt(s, j).NoHead? {
      if HeadAt(s, j).Head? {
        HeadLetters(s, j);
        BlankLAt(a, j);
      }
    }
    NoHeads(s, FirstLineEnd(s));
    assert s[0] == 'e' && s[|s| - 1] == ')';
  }

  lemma BlankLAt(a: string, j: nat)
    requires NoBlankL(a) && j < |a|
    ensures var s := a + " lines)"; s[j] == ' ' ==> s[j + 1] != 'l'
  {
    var s := a + " lines)";
    assert s[|a|] == ' ';
    assert j + 1 < |a| ==> s[j] == a[j] && s[j + 1] == a[j + 1];
  }
}
