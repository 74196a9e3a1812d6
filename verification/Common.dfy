/** What the components of the model share: the optional value, table reads, white space and trimming. */
module Common {

  datatype Option<+T> = None | Some(value: T)

  /** A table read: the item stored under a key, if there is one. */
  function Lookup<K, V>(m: map<K, V>, k: K): Option<V> {
    if k in m then Some(m[k]) else None
  }

  /** The white space that Python strips. */
  predicate IsBlank(c: char) {
    || c in {' ', '\t', '\n', '\U{000B}', '\U{000C}', '\r', '\U{001C}', '\U{001D}', '\U{001E}', '\U{001F}'}
    || c in {'\U{0085}', '\U{00A0}', '\U{1680}', '\U{2028}', '\U{2029}', '\U{202F}', '\U{205F}', '\U{3000}'}
    || '\U{2000}' <= c <= '\U{200A}'
  }

  /** By code point: tab to carriage return, the four separators, space, next line and the blanks of Unicode. */
  lemma BlankMeans(c: char)
    ensures IsBlank(c) <==>
      var n := c as int;
      9 <= n <= 13 || 28 <= n <= 32 || n in {133, 160, 5760, 8232, 8233, 8239, 8287, 12288} || 8192 <= n <= 8202
  {
  }

  /** `s` without the blanks at its left end. */
  function TrimLeft(s: string, blank: char -> bool): string {
    if s != [] && blank(s[0]) then TrimLeft(s[1..], blank) else s
  }

  /** `s` without the blanks at its right end. */
  function TrimRight(s: string, blank: char -> bool): string {
    if s != [] && blank(s[|s| - 1]) then TrimRight(s[..|s| - 1], blank) else s
  }

  predicate BlankFrom(s: string, i: nat, blank: char -> bool) {
    forall k :: i <= k < |s| ==> blank(s[k])
  }

  /** `t` is `s` without the blanks at its ends, the first `i` characters among them. */
  predicate TrimmedAt(s: string, t: string, i: nat, blank: char -> bool) {
    && i + |t| <= |s| && s[i..i + |t|] == t && (forall k :: 0 <= k < i ==> blank(s[k])) && BlankFrom(s, i + |t|, blank)
    && (t != [] ==> !blank(t[0]) && !blank(t[|t| - 1]))
  }

  lemma {:induction false} TrimRightMeans(s: string, blank: char -> bool)
    ensures var t := TrimRight(s, blank); t <= s && BlankFrom(s, |t|, blank) && (t != [] ==> !blank(t[|t| - 1]))
  {
    if s != [] && blank(s[|s| - 1]) {
      var rest := s[..|s| - 1];
      TrimRightMeans(rest, blank);
      forall k | |TrimRight(rest, blank)| <= k < |s| ensures blank(s[k]) { assert k < |rest| ==> s[k] == rest[k]; }
    }
  }

  lemma {:induction false} TrimLeftMeans(s: string, blank: char -> bool) returns (i: nat)
    ensures i <= |s| && TrimLeft(s, blank) == s[i..] && (forall k :: 0 <= k < i ==> blank(s[k])) && (i < |s| ==> !blank(s[i]))
  {
    if s != [] && blank(s[0]) {
      var j := TrimLeftMeans(s[1..], blank);
      i := j + 1;
      assert s[1..][j..] == s[i..];
      forall k | 0 <= k < i ensures blank(s[k]) { assert k > 0 ==> s[k] == s[1..][k - 1]; }
    } else {
      i := 0;
    }
  }

  lemma TrimMeans(s: string, blank: char -> bool) returns (i: nat)
    ensures TrimmedAt(s, TrimRight(TrimLeft(s, blank), blank), i, blank)
  {
    i := TrimLeftMeans(s, blank);
    var rest, t := s[i..], TrimRight(s[i..], blank);
    TrimRightMeans(rest, blank);
    assert s[i..i + |t|] == rest[..|t|] == t;
    forall k | i + |t| <= k < |s| ensures blank(s[k]) { assert s[k] == rest[k - i]; }
    assert t != [] ==> t[0] == rest[0];
  }

  /** The values `f` finds, in order. */
  function Keep<A, B>(f: A -> Option<B>, s: seq<A>): seq<B> {
    if s == [] then []
    else Keep(f, s[..|s| - 1]) + (match f(s[|s| - 1]) case Some(b) => [b] case None => [])
  }

  lemma KeepNext<A, B>(f: A -> Option<B>, s: seq<A>, k: nat)
    requires k < |s|
    ensures Keep(f, s[..k + 1]) == Keep(f, s[..k]) + (match f(s[k]) case Some(b) => [b] case None => [])
  {
    assert s[..k + 1][..k] == s[..k];
  }

  lemma {:induction false} KeepAll<A, B>(f: A -> Option<B>, s: seq<A>, r: seq<B>)
    requires |s| == |r| && forall i :: 0 <= i < |s| ==> f(s[i]) == Some(r[i])
    ensures Keep(f, s) == r
  {
    if s != [] {
      KeepAll(f, s[..|s| - 1], r[..|r| - 1]);
    }
  }
}
