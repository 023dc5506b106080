/** String operations the proxy editor relies on: JavaScript's whitespace
    class (used by lodash `trim` and by the blank-string test), trimming, and
    `split`/`join` on a single separator character. */
module Text {

  /** The characters matched by JavaScript's `\s` class. */
  predicate IsWhitespace(c: char) {
    || ('\t' <= c <= '\r')                  // tab, line feed, vertical tab, form feed, carriage return
    || c == ' '
    || c == '\U{A0}'
    || c == '\U{1680}'
    || ('\U{2000}' <= c <= '\U{200A}')
    || c == '\U{2028}' || c == '\U{2029}'
    || c == '\U{202F}' || c == '\U{205F}'
    || c == '\U{3000}' || c == '\U{FEFF}'
  }

  /** Every character of `s` is whitespace (the empty string included). */
  predicate IsBlank(s: string) {
    forall i :: 0 <= i < |s| ==> IsWhitespace(s[i])
  }

  /** How many whitespace characters `s` starts with. */
  function LeadingSpace(s: string): (n: nat)
    ensures n <= |s|
    ensures forall i :: 0 <= i < n ==> IsWhitespace(s[i])
    ensures n == |s| || !IsWhitespace(s[n])
  {
    if |s| > 0 && IsWhitespace(s[0]) then
      var m := LeadingSpace(s[1..]);
      assert forall i :: 1 <= i < m + 1 ==> s[i] == s[1..][i - 1];
      m + 1
    else 0
  }

  /** How many whitespace characters `s` ends with. */
  function TrailingSpace(s: string): (n: nat)
    ensures n <= |s|
    ensures forall i :: |s| - n <= i < |s| ==> IsWhitespace(s[i])
    ensures n == |s| || !IsWhitespace(s[|s| - 1 - n])
  {
    if |s| > 0 && IsWhitespace(s[|s| - 1]) then
      var m := TrailingSpace(s[..|s| - 1]);
      assert forall i :: |s| - 1 - m <= i < |s| - 1 ==> s[i] == s[..|s| - 1][i];
      m + 1
    else 0
  }

  /** lodash `trim`: `s` without leading and trailing whitespace. The result
      is the middle of `s` that remains once a blank prefix of
      `LeadingSpace(s)` characters and a blank suffix are cut off; it neither
      starts nor ends with whitespace, and it is empty exactly when `s` is
      blank. */
  function Trim(s: string): (r: string)
    ensures |r| <= |s|
    ensures var a := LeadingSpace(s);
      && a + |r| <= |s|
      && r == s[a..a + |r|]
      && IsBlank(s[..a])
      && IsBlank(s[a + |r|..])
    ensures r == [] || (!IsWhitespace(r[0]) && !IsWhitespace(r[|r| - 1]))
    ensures r == [] <==> IsBlank(s)
  {
    var a := LeadingSpace(s);
    var n := if a == |s| then 0 else TrailingSpace(s);
    // `s[a]` is not whitespace, so the trailing run stops after it.
    assert a < |s| ==> !IsWhitespace(s[a]) && a < |s| - n;
    BlankSlice(s, 0, a);
    BlankSlice(s, |s| - n, |s|);
    assert s[..a] == s[0..a] && s[|s| - n..] == s[|s| - n..|s|];
    assert a == |s| ==> s[..a] == s;
    s[a..|s| - n]
  }

  /** A run of whitespace characters is a blank slice. */
  lemma BlankSlice(s: string, lo: nat, hi: nat)
    requires lo <= hi <= |s|
    requires forall i :: lo <= i < hi ==> IsWhitespace(s[i])
    ensures IsBlank(s[lo..hi])
  {
    assert forall i :: 0 <= i < hi - lo ==> s[lo..hi][i] == s[lo + i];
  }

  /** A string with no whitespace at either end is its own trim. */
  lemma TrimUntouched(s: string)
    requires s == [] || (!IsWhitespace(s[0]) && !IsWhitespace(s[|s| - 1]))
    ensures Trim(s) == s
  {
    assert LeadingSpace(s) == 0;
    assert s[0..] == s;
    assert TrailingSpace(s) == 0;
  }

  /** Trimming a trimmed string changes nothing. */
  lemma TrimIdempotent(s: string)
    ensures Trim(Trim(s)) == Trim(s)
  {
    TrimUntouched(Trim(s));
  }

  /** JavaScript `s.split(sep)` for a one-character separator: the pieces
      between separators, in order; there is always at least one piece and
      no piece contains the separator. */
  function Split(s: string, sep: char): (r: seq<string>)
    ensures |r| >= 1
    ensures forall i :: 0 <= i < |r| ==> sep !in r[i]
  {
    if s == [] then [[]]
    else
      var rest := Split(s[1..], sep);
      if s[0] == sep then [[]] + rest
      else [[s[0]] + rest[0]] + rest[1..]
  }

  /** JavaScript `list.join(sep)`: the entries with `sep` between consecutive
      ones; the empty list joins to the empty string. */
  function Join(list: seq<string>, sep: char): (r: string)
    ensures |list| == 0 ==> r == []
    ensures |list| >= 1 ==> |list[0]| <= |r| && r[..|list[0]|] == list[0]
    ensures |list| == 1 ==> r == list[0]
    ensures |list| >= 2 ==> |list[0]| < |r| && r[|list[0]|] == sep
  {
    if |list| == 0 then []
    else if |list| == 1 then list[0]
    else list[0] + [sep] + Join(list[1..], sep)
  }

  /** Joining the pieces of a split gives back the original text. */
  lemma {:induction false} JoinSplit(s: string, sep: char)
    ensures Join(Split(s, sep), sep) == s
  {
    if s != [] {
      var rest := Split(s[1..], sep);
      JoinSplit(s[1..], sep);
      if s[0] == sep {
        assert Split(s, sep) == [[]] + rest;
      } else if |rest| > 1 {
        assert Split(s, sep)[1..] == rest[1..];
        assert Join(rest, sep) == rest[0] + [sep] + Join(rest[1..], sep);
      }
    }
  }

  /** Splitting text that starts with a separator-free prefix `a` glues `a`
      onto the first piece. */
  lemma {:induction false} SplitPrefix(a: string, t: string, sep: char)
    requires sep !in a
    ensures Split(a + t, sep) == [a + Split(t, sep)[0]] + Split(t, sep)[1..]
  {
    if a != [] {
      var u := Split(t, sep);
      assert (a + t)[0] == a[0] && (a + t)[1..] == a[1..] + t;
      SplitPrefix(a[1..], t, sep);
      var rest := Split(a[1..] + t, sep);
      assert rest == [a[1..] + u[0]] + u[1..];
      assert rest[0] == a[1..] + u[0] && rest[1..] == u[1..];
      assert a[0] != sep && a + t != [];
      assert Split(a + t, sep) == [[a[0]] + rest[0]] + rest[1..];
      assert [a[0]] + (a[1..] + u[0]) == a + u[0];
    } else {
      var u := Split(t, sep);
      assert a + t == t && a + u[0] == u[0];
      assert [u[0]] + u[1..] == u;
    }
  }

  /** Splitting joined entries gives the entries back, provided there is at
      least one and none contains the separator. */
  lemma {:induction false} SplitJoin(list: seq<string>, sep: char)
    requires |list| >= 1
    requires forall i :: 0 <= i < |list| ==> sep !in list[i]
    ensures Split(Join(list, sep), sep) == list
  {
    SplitPrefix(list[0], [], sep);
    assert list[0] + [] == list[0];
    if |list| > 1 {
      var tail := list[1..];
      SplitJoin(tail, sep);
      var t := [sep] + Join(tail, sep);
      assert list[0] + [sep] + Join(tail, sep) == list[0] + t;
      SplitPrefix(list[0], t, sep);
      assert t[1..] == Join(tail, sep);
      assert Split(t, sep) == [[]] + tail;
      assert [list[0]] + tail == list;
    }
  }
}
