/** The two `strings` functions the handler relies on. Go strings are byte
    strings that `strings.TrimSpace` decodes as UTF-8; here a string is the
    sequence of its decoded characters (runes), which is one character per
    byte only for ASCII. */
module Text {

  /** The result of `strings.Cut(s, sep)`. */
  datatype CutResult = CutResult(before: string, after: string, found: bool)

  /** `strings.Cut` for a one-character separator: the text before the first
      `sep`, the text after it, and whether `sep` occurs at all. */
  function Cut(s: string, sep: char): (r: CutResult)
    ensures r.found <==> sep in s
    ensures sep !in r.before
    ensures r.found ==> s == r.before + [sep] + r.after
    ensures !r.found ==> r.before == s && r.after == ""
  {
    if s == [] then CutResult("", "", false)
    else if s[0] == sep then CutResult("", s[1..], true)
    else
      var t := Cut(s[1..], sep);
      assert s == [s[0]] + s[1..];
      CutResult([s[0]] + t.before, t.after, t.found)
  }

  /** The split at the FIRST separator is the only one whose left part is
      free of the separator: this pins down what `Cut` returns. */
  lemma {:induction false} CutAtFirst(a: string, sep: char, b: string)
    requires sep !in a
    ensures Cut(a + [sep] + b, sep) == CutResult(a, b, true)
  {
    var s := a + [sep] + b;
    if a == [] {
      assert s[1..] == b;
    } else {
      assert s[0] == a[0] != sep;
      assert s[1..] == a[1..] + [sep] + b;
      CutAtFirst(a[1..], sep, b);
      assert [a[0]] + a[1..] == a;
    }
  }

  /** `Cut` returns `a` as the text before the separator exactly when the
      input is `a` itself or starts with `a` and the separator. */
  lemma CutBeforeIff(s: string, sep: char, a: string)
    requires sep !in a
    ensures Cut(s, sep).before == a
            <==> s == a || (|s| > |a| && s[..|a| + 1] == a + [sep])
  {
    if |s| > |a| && s[..|a| + 1] == a + [sep] {
      assert s == a + [sep] + s[|a| + 1..];
      CutAtFirst(a, sep, s[|a| + 1..]);
    }
  }

  /** `unicode.IsSpace`, the predicate `strings.TrimSpace` strips by. */
  predicate IsSpace(c: char)
  {
    c == ' ' || c == '\t' || c == '\n' || c == '\U{B}' || c == '\U{C}' || c == '\r'
    || c == '\U{85}' || c == '\U{A0}' || c == '\U{1680}'
    || ('\U{2000}' <= c <= '\U{200A}')
    || c == '\U{2028}' || c == '\U{2029}' || c == '\U{202F}' || c == '\U{205F}' || c == '\U{3000}'
  }

  predicate AllSpace(s: string)
  {
    forall i :: 0 <= i < |s| ==> IsSpace(s[i])
  }

  /** Drops leading white space: what is left is a suffix of `s` that does not
      start with a space, and everything dropped was space. */
  function TrimLeft(s: string): (r: string)
    ensures |r| <= |s| && r == s[|s| - |r|..]
    ensures AllSpace(s[..|s| - |r|])
    ensures r != [] ==> !IsSpace(r[0])
  {
    if s != [] && IsSpace(s[0]) then TrimLeft(s[1..]) else s
  }

  /** Drops trailing white space: what is left is a prefix of `s` that does
      not end with a space, and everything dropped was space. */
  function TrimRight(s: string): (r: string)
    ensures |r| <= |s| && r == s[..|r|]
    ensures AllSpace(s[|r|..])
    ensures r != [] ==> !IsSpace(r[|r| - 1])
  {
    if s != [] && IsSpace(s[|s| - 1]) then TrimRight(s[..|s| - 1]) else s
  }

  /** `strings.TrimSpace`. */
  function TrimSpace(s: string): string
  {
    TrimRight(TrimLeft(s))
  }

  /** A name is blank after trimming exactly when every character is space. */
  lemma TrimSpaceEmptyIff(s: string)
    ensures TrimSpace(s) == "" <==> AllSpace(s)
  {
    var l := TrimLeft(s);
    assert s[..|s|] == s;
    assert l != [] ==> TrimRight(l) != [];
  }
}
