/** The Python string operations the generator and the utilities are built from, on `seq<char>`. */
module Text {

  /** Python's `str.isspace()`: the characters `strip()` removes and the regex class `\s` matches. */
  predicate IsSpace(c: char) {
    ('\t' <= c <= '\r') || ('\U{1C}' <= c <= ' ') || c == '\U{85}' || c == '\U{A0}'
    || c == '\U{1680}' || ('\U{2000}' <= c <= '\U{200A}') || c == '\U{2028}' || c == '\U{2029}'
    || c == '\U{202F}' || c == '\U{205F}' || c == '\U{3000}'
  }

  /** True of a string that Python considers blank: `not s.strip()`. */
  predicate Blank(s: string) {
    forall c <- s :: IsSpace(c)
  }

  function LStrip(s: string): (r: string)
    ensures |r| <= |s| && r == s[|s| - |r|..]
    ensures forall i :: 0 <= i < |s| - |r| ==> IsSpace(s[i])
    ensures r == [] || !IsSpace(r[0])
  {
    if s != [] && IsSpace(s[0]) then LStrip(s[1..]) else s
  }

  function RStrip(s: string): (r: string)
    ensures |r| <= |s| && r == s[..|r|]
    ensures forall i :: |r| <= i < |s| ==> IsSpace(s[i])
    ensures r == [] || !IsSpace(r[|r| - 1])
  {
    if s != [] && IsSpace(s[|s| - 1]) then RStrip(s[..|s| - 1]) else s
  }

  /** `str.strip()`: the infix of `s` left when the whitespace at both ends is cut off. */
  function Strip(s: string): (r: string)
    ensures |r| <= |s|
    ensures r == [] || (!IsSpace(r[0]) && !IsSpace(r[|r| - 1]))
    ensures r == [] <==> Blank(s)
  {
    RStrip(LStrip(s))
  }

  /** `strip()` keeps an infix: it starts where the leading whitespace ends. */
  lemma StripIsInfix(s: string)
    ensures var k := |s| - |LStrip(s)|;
      k + |Strip(s)| <= |s| && Strip(s) == s[k..k + |Strip(s)|]
  {
  }

  /** A string with no whitespace at either end is its own `strip()`. */
  lemma StripStripped(s: string)
    requires s == [] || (!IsSpace(s[0]) && !IsSpace(s[|s| - 1]))
    ensures Strip(s) == s
  {
  }

  /** Stripping keeps only characters of the original. */
  lemma StripChars(s: string)
    ensures forall c <- Strip(s) :: c in s
  {
    var r := Strip(s);
    var k := |s| - |LStrip(s)|;
    StripIsInfix(s);
    forall c | c in r ensures c in s {
      var i :| 0 <= i < |r| && r[i] == c;
      assert s[k + i] == c;
    }
  }

  /** `str.split(sep)` for a one-character separator: at least one piece, none holding `sep`. */
  function Split(s: string, sep: char): (parts: seq<string>)
    ensures |parts| >= 1
    ensures forall p <- parts :: sep !in p
  {
    if s == [] then [""]
    else
      var rest := Split(s[1..], sep);
      if s[0] == sep then [""] + rest else [[s[0]] + rest[0]] + rest[1..]
  }

  /** `sep.join(parts)`. */
  function Join(parts: seq<string>, sep: string): string {
    if parts == [] then ""
    else if |parts| == 1 then parts[0]
    else parts[0] + sep + Join(parts[1..], sep)
  }

  /** A join whose first part is non-empty is non-empty. */
  lemma JoinNonEmpty(parts: seq<string>, sep: string)
    requires parts != [] && parts[0] != ""
    ensures Join(parts, sep) != ""
  {
    if |parts| > 1 {
      assert Join(parts, sep) == parts[0] + sep + Join(parts[1..], sep);
      assert |Join(parts, sep)| >= |parts[0]|;
    }
  }

  /** Joining the pieces of a split with the separator gives the original string back. */
  lemma {:induction false} JoinSplit(s: string, sep: char)
    ensures Join(Split(s, sep), [sep]) == s
  {
    if s != [] {
      var rest := Split(s[1..], sep);
      JoinSplit(s[1..], sep);
      if s[0] != sep {
        if |rest| == 1 {
          assert Split(s, sep) == [[s[0]] + rest[0]];
        } else {
          assert Join(rest, [sep]) == rest[0] + [sep] + Join(rest[1..], [sep]);
          assert Split(s, sep)[1..] == rest[1..];
        }
      } else {
        assert Split(s, sep)[1..] == rest;
      }
    }
  }

  /** Every character of a join comes from one of the parts or from the separator. */
  lemma {:induction false} JoinChars(parts: seq<string>, sep: string, c: char)
    requires c in Join(parts, sep)
    ensures c in sep || exists p <- parts :: c in p
  {
    if |parts| == 1 {
      assert c in parts[0];
    } else if |parts| > 1 && c !in sep && c !in parts[0] {
      assert c in Join(parts[1..], sep);
      JoinChars(parts[1..], sep, c);
      var p :| p in parts[1..] && c in p;
      assert p in parts;
    }
  }

  /** Every character of `s` other than the separator lies in one of the pieces of its split. */
  lemma SplitChars(s: string, sep: char, c: char)
    requires c in s && c != sep
    ensures exists p <- Split(s, sep) :: c in p
  {
    JoinSplit(s, sep);
    JoinChars(Split(s, sep), [sep], c);
  }

  /** A piece free of the separator comes out of a split whole. */
  lemma {:induction false} SplitPiece(p: string, sep: char)
    requires sep !in p
    ensures Split(p, sep) == [p]
  {
    if p != [] {
      SplitPiece(p[1..], sep);
      assert [p[0]] + p[1..] == p;
    }
  }

  /** Splitting `p + sep + rest` cuts off exactly `p` when `p` holds no separator. */
  lemma {:induction false} SplitAfterPiece(p: string, sep: char, rest: string)
    requires sep !in p
    ensures Split(p + [sep] + rest, sep) == [p] + Split(rest, sep)
  {
    if p == [] {
      assert ([] + [sep] + rest)[1..] == rest;
    } else {
      assert (p + [sep] + rest)[1..] == p[1..] + [sep] + rest;
      SplitAfterPiece(p[1..], sep, rest);
      assert [p[0]] + p[1..] == p;
    }
  }

  /** Python's `s[:n]` for `n >= 0`. */
  function Prefix(s: string, n: nat): (r: string)
    ensures |r| <= n && |r| <= |s|
    ensures |r| == n || r == s
    ensures r == s[..|r|]
  {
    if n < |s| then s[..n] else s
  }

  /** `s.replace(pat, "")`: deletes the occurrences of `pat` that a left-to-right scan finds. */
  function Remove(s: string, pat: string): (r: string)
    requires pat != []
    ensures |r| <= |s|
    ensures forall c <- r :: c in s
    ensures |pat| == 1 ==> pat[0] !in r
    decreases |s|
  {
    if |s| < |pat| then s
    else if s[..|pat|] == pat then Remove(s[|pat|..], pat)
    else [s[0]] + Remove(s[1..], pat)
  }

  function LowerChar(c: char): char {
    if 'A' <= c <= 'Z' then (c as int + 32) as char else c
  }

  function UpperChar(c: char): char {
    if 'a' <= c <= 'z' then (c as int - 32) as char else c
  }

  /** `str.lower()` on ASCII letters. */
  function Lower(s: string): (r: string)
    ensures |r| == |s|
  {
    seq(|s|, i requires 0 <= i < |s| => LowerChar(s[i]))
  }

  /** `str.upper()` on ASCII letters. */
  function Upper(s: string): (r: string)
    ensures |r| == |s|
  {
    seq(|s|, i requires 0 <= i < |s| => UpperChar(s[i]))
  }

  /** `c * n`. */
  function Repeat(c: char, n: nat): (r: string)
    ensures |r| == n && forall i :: 0 <= i < n ==> r[i] == c
  {
    seq(n, _ => c)
  }

  predicate IsDigit(c: char) {
    '0' <= c <= '9'
  }

  function DigitChar(d: nat): (c: char)
    requires d < 10
    ensures IsDigit(c) && c as int - '0' as int == d
  {
    ('0' as int + d) as char
  }

  /** `str(n)` for a natural number: its decimal digits, most significant first. */
  function NatToString(n: nat): (r: string)
    ensures r != [] && forall c <- r :: IsDigit(c)
    ensures n >= 10 ==> r[0] != '0'
  {
    if n < 10 then [DigitChar(n)] else NatToString(n / 10) + [DigitChar(n % 10)]
  }

  /** The number a string of decimal digits denotes. */
  function DigitsValue(s: string): nat
    requires forall c <- s :: IsDigit(c)
  {
    if s == [] then 0
    else
      var last := s[|s| - 1];
      assert last in s;
      assert IsDigit(last);
      DigitsValue(s[..|s| - 1]) * 10 + (last as int - '0' as int)
  }

  /** Reading back the decimal rendering of `n` gives `n`, so distinct numbers render differently. */
  lemma {:induction false} NatToStringRoundTrip(n: nat)
    ensures DigitsValue(NatToString(n)) == n
  {
    if n >= 10 {
      var r := NatToString(n);
      assert r[..|r| - 1] == NatToString(n / 10);
      NatToStringRoundTrip(n / 10);
    }
  }

  predicate StartsWith(s: string, t: string) {
    |t| <= |s| && s[..|t|] == t
  }

  predicate EndsWith(s: string, t: string) {
    |t| <= |s| && s[|s| - |t|..] == t
  }

  lemma StartsWithAppend(a: string, b: string)
    ensures StartsWith(a + b, a)
  {
    assert (a + b)[..|a|] == a;
  }

  lemma StartsWithTrans(s: string, t: string, u: string)
    requires StartsWith(s, t) && StartsWith(t, u)
    ensures StartsWith(s, u)
  {
    assert s[..|u|] == t[..|u|];
  }

  lemma StartsWithExtend(s: string, t: string, b: string)
    requires StartsWith(s, t)
    ensures StartsWith(s + b, t)
  {
    assert (s + b)[..|t|] == s[..|t|];
  }

  lemma EndsWithAppend(a: string, b: string)
    ensures EndsWith(a + b, b)
  {
    assert (a + b)[|a|..] == b;
  }

  lemma EndsWithPrepend(a: string, s: string, t: string)
    requires EndsWith(s, t)
    ensures EndsWith(a + s, t)
  {
    assert (a + s)[|a + s| - |t|..] == s[|s| - |t|..];
  }

  /** Python's `t in s` on strings. */
  predicate Contains(s: string, t: string)
    decreases |s|
  {
    StartsWith(s, t) || (s != [] && Contains(s[1..], t))
  }

  /** A string contains every infix of it. */
  lemma {:induction false} ContainsInfix(a: string, t: string, b: string)
    ensures Contains(a + t + b, t)
  {
    if a != [] {
      assert (a + t + b)[1..] == a[1..] + t + b;
      ContainsInfix(a[1..], t, b);
    } else {
      assert (a + t + b)[..|t|] == t;
    }
  }

  /** A string contains each of its suffixes. */
  lemma ContainsEnd(a: string, t: string)
    ensures Contains(a + t, t)
  {
    ContainsInfix(a, t, "");
    assert a + t + "" == a + t;
  }

  /** A string contains each of its prefixes. */
  lemma ContainsStart(t: string, b: string)
    ensures Contains(t + b, t)
  {
    StartsWithAppend(t, b);
  }

  lemma {:induction false} ContainsAppend(s: string, t: string, b: string)
    requires Contains(s, t)
    ensures Contains(s + b, t)
  {
    if StartsWith(s, t) {
      assert (s + b)[..|t|] == s[..|t|];
    } else {
      assert (s + b)[1..] == s[1..] + b;
      ContainsAppend(s[1..], t, b);
    }
  }

  lemma {:induction false} ContainsPrepend(a: string, s: string, t: string)
    requires Contains(s, t)
    ensures Contains(a + s, t)
  {
    if a != [] {
      assert (a + s)[1..] == a[1..] + s;
      ContainsPrepend(a[1..], s, t);
    } else {
      assert a + s == s;
    }
  }

  /** Containment is transitive. */
  lemma {:induction false} ContainsTrans(s: string, t: string, u: string)
    requires Contains(s, t) && Contains(t, u)
    ensures Contains(s, u)
    decreases |s|
  {
    if StartsWith(s, t) {
      ContainsAppend(t, u, s[|t|..]);
      assert s == t + s[|t|..];
    } else {
      ContainsTrans(s[1..], t, u);
    }
  }

  /** Containment survives putting text on both sides. */
  lemma ContainsWithin(a: string, s: string, b: string, t: string)
    requires Contains(s, t)
    ensures Contains(a + s + b, t)
  {
    ContainsPrepend(a, s, t);
    ContainsAppend(a + s, t, b);
  }

  /** The concatenation of `piece(i, xs[i - 1])` over the 1-based positions `i` of `xs`, in order. */
  function Concat<T>(xs: seq<T>, piece: (nat, T) -> string): string
    decreases |xs|
  {
    if xs == [] then "" else Concat(xs[..|xs| - 1], piece) + piece(|xs|, xs[|xs| - 1])
  }

  /** The concatenation over the first `k` elements is a prefix of the whole. */
  lemma {:induction false} ConcatPrefix<T>(xs: seq<T>, piece: (nat, T) -> string, k: nat)
    requires k <= |xs|
    ensures StartsWith(Concat(xs, piece), Concat(xs[..k], piece))
    decreases |xs|
  {
    if k < |xs| {
      assert xs[..|xs| - 1][..k] == xs[..k];
      ConcatPrefix(xs[..|xs| - 1], piece, k);
    } else {
      assert xs[..k] == xs;
    }
  }

  /** Every element's piece occurs in the concatenation, right after the pieces before it. */
  lemma ConcatHasPiece<T>(xs: seq<T>, piece: (nat, T) -> string, k: nat)
    requires k < |xs|
    ensures StartsWith(Concat(xs, piece), Concat(xs[..k], piece) + piece(k + 1, xs[k]))
    ensures Contains(Concat(xs, piece), piece(k + 1, xs[k]))
  {
    var upto := xs[..k + 1];
    assert upto[..|upto| - 1] == xs[..k];
    var before, p := Concat(xs[..k], piece), piece(k + 1, xs[k]);
    assert Concat(upto, piece) == before + p;
    ConcatPrefix(xs, piece, k + 1);
    PrefixContains(Concat(xs, piece), before, p);
  }

  /** What a string starts with, it contains, and so every part of that. */
  lemma PrefixContains(s: string, before: string, p: string)
    requires StartsWith(s, before + p)
    ensures Contains(s, p)
  {
    var front := before + p;
    assert s == front + s[|front|..] by {
      assert s[..|front|] == front;
    }
    ContainsInfix(before, p, s[|front|..]);
  }

  /** The 1-based positions of the elements of `xs` that satisfy `flag`, in increasing order. */
  function Flagged<T>(xs: seq<T>, flag: T -> bool): (ks: seq<nat>)
    ensures forall k :: k in ks <==> 1 <= k <= |xs| && flag(xs[k - 1])
    ensures forall i, j :: 0 <= i < j < |ks| ==> ks[i] < ks[j]
    decreases |xs|
  {
    if xs == [] then []
    else
      var front := xs[..|xs| - 1];
      var ks := Flagged(front, flag);
      var tail: seq<nat> := if flag(xs[|xs| - 1]) then [|xs|] else [];
      assert forall i :: 0 <= i < |ks| ==> ks[i] in ks && ks[i] < |xs|;
      ks + tail
  }
}
