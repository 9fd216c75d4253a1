/**
 * `is_valid_url` (utilis.py): the language of its regular expression, stated piece by piece, and
 * the one-pass recogniser that decides it.
 */
module Url {
  import opened Text

  predicate IsAsciiLetter(c: char) {
    'a' <= c <= 'z' || 'A' <= c <= 'Z'
  }

  predicate IsAlnum(c: char) {
    IsAsciiLetter(c) || IsDigit(c)
  }

  /** `[A-Z0-9](?:[A-Z0-9-]{0,61}[A-Z0-9])?` under IGNORECASE: 1 to 63 characters, inner hyphens only. */
  predicate IsLabel(l: string) {
    1 <= |l| <= 63 && IsAlnum(l[0]) && IsAlnum(l[|l| - 1]) && forall c <- l :: IsAlnum(c) || c == '-'
  }

  /** `[A-Z]{2,6}` under IGNORECASE. */
  predicate IsTld(t: string) {
    2 <= |t| <= 6 && forall c <- t :: IsAsciiLetter(c)
  }

  /** `(?:label\.)+[A-Z]{2,6}\.?`: labels and a top-level domain, with an optional trailing dot. */
  predicate IsDomain(h: string) {
    var parts := Split(h, '.');
    var core := if parts[|parts| - 1] == "" then parts[..|parts| - 1] else parts;
    LabelsThenTld(core)
  }

  /** One or more labels, then the top-level domain, as the pieces between the dots. */
  predicate LabelsThenTld(parts: seq<string>)
    decreases |parts|
  {
    if |parts| == 2 then IsLabel(parts[0]) && IsTld(parts[1])
    else |parts| > 2 && IsLabel(parts[0]) && LabelsThenTld(parts[1..])
  }

  /** `localhost` under IGNORECASE. */
  predicate IsLocalhost(h: string) {
    Lower(h) == "localhost"
  }

  /** `\d{1,3}\.\d{1,3}\.\d{1,3}\.\d{1,3}`: four groups of one to three digits, no range check. */
  predicate IsDottedQuad(h: string) {
    var parts := Split(h, '.');
    |parts| == 4 && forall p <- parts :: 1 <= |p| <= 3 && forall c <- p :: IsDigit(c)
  }

  predicate IsHost(h: string) {
    IsDomain(h) || IsLocalhost(h) || IsDottedQuad(h)
  }

  /** `https?://` under IGNORECASE. */
  predicate IsScheme(s: string) {
    Lower(s) == "http://" || Lower(s) == "https://"
  }

  /** `(?::\d+)?` */
  predicate IsPort(p: string) {
    p == [] || (|p| >= 2 && p[0] == ':' && forall c <- p[1..] :: IsDigit(c))
  }

  /** `(?:/?|[/?]\S+)` */
  predicate IsTail(t: string) {
    t == "" || t == "/" || (|t| >= 2 && (t[0] == '/' || t[0] == '?') && forall c <- t[1..] :: !IsSpace(c))
  }

  /** What `$` lets follow the match: nothing, or one final newline. */
  predicate IsEnd(e: string) {
    e == "" || e == "\n"
  }

  /** `u` is scheme, host, port, tail and end, cut at `a`, `b`, `c` and `d`. */
  predicate SplitsAt(u: string, a: nat, b: nat, c: nat, d: nat) {
    a <= b <= |u| && IsScheme(u[..a]) && IsHost(u[a..b]) && RestSplitsAt(u, b, c, d)
  }

  /** What follows the host, cut at `c` and `d`: port, tail and end. */
  predicate RestSplitsAt(u: string, b: nat, c: nat, d: nat) {
    b <= c <= d <= |u| && IsPort(u[b..c]) && IsTail(u[c..d]) && IsEnd(u[d..])
  }

  /** The strings that `re.match` accepts with the pattern of `is_valid_url`. */
  ghost predicate InUrlLanguage(u: string) {
    exists a: nat, b: nat, c: nat, d: nat :: SplitsAt(u, a, b, c, d)
  }

  /** The characters a host can be made of. */
  predicate IsHostChar(c: char) {
    IsAlnum(c) || c == '-' || c == '.'
  }

  /** The length of the longest prefix of `s` made of host characters. */
  function HostRun(s: string): (n: nat)
    ensures n <= |s|
  {
    if s != [] && IsHostChar(s[0]) then 1 + HostRun(s[1..]) else 0
  }

  /** The length of the longest prefix of `s` made of digits. */
  function DigitRun(s: string): (n: nat)
    ensures n <= |s|
  {
    if s != [] && IsDigit(s[0]) then 1 + DigitRun(s[1..]) else 0
  }

  /** `s` begins with `lit` once its ASCII letters are lower-cased. */
  predicate FoldedPrefix(s: string, lit: string) {
    lit == [] || (s != [] && LowerChar(s[0]) == lit[0] && FoldedPrefix(s[1..], lit[1..]))
  }

  /** The length of the scheme `u` begins with, or 0 when it begins with none. */
  function SchemeLength(u: string): (n: nat)
    ensures n <= |u|
  {
    FoldedPrefixIsLower(u, "http://");
    FoldedPrefixIsLower(u, "https://");
    if FoldedPrefix(u, "http://") then 7
    else if FoldedPrefix(u, "https://") then 8
    else 0
  }

  function PortLength(s: string): (n: nat)
    ensures n <= |s|
  {
    if s != [] && s[0] == ':' && DigitRun(s[1..]) > 0 then 1 + DigitRun(s[1..]) else 0
  }

  /** `r` without the one final newline that `$` lets through. */
  function Unterminated(r: string): (t: string)
    ensures |t| <= |r| && t == r[..|t|]
  {
    if r != [] && r[|r| - 1] == '\n' then r[..|r| - 1] else r
  }

  /** A tail then `$`: a tail can never end with a newline, so the final one is cut first. */
  predicate IsTailAndEnd(r: string) {
    IsTail(Unterminated(r))
  }

  /**
   * `is_valid_url(url)`, read left to right: a scheme, then the whole run of host characters as the
   * host, then a port if a colon and digits follow, then the tail.
   */
  predicate IsValidUrl(u: string) {
    var a := SchemeLength(u);
    a > 0 && HostThenRest(u, a)
  }

  /** From `a` on: the run of host characters is a host, and a port and a tail follow it. */
  predicate HostThenRest(u: string, a: nat)
    requires a <= |u|
  {
    var b := a + HostRun(u[a..]);
    IsHost(u[a..b]) && PortThenTail(u, b)
  }

  /** From `b` on: an optional port, then the tail. */
  predicate PortThenTail(u: string, b: nat)
    requires b <= |u|
  {
    var c := b + PortLength(u[b..]);
    IsTailAndEnd(u[c..])
  }

  /** The host run is made of host characters, and stops at the end or at another character. */
  lemma {:induction false} HostRunIsRun(s: string)
    ensures forall i :: 0 <= i < HostRun(s) ==> IsHostChar(s[i])
    ensures HostRun(s) == |s| || !IsHostChar(s[HostRun(s)])
  {
    if s != [] && IsHostChar(s[0]) {
      HostRunIsRun(s[1..]);
      forall i | 1 <= i < HostRun(s) ensures IsHostChar(s[i]) {
        assert s[i] == s[1..][i - 1];
      }
    }
  }

  /** The digit run is made of digits, and stops at the end or at another character. */
  lemma {:induction false} DigitRunIsRun(s: string)
    ensures forall i :: 0 <= i < DigitRun(s) ==> IsDigit(s[i])
    ensures DigitRun(s) == |s| || !IsDigit(s[DigitRun(s)])
  {
    if s != [] && IsDigit(s[0]) {
      DigitRunIsRun(s[1..]);
      forall i | 1 <= i < DigitRun(s) ensures IsDigit(s[i]) {
        assert s[i] == s[1..][i - 1];
      }
    }
  }

  /** A run is as long as the prefix of run characters that a non-run character (or the end) stops. */
  lemma {:induction false} HostRunStops(s: string, k: nat)
    requires k <= |s|
    requires forall i :: 0 <= i < k ==> IsHostChar(s[i])
    requires k == |s| || !IsHostChar(s[k])
    ensures HostRun(s) == k
  {
    if k > 0 {
      HostRunStops(s[1..], k - 1);
    }
  }

  lemma {:induction false} DigitRunStops(s: string, k: nat)
    requires k <= |s|
    requires forall i :: 0 <= i < k ==> IsDigit(s[i])
    requires k == |s| || !IsDigit(s[k])
    ensures DigitRun(s) == k
  {
    if k > 0 {
      DigitRunStops(s[1..], k - 1);
    }
  }

  lemma LowerLetter(c: char)
    requires 'a' <= LowerChar(c) <= 'z'
    ensures IsAsciiLetter(c)
  {
  }

  /** A string whose dot-separated pieces are made of host characters is made of them too. */
  lemma PiecesHostChars(h: string)
    requires forall p <- Split(h, '.') :: forall c <- p :: IsHostChar(c)
    ensures forall c <- h :: IsHostChar(c)
  {
    forall c | c in h && c != '.' ensures IsHostChar(c) {
      SplitChars(h, '.', c);
    }
  }

  /** Labels and a top-level domain are made of host characters. */
  lemma {:induction false} LabelsThenTldChars(parts: seq<string>)
    requires LabelsThenTld(parts)
    ensures forall p <- parts :: forall c <- p :: IsHostChar(c)
    decreases |parts|
  {
    if |parts| > 2 {
      LabelsThenTldChars(parts[1..]);
      assert parts == [parts[0]] + parts[1..];
    } else {
      assert parts == [parts[0], parts[1]];
    }
  }

  lemma DomainChars(h: string)
    requires IsDomain(h)
    ensures forall c <- h :: IsHostChar(c)
  {
    var parts := Split(h, '.');
    var core := if parts[|parts| - 1] == "" then parts[..|parts| - 1] else parts;
    LabelsThenTldChars(core);
    forall j | 0 <= j < |parts| ensures forall c <- parts[j] :: IsHostChar(c) {
      if j < |core| {
        assert parts[j] == core[j] && core[j] in core;
      } else {
        assert parts[j] == "";
      }
    }
    PiecesHostChars(h);
  }

  lemma LocalhostChars(h: string)
    requires IsLocalhost(h)
    ensures forall c <- h :: IsHostChar(c)
  {
    forall i | 0 <= i < |h| ensures IsHostChar(h[i]) {
      assert Lower(h)[i] == LowerChar(h[i]);
      LowerLetter(h[i]);
    }
  }

  /** A host is made of host characters only. */
  lemma HostChars(h: string)
    requires IsHost(h)
    ensures forall c <- h :: IsHostChar(c)
  {
    if IsDomain(h) {
      DomainChars(h);
    } else if IsLocalhost(h) {
      LocalhostChars(h);
    } else {
      PiecesHostChars(h);
    }
  }

  /** The recogniser accepts exactly the language of the regular expression. */
  lemma ValidUrlIsLanguage(u: string)
    ensures IsValidUrl(u) <==> InUrlLanguage(u)
  {
    if IsValidUrl(u) {
      ScanIsSplit(u);
    }
    if InUrlLanguage(u) {
      var a: nat, b: nat, c: nat, d: nat :| SplitsAt(u, a, b, c, d);
      LanguageSplitIsScan(u, a, b, c, d);
    }
  }

  /** The cuts the recogniser makes split `u` as the regular expression does. */
  lemma ScanIsSplit(u: string)
    requires IsValidUrl(u)
    ensures InUrlLanguage(u)
  {
    var a := SchemeLength(u);
    var b := a + HostRun(u[a..]);
    HostStepSucceeds(u);
    var c := b + PortLength(u[b..]);
    assert PortThenTail(u, b);
    assert IsTailAndEnd(u[c..]);
    StepsSplit(u, a, b, c);
  }

  /** An accepted URL's host run is a host. */
  lemma HostStepSucceeds(u: string)
    requires IsValidUrl(u)
    ensures var a := SchemeLength(u); var b := a + HostRun(u[a..]); IsHost(u[a..b]) && PortThenTail(u, b)
  {
    assert HostThenRest(u, SchemeLength(u));
  }

  /** The recogniser's steps, once they succeed, give the cuts of the regular expression. */
  lemma StepsSplit(u: string, a: nat, b: nat, c: nat)
    requires 0 < a <= b <= c <= |u|
    requires SchemeLength(u) == a && IsHost(u[a..b])
    requires PortLength(u[b..]) == c - b && IsTailAndEnd(u[c..])
    ensures InUrlLanguage(u)
  {
    var r := u[c..];
    var d := c + |Unterminated(r)|;
    ScanScheme(u);
    ScanPort(u[b..]);
    assert u[b..c] == u[b..][..PortLength(u[b..])];
    ScanTail(r);
    assert u[c..d] == r[..d - c] && u[d..] == r[d - c..];
    assert RestSplitsAt(u, b, c, d);
    assert SplitsAt(u, a, b, c, d);
  }

  /** The character-by-character prefix test is the comparison of the lower-cased prefix. */
  lemma {:induction false} FoldedPrefixIsLower(s: string, lit: string)
    ensures FoldedPrefix(s, lit) <==> |lit| <= |s| && Lower(s[..|lit|]) == lit
  {
    if lit != [] && s != [] {
      FoldedPrefixIsLower(s[1..], lit[1..]);
      if |lit| <= |s| {
        var n := |lit|;
        assert Lower(s[..n]) == [LowerChar(s[0])] + Lower(s[1..][..n - 1]);
        assert lit == [lit[0]] + lit[1..];
      }
    }
  }

  /** The scheme step, read through the lower-cased prefixes. */
  lemma SchemeLengthIsLower(u: string)
    ensures SchemeLength(u) == 7 <==> |u| >= 7 && Lower(u[..7]) == "http://"
    ensures SchemeLength(u) == 8 <==>
      !(|u| >= 7 && Lower(u[..7]) == "http://") && |u| >= 8 && Lower(u[..8]) == "https://"
  {
    FoldedPrefixIsLower(u, "http://");
    FoldedPrefixIsLower(u, "https://");
  }

  /** What the scheme step takes is a scheme. */
  lemma ScanScheme(u: string)
    requires SchemeLength(u) > 0
    ensures IsScheme(u[..SchemeLength(u)])
  {
    SchemeLengthIsLower(u);
  }

  /** What the port step takes is a port. */
  lemma ScanPort(s: string)
    ensures IsPort(s[..PortLength(s)])
  {
    var n := PortLength(s);
    if n > 0 {
      DigitRunIsRun(s[1..]);
      var p := s[..n];
      forall i | 0 <= i < |p[1..]| ensures IsDigit(p[1..][i]) {
        assert p[1..][i] == s[1..][i];
      }
    }
  }

  /** What remains after the port is a tail, then nothing or the final newline. */
  lemma ScanTail(r: string)
    requires IsTailAndEnd(r)
    ensures var d := |Unterminated(r)|;
      IsTail(r[..d]) && IsEnd(r[d..])
  {
    var d := |Unterminated(r)|;
    if d < |r| {
      assert r[d..] == [r[|r| - 1]];
    }
  }

  /** A tail never ends with a newline. */
  lemma TailEndsOpen(t: string)
    requires IsTail(t)
    ensures t == [] || t[|t| - 1] != '\n'
  {
    if |t| >= 2 {
      assert t[|t| - 1] == t[1..][|t| - 2];
      assert IsSpace('\n');
    }
  }

  /** After the host comes a colon, a slash, a question mark, the final newline or nothing. */
  lemma AfterHost(u: string, b: nat, c: nat, d: nat)
    requires RestSplitsAt(u, b, c, d)
    ensures b < |u| ==> u[b] == ':' || u[b] == '/' || u[b] == '?' || u[b] == '\n'
    ensures c < |u| ==> u[c] == '/' || u[c] == '?' || u[c] == '\n'
  {
    if c < |u| {
      if d > c {
        assert u[c] == u[c..d][0];
      } else {
        assert u[c] == u[d..][0];
      }
    }
    if b < |u| && c > b {
      assert u[b] == u[b..c][0];
    }
  }

  /** The host the regular expression matches is the whole run of host characters. */
  lemma HostIsRun(u: string, a: nat, b: nat, c: nat, d: nat)
    requires a <= b <= |u| && IsHost(u[a..b]) && RestSplitsAt(u, b, c, d)
    ensures HostRun(u[a..]) == b - a
  {
    AfterHost(u, b, c, d);
    var h := u[a..b];
    HostChars(h);
    var rest := u[a..];
    forall i | 0 <= i < b - a ensures IsHostChar(rest[i]) {
      assert rest[i] == h[i];
    }
    assert b - a < |rest| ==> rest[b - a] == u[b];
    HostRunStops(rest, b - a);
  }

  /** The port the regular expression matches is a colon and the whole run of digits after it. */
  lemma PortIsRun(u: string, b: nat, c: nat, d: nat)
    requires RestSplitsAt(u, b, c, d)
    ensures PortLength(u[b..]) == c - b
  {
    AfterHost(u, b, c, d);
    var rest := u[b..];
    if c > b {
      var p := u[b..c];
      var after := rest[1..];
      forall i | 0 <= i < c - b - 1 ensures IsDigit(after[i]) {
        assert after[i] == p[1..][i];
      }
      assert c - b - 1 < |after| ==> after[c - b - 1] == u[c];
      DigitRunStops(after, c - b - 1);
    }
  }

  /** Whatever cut the regular expression chooses is the one the one-pass recogniser makes. */
  lemma LanguageSplitIsScan(u: string, a: nat, b: nat, c: nat, d: nat)
    requires SplitsAt(u, a, b, c, d)
    ensures IsValidUrl(u)
  {
    SchemeIsFirst(u, a);
    assert a > 0 by {
      assert |Lower(u[..a])| == a;
    }
    assert IsHost(u[a..b]) && RestSplitsAt(u, b, c, d);
    HostIsRun(u, a, b, c, d);
    PortIsRun(u, b, c, d);
    TailIsRest(u, c, d);
    AcceptedBySteps(u, a, b, c);
  }

  /** The tail and the end the regular expression matches are what the recogniser's last step reads. */
  lemma TailIsRest(u: string, c: nat, d: nat)
    requires c <= d <= |u| && IsTail(u[c..d]) && IsEnd(u[d..])
    ensures IsTailAndEnd(u[c..])
  {
    var r := u[c..];
    assert r == u[c..d] + u[d..];
    TailEndsOpen(u[c..d]);
    if u[d..] == "\n" {
      assert r[..|r| - 1] == u[c..d];
    } else {
      assert r == u[c..d];
    }
  }

  /** The scheme is recognised by its length: `http://` and `https://` cannot both match. */
  lemma SchemeIsFirst(u: string, a: nat)
    requires a <= |u| && IsScheme(u[..a])
    ensures SchemeLength(u) == a
  {
    SchemeLengthIsLower(u);
    if a == 8 {
      assert Lower(u[..7])[4] == LowerChar(u[4]) == Lower(u[..8])[4];
    }
  }

  /** Every accepted URL begins with `http://` or `https://`, in any letter case. */
  lemma ValidUrlHasScheme(u: string)
    requires IsValidUrl(u)
    ensures (|u| >= 7 && Lower(u[..7]) == "http://") || (|u| >= 8 && Lower(u[..8]) == "https://")
  {
    SchemeLengthIsLower(u);
  }

  /** An accepted URL holds no whitespace, except possibly one final newline. */
  lemma ValidUrlHasNoSpace(u: string)
    requires IsValidUrl(u)
    ensures forall i :: 0 <= i < |u| && IsSpace(u[i]) ==> i == |u| - 1 && u[i] == '\n'
  {
    var a := SchemeLength(u);
    var b := a + HostRun(u[a..]);
    HostStepSucceeds(u);
    var c := b + PortLength(u[b..]);
    assert IsTailAndEnd(u[c..]);
    StepsNoSpace(u, a, b, c);
  }

  /** Scheme, host run, port and tail, read in turn, hold no whitespace but a final newline. */
  lemma StepsNoSpace(u: string, a: nat, b: nat, c: nat)
    requires a == SchemeLength(u) && b == a + HostRun(u[a..]) && c == b + PortLength(u[b..])
    requires IsTailAndEnd(u[c..])
    ensures forall i :: 0 <= i < |u| && IsSpace(u[i]) ==> i == |u| - 1 && u[i] == '\n'
  {
    SchemeNoSpace(u);
    HostRunIsRun(u[a..]);
    forall i | a <= i < b ensures !IsSpace(u[i]) {
      assert IsHostChar(u[a..][i - a]);
    }
    PortNoSpace(u[b..]);
    forall i | b <= i < c ensures !IsSpace(u[i]) {
      assert u[b..][i - b] == u[i];
    }
    TailNoSpace(u[c..]);
    forall i | c <= i < |u| && IsSpace(u[i]) ensures i == |u| - 1 && u[i] == '\n' {
      assert u[c..][i - c] == u[i];
    }
  }

  lemma SchemeNoSpace(u: string)
    ensures forall i :: 0 <= i < SchemeLength(u) ==> !IsSpace(u[i])
  {
    var a := SchemeLength(u);
    SchemeLengthIsLower(u);
    forall i | 0 <= i < a ensures !IsSpace(u[i]) {
      assert Lower(u[..a])[i] == LowerChar(u[i]);
    }
  }

  lemma PortNoSpace(p: string)
    ensures forall i :: 0 <= i < PortLength(p) ==> !IsSpace(p[i])
  {
    if PortLength(p) > 0 {
      DigitRunIsRun(p[1..]);
      forall i | 1 <= i < PortLength(p) ensures IsDigit(p[i]) {
        assert p[i] == p[1..][i - 1];
      }
    }
  }

  lemma TailNoSpace(r: string)
    requires IsTailAndEnd(r)
    ensures forall i :: 0 <= i < |r| && IsSpace(r[i]) ==> i == |r| - 1 && r[i] == '\n'
  {
    var t := Unterminated(r);
    forall i | 1 <= i < |t| ensures !IsSpace(r[i]) {
      assert r[i] == t[1..][i - 1];
    }
  }

  /** One label, a dot and a top-level domain make a host. */
  lemma LabelDotTldIsHost(l: string, t: string)
    requires IsLabel(l) && IsTld(t)
    ensures IsHost(l + ['.'] + t)
  {
    assert '.' !in l && '.' !in t;
    SplitAfterPiece(l, '.', t);
    SplitPiece(t, '.');
    var parts := Split(l + ['.'] + t, '.');
    assert parts == [l, t];
  }

  lemma ExampleComIsHost()
    ensures IsHost("example.com")
  {
    assert IsLabel("example");
    assert IsTld("com");
    LabelDotTldIsHost("example", "com");
    assert "example" + ['.'] + "com" == "example.com";
  }

  /** The recogniser accepts `u` once each of its steps is known to succeed. */
  lemma AcceptedBySteps(u: string, a: nat, b: nat, c: nat)
    requires 0 < a <= b <= c <= |u|
    requires SchemeLength(u) == a && HostRun(u[a..]) == b - a && IsHost(u[a..b])
    requires PortLength(u[b..]) == c - b && IsTailAndEnd(u[c..])
    ensures IsValidUrl(u)
  {
    assert PortThenTail(u, b);
    assert HostThenRest(u, a);
  }

  lemma ExampleDomainScheme(u: string)
    requires u == "https://example.com"
    ensures SchemeLength(u) == 8
  {
    assert Lower(u[..7])[4] == 's';
    assert Lower(u[..8]) == "https://";
    SchemeLengthIsLower(u);
  }

  lemma ExampleDomainAccepted(u: string)
    requires u == "https://example.com"
    ensures IsValidUrl(u)
  {
    ExampleDomainScheme(u);
    assert u[8..] == "example.com" == u[8..19];
    HostRunStops("example.com", 11);
    ExampleComIsHost();
    assert u[19..] == "";
    AcceptedBySteps(u, 8, 19, 19);
  }

  lemma ExampleLocalhostHost(h: string)
    requires h == "localhost:8080/path"
    ensures HostRun(h) == 9 && IsHost(h[..9])
  {
    HostRunStops(h, 9);
    assert h[..9] == "localhost";
    assert Lower(h[..9]) == "localhost";
  }

  lemma ExampleLocalhostPort(p: string)
    requires p == ":8080/path"
    ensures PortLength(p) == 5 && IsTailAndEnd(p[5..])
  {
    assert p[1..] == "8080/path";
    DigitRunStops(p[1..], 4);
    assert p[5..] == "/path";
  }

  lemma ExampleLocalhostScheme(v: string)
    requires v == "http://localhost:8080/path"
    ensures SchemeLength(v) == 7
  {
    assert Lower(v[..7]) == "http://";
    SchemeLengthIsLower(v);
  }

  lemma ExampleLocalhostAccepted(v: string)
    requires v == "http://localhost:8080/path"
    ensures IsValidUrl(v)
  {
    ExampleLocalhostScheme(v);
    ExampleLocalhostHost(v[7..]);
    assert v[7..][..9] == v[7..16];
    ExampleLocalhostPort(v[16..]);
    assert v[16..][5..] == v[21..];
    AcceptedBySteps(v, 7, 16, 21);
  }

  lemma ExamplesRejected()
    ensures !IsValidUrl("ftp://x")
    ensures !IsValidUrl("not a url")
  {
    assert Lower("ftp://x"[..7])[0] == 'f';
    assert Lower("not a url"[..7])[0] == 'n';
    assert Lower("not a url"[..8])[0] == 'n';
  }
}
