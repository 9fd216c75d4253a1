/** The text helpers of utilis.py other than `validate_inputs` and `is_valid_url`. */
module Utilities {
  import opened Optional
  import opened Text
  import opened Briefs

  // ---------------------------------------------------------------- clean_text, count_characters

  /** Every whitespace character of `s` is a plain space. */
  predicate OnlyPlainSpaces(s: string) {
    forall i :: 0 <= i < |s| && IsSpace(s[i]) ==> s[i] == ' '
  }

  /** No two whitespace characters of `s` stand side by side. */
  predicate NoSpaceRuns(s: string) {
    forall i :: 0 <= i < |s| - 1 ==> !(IsSpace(s[i]) && IsSpace(s[i + 1]))
  }

  lemma ConsSpaced(c: char, t: string)
    requires OnlyPlainSpaces(t) && NoSpaceRuns(t)
    requires IsSpace(c) ==> c == ' ' && (t == [] || !IsSpace(t[0]))
    ensures OnlyPlainSpaces([c] + t) && NoSpaceRuns([c] + t)
  {
    var r := [c] + t;
    forall i | 0 <= i < |r| - 1 ensures !(IsSpace(r[i]) && IsSpace(r[i + 1])) {
      if i > 0 {
        assert r[i] == t[i - 1] && r[i + 1] == t[i];
      }
    }
  }

  /** `re.sub(r'\s+', ' ', s)`: every run of whitespace becomes one space. */
  function CollapseSpaces(s: string): (r: string)
    ensures OnlyPlainSpaces(r) && NoSpaceRuns(r)
    ensures s != [] && !IsSpace(s[0]) ==> r != [] && r[0] == s[0]
    decreases |s|
  {
    if s == [] then []
    else if IsSpace(s[0]) then
      assert LStrip(s) == LStrip(s[1..]);
      var t := CollapseSpaces(LStrip(s));
      ConsSpaced(' ', t);
      [' '] + t
    else
      var t := CollapseSpaces(s[1..]);
      ConsSpaced(s[0], t);
      [s[0]] + t
  }

  /** `re.sub(r'\n+', '\n', s)`: every run of newlines becomes one newline. */
  function SqueezeNewlines(s: string): (r: string)
    ensures '\n' !in s ==> r == s
    decreases |s|
  {
    if s == [] then []
    else if s[0] == '\n' && |s| > 1 && s[1] == '\n' then SqueezeNewlines(s[1..])
    else [s[0]] + SqueezeNewlines(s[1..])
  }

  /** An infix of a single-spaced string is single-spaced. */
  lemma InfixSpaced(s: string, k: nat, r: string)
    requires k + |r| <= |s| && r == s[k..k + |r|]
    requires OnlyPlainSpaces(s) && NoSpaceRuns(s)
    ensures OnlyPlainSpaces(r) && NoSpaceRuns(r)
  {
    assert forall i :: 0 <= i < |r| ==> r[i] == s[k + i];
  }

  lemma PlainHasNoNewline(s: string)
    requires OnlyPlainSpaces(s)
    ensures '\n' !in s
  {
    forall i | 0 <= i < |s| ensures s[i] != '\n' {
      if s[i] == '\n' { assert IsSpace(s[i]); }
    }
  }

  /**
   * `clean_text(text)`: no whitespace at either end, no two whitespace characters side by side,
   * every whitespace character a plain space, and so no newline at all (the newline substitution
   * finds none to squeeze).
   */
  function CleanText(text: string): (r: string)
    ensures r == [] || (!IsSpace(r[0]) && !IsSpace(r[|r| - 1]))
    ensures OnlyPlainSpaces(r) && NoSpaceRuns(r)
    ensures '\n' !in r
  {
    var collapsed := CollapseSpaces(text);
    PlainHasNoNewline(collapsed);
    var squeezed := SqueezeNewlines(collapsed);
    StripKeepsSpacing(squeezed);
    var r := Strip(squeezed);
    PlainHasNoNewline(r);
    r
  }

  /** Stripping a single-spaced string leaves it single-spaced. */
  lemma StripKeepsSpacing(s: string)
    requires OnlyPlainSpaces(s) && NoSpaceRuns(s)
    ensures OnlyPlainSpaces(Strip(s)) && NoSpaceRuns(Strip(s))
  {
    StripIsInfix(s);
    InfixSpaced(s, |s| - |LStrip(s)|, Strip(s));
  }

  /** The non-whitespace characters of `s`, in order. */
  function NonSpace(s: string): string {
    if s == [] then [] else (if IsSpace(s[0]) then [] else [s[0]]) + NonSpace(s[1..])
  }

  lemma {:induction false} NonSpaceConcat(a: string, b: string)
    ensures NonSpace(a + b) == NonSpace(a) + NonSpace(b)
  {
    if a != [] {
      assert (a + b)[1..] == a[1..] + b;
      NonSpaceConcat(a[1..], b);
    } else {
      assert a + b == b;
    }
  }

  lemma {:induction false} NonSpaceOfBlank(s: string)
    requires Blank(s)
    ensures NonSpace(s) == []
  {
    if s != [] {
      NonSpaceOfBlank(s[1..]);
    }
  }

  lemma NonSpaceLStrip(s: string)
    ensures NonSpace(LStrip(s)) == NonSpace(s)
  {
    var l := LStrip(s);
    var cut := s[..|s| - |l|];
    assert s == cut + l;
    NonSpaceConcat(cut, l);
    NonSpaceOfBlank(cut);
  }

  lemma NonSpaceStrip(s: string)
    ensures NonSpace(Strip(s)) == NonSpace(s)
  {
    NonSpaceLStrip(s);
    NonSpaceRStrip(LStrip(s));
  }

  lemma NonSpaceRStrip(s: string)
    ensures NonSpace(RStrip(s)) == NonSpace(s)
  {
    var r := RStrip(s);
    var cut := s[|r|..];
    assert s == r + cut;
    assert Blank(cut) by {
      forall c | c in cut ensures IsSpace(c) {
        var i :| 0 <= i < |cut| && cut[i] == c;
        assert s[|r| + i] == c;
      }
    }
    NonSpaceConcat(r, cut);
    NonSpaceOfBlank(cut);
  }

  lemma {:induction false} NonSpaceCollapse(s: string)
    ensures NonSpace(CollapseSpaces(s)) == NonSpace(s)
    decreases |s|
  {
    if s != [] {
      if IsSpace(s[0]) {
        assert LStrip(s) == LStrip(s[1..]);
        NonSpaceCollapse(LStrip(s));
        NonSpaceConcat([' '], CollapseSpaces(LStrip(s)));
        NonSpaceLStrip(s);
      } else {
        NonSpaceCollapse(s[1..]);
        NonSpaceConcat([s[0]], CollapseSpaces(s[1..]));
      }
    }
  }

  /** Cleaning only ever removes or rewrites whitespace: the other characters survive, in order. */
  lemma CleanTextKeepsText(text: string)
    ensures NonSpace(CleanText(text)) == NonSpace(text)
  {
    var collapsed := CollapseSpaces(text);
    NonSpaceCollapse(text);
    NonSpaceStrip(SqueezeNewlines(collapsed));
  }

  /** A string whose only whitespace is single inner spaces collapses to itself. */
  lemma {:induction false} CollapseClean(s: string)
    requires OnlyPlainSpaces(s) && NoSpaceRuns(s)
    ensures CollapseSpaces(s) == s
    decreases |s|
  {
    if s != [] {
      if IsSpace(s[0]) {
        assert |s| > 1 ==> !IsSpace(s[1]);
        assert LStrip(s) == s[1..] by {
          assert LStrip(s) == LStrip(s[1..]);
        }
      }
      InfixSpaced(s, 1, s[1..]);
      CollapseClean(s[1..]);
    }
  }

  /** Cleaning a cleaned text changes nothing. */
  lemma CleanTextIdempotent(text: string)
    ensures CleanText(CleanText(text)) == CleanText(text)
  {
    var t := CleanText(text);
    CollapseClean(t);
    StripStripped(t);
  }

  /** `count_characters(text)`: the length of the stripped text. */
  function CountCharacters(text: string): (n: nat)
    ensures n <= |text|
    ensures n == 0 <==> Blank(text)
  {
    |Strip(text)|
  }

  // ---------------------------------------------------------------- truncate_text

  /** Python's `s[:k]` for any integer `k`: a negative `k` counts from the end. */
  function SliceTo(s: string, k: int): (r: string)
    ensures |r| <= |s| && r == s[..|r|]
  {
    if k >= 0 then Prefix(s, k) else if |s| + k > 0 then s[..|s| + k] else []
  }

  /** `truncate_text(text, max_length)` as written. */
  function TruncateText(text: string, maxLength: int): (r: string)
    ensures |text| <= maxLength ==> r == text
    ensures |text| > maxLength >= 3 ==> |r| == maxLength && r == text[..maxLength - 3] + "..."
  {
    if |text| <= maxLength then text else SliceTo(text, maxLength - 3) + "..."
  }

  /** Below a limit of 3 the negative slice keeps most of the text: the result outgrows the limit. */
  lemma TruncateTextOverflows()
    ensures TruncateText("abcdef", 1) == "abcd..."
    ensures |TruncateText("abcdef", 1)| > 1
  {
    assert "abcdef"[..4] == "abcd";
  }

  /**
   * `truncate_text` with the evident intent kept for every limit: at most `maxLength` characters,
   * the text itself when it fits, and the ellipsis only when there is room for it.
   */
  function TruncateTextBounded(text: string, maxLength: nat): (r: string)
    ensures |r| <= maxLength
    ensures |text| <= maxLength ==> r == text
    ensures |text| > maxLength >= 3 ==> r == text[..maxLength - 3] + "..."
    ensures |text| > maxLength ==> StartsWith(text, r[..|r| - (if maxLength >= 3 then 3 else 0)])
  {
    if |text| <= maxLength then text
    else if maxLength >= 3 then text[..maxLength - 3] + "..."
    else text[..maxLength]
  }

  /** Where the source's truncation is bounded (limits of 3 and more), the two agree. */
  lemma TruncateTextAgrees(text: string, maxLength: nat)
    requires maxLength >= 3
    ensures TruncateTextBounded(text, maxLength) == TruncateText(text, maxLength)
  {
  }

  // ---------------------------------------------------------------- extract_products_info

  /** The line of one product: `"{i}. {name}"`, `" - {link}"` when linked, then a newline. */
  function ProductInfoLine(position: nat, p: Option<Product>): string {
    if Named(p) then
      NatToString(position) + ". " + p.value.name.value
      + (if Linked(p) then " - " + p.value.link.value else "") + "\n"
    else ""
  }

  function ProductsInfo(products: seq<Option<Product>>): string {
    if products == [] then "" else "PRODOTTI:\n" + Concat(products, ProductInfoLine)
  }

  /** `extract_products_info(products)`. */
  method ExtractProductsInfo(products: seq<Option<Product>>) returns (info: string)
    ensures info == ProductsInfo(products)
  {
    if products == [] {
      return "";
    }
    info := "PRODOTTI:\n";
    var i := 0;
    while i < |products|
      invariant 0 <= i <= |products|
      invariant info == "PRODOTTI:\n" + Concat(products[..i], ProductInfoLine)
    {
      var line := InfoLine(i + 1, products[i]);
      assert Concat(products[..i + 1], ProductInfoLine) == Concat(products[..i], ProductInfoLine) + line by {
        assert products[..i + 1][..i] == products[..i];
      }
      info := info + line;
      i := i + 1;
    }
    assert products[..i] == products;
  }

  /** The loop body of `extract_products_info`: the line of one product, or nothing. */
  method InfoLine(position: nat, product: Option<Product>) returns (line: string)
    ensures line == ProductInfoLine(position, product)
  {
    line := "";
    if product.Some? && product.value.name.Some? && product.value.name.value != "" {
      line := NatToString(position) + ". " + product.value.name.value;
      if product.value.link.Some? && product.value.link.value != "" {
        line := line + " - " + product.value.link.value;
      } else {
        assert line + "" == line;
      }
      line := line + "\n";
    }
  }

  /**
   * Each named product is listed under its 1-based position in the whole list (unnamed and `None`
   * entries still use up a number), with its link when it has one.
   */
  lemma ProductsInfoListsNamed(products: seq<Option<Product>>, k: nat)
    requires k < |products| && Named(products[k])
    ensures StartsWith(ProductsInfo(products), "PRODOTTI:\n")
    ensures Contains(ProductsInfo(products), NatToString(k + 1) + ". " + products[k].value.name.value
      + (if Linked(products[k]) then " - " + products[k].value.link.value else "") + "\n")
  {
    ConcatHasPiece(products, ProductInfoLine, k);
    ContainsPrepend("PRODOTTI:\n", Concat(products, ProductInfoLine), ProductInfoLine(k + 1, products[k]));
  }

  /** A list with no named product yields the bare heading; an empty list yields nothing. */
  lemma {:induction false} ProductsInfoUnnamed(products: seq<Option<Product>>)
    requires forall p <- products :: !Named(p)
    ensures Concat(products, ProductInfoLine) == ""
  {
    if products != [] {
      ProductsInfoUnnamed(products[..|products| - 1]);
    }
  }

  // ---------------------------------------------------------------- format_market_segments, parse_comma_separated

  /** `[s.strip() for s in xs if s and s.strip()]`. */
  function StrippedNonBlank(xs: seq<string>): (r: seq<string>)
    ensures |r| <= |xs|
    ensures forall s <- r :: s != [] && !IsSpace(s[0]) && !IsSpace(s[|s| - 1])
  {
    if xs == [] then []
    else if Blank(xs[0]) then StrippedNonBlank(xs[1..])
    else
      var s, rest := Strip(xs[0]), StrippedNonBlank(xs[1..]);
      assert forall t <- [s] + rest :: t == s || t in rest;
      [s] + rest
  }

  /** Nothing is kept exactly when every segment is blank. */
  lemma {:induction false} StrippedNonBlankEmpty(xs: seq<string>)
    ensures StrippedNonBlank(xs) == [] <==> forall x <- xs :: Blank(x)
  {
    if xs != [] {
      StrippedNonBlankEmpty(xs[1..]);
      assert forall x <- xs :: x == xs[0] || x in xs[1..];
      assert forall x <- xs[1..] :: x in xs;
    }
  }

  /** Every non-blank segment is kept, stripped. */
  lemma {:induction false} StrippedNonBlankKeeps(xs: seq<string>)
    ensures forall x <- xs :: !Blank(x) ==> Strip(x) in StrippedNonBlank(xs)
  {
    if xs != [] {
      StrippedNonBlankKeeps(xs[1..]);
      assert forall x <- xs :: x == xs[0] || x in xs[1..];
    }
  }

  /** Every kept item is a non-blank segment, stripped. */
  lemma {:induction false} StrippedNonBlankSources(xs: seq<string>)
    ensures forall s <- StrippedNonBlank(xs) :: exists x <- xs :: !Blank(x) && s == Strip(x)
  {
    if xs != [] {
      StrippedNonBlankSources(xs[1..]);
      var r := StrippedNonBlank(xs);
      forall s | s in r
        ensures exists x <- xs :: !Blank(x) && s == Strip(x)
      {
        if !Blank(xs[0]) && s == Strip(xs[0]) {
          assert xs[0] in xs;
        } else {
          assert s in StrippedNonBlank(xs[1..]);
          var x :| x in xs[1..] && !Blank(x) && s == Strip(x);
          assert x in xs;
        }
      }
    }
  }

  /** The filter works segment by segment, so order and repeats are kept. */
  lemma {:induction false} StrippedNonBlankAppend(xs: seq<string>, ys: seq<string>)
    ensures StrippedNonBlank(xs + ys) == StrippedNonBlank(xs) + StrippedNonBlank(ys)
  {
    if xs != [] {
      assert (xs + ys)[0] == xs[0] && (xs + ys)[1..] == xs[1..] + ys;
      StrippedNonBlankAppend(xs[1..], ys);
    } else {
      assert xs + ys == ys;
    }
  }

  /** `format_market_segments(segments)`. */
  function FormatMarketSegments(segments: seq<string>): (r: string)
    ensures r != ""
    ensures StrippedNonBlank(segments) == [] ==> r == "Non specificato"
    ensures StrippedNonBlank(segments) != [] ==> r == Join(StrippedNonBlank(segments), ", ")
  {
    var valid := StrippedNonBlank(segments);
    if valid == [] then "Non specificato"
    else
      JoinNonEmpty(valid, ", ");
      Join(valid, ", ")
  }

  /** `parse_comma_separated(text)`. */
  function ParseCommaSeparated(text: string): (items: seq<string>)
    ensures forall s <- items :: s != [] && !IsSpace(s[0]) && !IsSpace(s[|s| - 1]) && ',' !in s
  {
    if text == "" then []
    else
      var r := StrippedNonBlank(Split(text, ','));
      assert forall s <- r :: ',' !in s by {
        StrippedNoComma(Split(text, ','));
      }
      r
  }

  lemma {:induction false} StrippedNoComma(xs: seq<string>)
    requires forall x <- xs :: ',' !in x
    ensures forall s <- StrippedNonBlank(xs) :: ',' !in s
  {
    if xs != [] {
      StrippedNoComma(xs[1..]);
      StripChars(xs[0]);
    }
  }

  lemma StripSpaced(x: string)
    requires x != [] && !IsSpace(x[0]) && !IsSpace(x[|x| - 1])
    ensures Strip(" " + x) == x && !Blank(" " + x)
  {
    var y := " " + x;
    assert y[1..] == x;
    assert LStrip(y) == LStrip(x);
    assert LStrip(x) == x;
    StripStripped(x);
    assert y[1] == x[0];
  }

  /** Splitting `pre + ", ".join(items)` at the commas gives `pre + items[0]`, then `" " + item`. */
  lemma {:induction false} SplitJoined(pre: string, items: seq<string>)
    requires items != [] && ',' !in pre && forall x <- items :: ',' !in x
    ensures Split(pre + Join(items, ", "), ',') == [pre + items[0]] + SplitJoinedRest(items[1..])
    decreases |items|
  {
    if |items| == 1 {
      assert ',' !in pre + items[0];
      SplitPiece(pre + items[0], ',');
    } else {
      var rest := Join(items[1..], ", ");
      assert pre + Join(items, ", ") == (pre + items[0]) + [','] + (" " + rest);
      assert ',' !in pre + items[0];
      SplitAfterPiece(pre + items[0], ',', " " + rest);
      SplitJoined(" ", items[1..]);
      assert items[1..][1..] == items[2..];
    }
  }

  function SplitJoinedRest(items: seq<string>): seq<string> {
    if items == [] then [] else [" " + items[0]] + SplitJoinedRest(items[1..])
  }

  lemma {:induction false} StrippedSpaced(items: seq<string>)
    requires forall x <- items :: x != [] && !IsSpace(x[0]) && !IsSpace(x[|x| - 1])
    ensures StrippedNonBlank(SplitJoinedRest(items)) == items
  {
    if items != [] {
      StripSpaced(items[0]);
      StrippedSpaced(items[1..]);
    }
  }

  /**
   * `parse_comma_separated` reads back what `", ".join` wrote, for items that are non-empty,
   * stripped and free of commas.
   */
  lemma ParseJoinRoundTrip(items: seq<string>)
    requires forall x <- items :: x != [] && !IsSpace(x[0]) && !IsSpace(x[|x| - 1]) && ',' !in x
    ensures ParseCommaSeparated(Join(items, ", ")) == items
  {
    if items != [] {
      var s := Join(items, ", ");
      SplitJoinedFromStart(items);
      JoinNonEmpty(items, ", ");
      StrippedCons(items[0], SplitJoinedRest(items[1..]));
      StrippedSpaced(items[1..]);
      assert [items[0]] + items[1..] == items;
    }
  }

  lemma SplitJoinedFromStart(items: seq<string>)
    requires items != [] && forall x <- items :: ',' !in x
    ensures Split(Join(items, ", "), ',') == [items[0]] + SplitJoinedRest(items[1..])
  {
    SplitJoined("", items);
    assert "" + Join(items, ", ") == Join(items, ", ");
    assert "" + items[0] == items[0];
  }

  lemma StrippedCons(x: string, rest: seq<string>)
    requires x != [] && !IsSpace(x[0]) && !IsSpace(x[|x| - 1])
    ensures StrippedNonBlank([x] + rest) == [x] + StrippedNonBlank(rest)
  {
    StripStripped(x);
    assert ([x] + rest)[0] == x && ([x] + rest)[1..] == rest;
  }

  /**
   * The segments line reads back, item for item, as the cleaned segments, as long as no segment
   * holds a comma.
   */
  lemma MarketSegmentsRoundTrip(segments: seq<string>)
    requires forall s <- segments :: ',' !in s
    requires StrippedNonBlank(segments) != []
    ensures ParseCommaSeparated(FormatMarketSegments(segments)) == StrippedNonBlank(segments)
  {
    StrippedNoComma(segments);
    ParseJoinRoundTrip(StrippedNonBlank(segments));
  }

  // ---------------------------------------------------------------- validate_character_limits

  function Over(limit: nat): string -> bool {
    (s: string) => |s| > limit
  }

  /** `"{heading} {i}: {len} caratteri"`. */
  function LimitIssue(heading: string, position: nat, length: nat): string {
    heading + " " + NatToString(position) + ": " + NatToString(length) + " caratteri"
  }

  /** One issue for each item longer than `limit`, in order, under its 1-based position. */
  function TooLong(items: seq<string>, limit: nat, heading: string): seq<string> {
    if items == [] then []
    else
      var last := items[|items| - 1];
      TooLong(items[..|items| - 1], limit, heading)
      + (if |last| > limit then [LimitIssue(heading, |items|, |last|)] else [])
  }

  /** The issues dictionary: `subjects_too_long` and `previews_too_long`. */
  datatype LimitIssues = LimitIssues(subjectsTooLong: seq<string>, previewsTooLong: seq<string>)

  /** `validate_character_limits(subjects, previews)`. */
  method ValidateCharacterLimits(subjects: seq<string>, previews: seq<string>) returns (issues: LimitIssues)
    ensures issues == LimitIssues(TooLong(subjects, MaxSubject, "Oggetto"), TooLong(previews, MaxPreview, "Anteprima"))
  {
    issues := LimitIssues([], []);
    var i := 0;
    while i < |subjects|
      invariant 0 <= i <= |subjects|
      invariant issues == LimitIssues(TooLong(subjects[..i], MaxSubject, "Oggetto"), [])
    {
      var subject := subjects[i];
      if |subject| > 40 {
        issues := issues.(subjectsTooLong := issues.subjectsTooLong + [LimitIssue("Oggetto", i + 1, |subject|)]);
      }
      assert subjects[..i + 1][..i] == subjects[..i];
      i := i + 1;
    }
    assert subjects[..i] == subjects;
    i := 0;
    while i < |previews|
      invariant 0 <= i <= |previews|
      invariant issues == LimitIssues(TooLong(subjects, MaxSubject, "Oggetto"), TooLong(previews[..i], MaxPreview, "Anteprima"))
    {
      var preview := previews[i];
      if |preview| > 100 {
        issues := issues.(previewsTooLong := issues.previewsTooLong + [LimitIssue("Anteprima", i + 1, |preview|)]);
      }
      assert previews[..i + 1][..i] == previews[..i];
      i := i + 1;
    }
    assert previews[..i] == previews;
  }

  /**
   * The issues name exactly the items over the limit, by 1-based position and in order, each with
   * its length.
   */
  lemma {:induction false} TooLongArePositions(items: seq<string>, limit: nat, heading: string)
    ensures |TooLong(items, limit, heading)| == |Flagged(items, Over(limit))|
    ensures forall j :: 0 <= j < |TooLong(items, limit, heading)| ==>
      var k := Flagged(items, Over(limit))[j];
      1 <= k <= |items| && TooLong(items, limit, heading)[j] == LimitIssue(heading, k, |items[k - 1]|)
  {
    if items != [] {
      var front := items[..|items| - 1];
      TooLongArePositions(front, limit, heading);
      assert forall k :: 0 <= k < |front| ==> front[k] == items[k];
    }
  }

  /** No issue is reported exactly when every item is within the limit. */
  lemma {:induction false} TooLongEmpty(items: seq<string>, limit: nat, heading: string)
    ensures TooLong(items, limit, heading) == [] <==> forall s <- items :: |s| <= limit
  {
    if items != [] {
      TooLongEmpty(items[..|items| - 1], limit, heading);
      assert forall s <- items :: s in items[..|items| - 1] || s == items[|items| - 1];
    }
  }

  // ---------------------------------------------------------------- generate_fallback_content

  /**
   * The three canned subjects of both fallback generators, each cut to the subject limit: the first
   * names the company whenever it fits.
   */
  function FallbackSubjects(company: string): (r: seq<string>)
    ensures |r| == 3 && forall s <- r :: |s| <= MaxSubject
    ensures |company| <= MaxSubject - |"News da "| ==> r[0] == "News da " + company
  {
    [Prefix("News da " + company, 40), Prefix("Novità " + company, 40), Prefix("Offerte " + company, 40)]
  }

  /** The three canned previews of both fallback generators, each cut to the preview limit. */
  function FallbackPreviews(company: string): (r: seq<string>)
    ensures |r| == 3 && forall s <- r :: |s| <= MaxPreview
    ensures |company| <= MaxPreview - |"Scopri le ultime novità di "| ==> r[0] == "Scopri le ultime novità di " + company
  {
    [Prefix("Scopri le ultime novità di " + company, 100),
     Prefix("Non perdere le nostre offerte esclusive", 100),
     Prefix("Rimani sempre aggiornato con noi", 100)]
  }

  function FallbackTitle(company: string): string {
    "\n# Newsletter " + company + "\n"
  }

  const FallbackPitch: string :=
    "\nBenvenuto nella nostra newsletter!\n\n"
    + "Siamo felici di tenerti aggiornato sulle nostre ultime novità e offerte esclusive.\n\n"
    + "**[CALL TO ACTION PRINCIPALE]**\n\n## Le nostre proposte\n\n"
    + "Scopri tutti i nostri prodotti e servizi sul nostro sito web.\n\n**[SCOPRI DI PIÙ]**\n\n---\n\n"

  function FallbackSignOff(company: string): string {
    "Grazie per la tua fiducia in " + company + ".\n\nIl team di " + company + "\n\n"
    + "**[VISITA IL SITO]**\n        "
  }

  /** `generate_fallback_content(data)`: fixed texts around the company name. */
  function GenerateFallbackContent(companyName: Option<string>): (n: Newsletter)
    ensures WellFormed(n)
    ensures StartsWith(n.content, "\n# Newsletter " + companyName.GetOr("la nostra azienda") + "\n")
  {
    var company := companyName.GetOr("la nostra azienda");
    var title := FallbackTitle(company);
    StartsWithAppend(title, FallbackPitch);
    StartsWithExtend(title + FallbackPitch, title, FallbackSignOff(company));
    Newsletter(FallbackSubjects(company), FallbackPreviews(company), title + FallbackPitch + FallbackSignOff(company))
  }

  /** The fallback content passes `validate_character_limits` with no issue. */
  lemma FallbackContentWithinLimits(companyName: Option<string>)
    ensures TooLong(GenerateFallbackContent(companyName).subjects, MaxSubject, "Oggetto") == []
    ensures TooLong(GenerateFallbackContent(companyName).previews, MaxPreview, "Anteprima") == []
  {
    var n := GenerateFallbackContent(companyName);
    TooLongEmpty(n.subjects, MaxSubject, "Oggetto");
    TooLongEmpty(n.previews, MaxPreview, "Anteprima");
  }

  // ---------------------------------------------------------------- format_output

  /** `"{i}. {s} ({len(s)} caratteri)\n"`. */
  function ListingLine(position: nat, s: string): string {
    NatToString(position) + ". " + s + " (" + NatToString(|s|) + " caratteri)\n"
  }

  /** A section title underlined with thirty dashes. */
  function SectionHeading(title: string): string {
    title + "\n" + Repeat('-', 30) + "\n"
  }

  const Banner: string := "NEWSLETTER GENERATA\n" + Repeat('=', 50) + "\n\n"
  const Footer: string := Repeat('=', 50) + "\nGenerato con Newsletter AI Generator\n"

  function SubjectsBlock(subjects: seq<string>): string {
    Banner + SectionHeading("OGGETTI EMAIL (max 40 caratteri)") + Concat(subjects, ListingLine) + "\n"
  }

  function PreviewsBlock(previews: seq<string>): string {
    SectionHeading("ANTEPRIME EMAIL (max 100 caratteri)") + Concat(previews, ListingLine) + "\n"
  }

  function ContentBlock(content: string): string {
    SectionHeading("CONTENUTO NEWSLETTER") + content + "\n\n" + Footer
  }

  function FormattedOutput(subjects: seq<string>, previews: seq<string>, content: string): string {
    SubjectsBlock(subjects) + PreviewsBlock(previews) + ContentBlock(content)
  }

  /** One numbered line per item, with the item's length. */
  method ListItems(items: seq<string>) returns (lines: string)
    ensures lines == Concat(items, ListingLine)
  {
    lines := "";
    var i := 0;
    while i < |items|
      invariant 0 <= i <= |items|
      invariant lines == Concat(items[..i], ListingLine)
    {
      lines := lines + ListingLine(i + 1, items[i]);
      assert items[..i + 1][..i] == items[..i];
      i := i + 1;
    }
    assert items[..i] == items;
  }

  /** `format_output(result)`; a missing key reads as an empty list or an empty text. */
  method FormatOutput(subjects: Option<seq<string>>, previews: Option<seq<string>>, content: Option<string>)
    returns (output: string)
    ensures output == FormattedOutput(subjects.GetOr([]), previews.GetOr([]), content.GetOr(""))
  {
    var subjectLines := ListItems(subjects.GetOr([]));
    output := Banner + SectionHeading("OGGETTI EMAIL (max 40 caratteri)") + subjectLines + "\n";
    var previewLines := ListItems(previews.GetOr([]));
    output := output + (SectionHeading("ANTEPRIME EMAIL (max 100 caratteri)") + previewLines + "\n");
    output := output + (SectionHeading("CONTENUTO NEWSLETTER") + content.GetOr("") + "\n\n" + Footer);
  }

  /** The report opens with the banner. */
  lemma FormattedOutputOpens(subjects: seq<string>, previews: seq<string>, content: string)
    ensures StartsWith(FormattedOutput(subjects, previews, content), Banner)
  {
    var h := SectionHeading("OGGETTI EMAIL (max 40 caratteri)");
    var lines := Concat(subjects, ListingLine);
    StartsWithAppend(Banner, h);
    StartsWithExtend(Banner + h, Banner, lines);
    StartsWithExtend(Banner + h + lines, Banner, "\n");
    StartsWithExtend(SubjectsBlock(subjects), Banner, PreviewsBlock(previews));
    StartsWithExtend(SubjectsBlock(subjects) + PreviewsBlock(previews), Banner, ContentBlock(content));
  }

  /** The report closes with the footer. */
  lemma FormattedOutputCloses(subjects: seq<string>, previews: seq<string>, content: string)
    ensures EndsWith(FormattedOutput(subjects, previews, content), Footer)
  {
    var front := SubjectsBlock(subjects) + PreviewsBlock(previews);
    var x := SectionHeading("CONTENUTO NEWSLETTER") + content + "\n\n";
    EndsWithAppend(x, Footer);
    EndsWithPrepend(front, ContentBlock(content), Footer);
  }

  /** The subjects block comes first, the previews block next, and the content block closes the report. */
  lemma FormattedOutputOrder(subjects: seq<string>, previews: seq<string>, content: string)
    ensures StartsWith(FormattedOutput(subjects, previews, content), SubjectsBlock(subjects))
    ensures StartsWith(FormattedOutput(subjects, previews, content), SubjectsBlock(subjects) + PreviewsBlock(previews))
    ensures EndsWith(FormattedOutput(subjects, previews, content), ContentBlock(content))
  {
    var s, p, c := SubjectsBlock(subjects), PreviewsBlock(previews), ContentBlock(content);
    StartsWithAppend(s, p);
    StartsWithExtend(s + p, s, c);
    StartsWithAppend(s + p, c);
    EndsWithAppend(s + p, c);
  }

  /** Every subject is listed with its 1-based number and its length. */
  lemma FormattedOutputListsSubject(subjects: seq<string>, previews: seq<string>, content: string, k: nat)
    requires k < |subjects|
    ensures Contains(FormattedOutput(subjects, previews, content), ListingLine(k + 1, subjects[k]))
  {
    var line := ListingLine(k + 1, subjects[k]);
    var h := Banner + SectionHeading("OGGETTI EMAIL (max 40 caratteri)");
    ConcatHasPiece(subjects, ListingLine, k);
    ContainsWithin(h, Concat(subjects, ListingLine), "\n", line);
    ContainsAppend(SubjectsBlock(subjects), line, PreviewsBlock(previews));
    ContainsAppend(SubjectsBlock(subjects) + PreviewsBlock(previews), line, ContentBlock(content));
  }

  /** Every preview is listed with its 1-based number and its length. */
  lemma FormattedOutputListsPreview(subjects: seq<string>, previews: seq<string>, content: string, k: nat)
    requires k < |previews|
    ensures Contains(FormattedOutput(subjects, previews, content), ListingLine(k + 1, previews[k]))
  {
    var line := ListingLine(k + 1, previews[k]);
    var h := SectionHeading("ANTEPRIME EMAIL (max 100 caratteri)");
    ConcatHasPiece(previews, ListingLine, k);
    ContainsWithin(h, Concat(previews, ListingLine), "\n", line);
    ContainsPrepend(SubjectsBlock(subjects), PreviewsBlock(previews), line);
    ContainsAppend(SubjectsBlock(subjects) + PreviewsBlock(previews), line, ContentBlock(content));
  }

  /** The content appears whole under its heading. */
  lemma FormattedOutputHasContent(subjects: seq<string>, previews: seq<string>, content: string)
    ensures Contains(FormattedOutput(subjects, previews, content), SectionHeading("CONTENUTO NEWSLETTER") + content + "\n\n")
  {
    var x := SectionHeading("CONTENUTO NEWSLETTER") + content + "\n\n";
    assert ContentBlock(content) == "" + x + Footer;
    ContainsInfix("", x, Footer);
    ContainsPrepend(SubjectsBlock(subjects) + PreviewsBlock(previews), ContentBlock(content), x);
  }
}
