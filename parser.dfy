/**
 * `_parse_response` (newsletter_generator.py): the JSON fast path, the line scanner that recovers
 * subjects, previews and body from free text, and the padding to three subjects and three previews.
 */
module Parser {
  import opened Optional
  import opened Text
  import opened Briefs
  import opened Template

  /** The value of `current_section`. */
  datatype Section = NoSection | SubjectsSection | PreviewsSection | ContentSection

  /**
   * The section a stripped line switches to, when it is a header: the words are looked for in the
   * lower-cased line, subjects first, then previews, then content.
   */
  function HeaderOf(line: string): Option<Section> {
    var low := Lower(line);
    if Contains(low, "oggett") || Contains(low, "subject") then Some(SubjectsSection)
    else if Contains(low, "anteprima") || Contains(low, "preview") then Some(PreviewsSection)
    else if Contains(low, "contenuto") || Contains(low, "newsletter") || Contains(low, "content") then Some(ContentSection)
    else None
  }

  /**
   * The cleaning of a subject or preview line: every "1.", "2.", "3." and "-" is deleted, the
   * line stripped, then every double and single quote deleted.
   */
  function CleanLine(line: string): (r: string)
    ensures '"' !in r && '\'' !in r && '-' !in r
    ensures |r| <= |line|
  {
    var unnumbered := Remove(Remove(Remove(Remove(line, "1."), "2."), "3."), "-");
    var stripped := Strip(unnumbered);
    StripChars(unnumbered);
    Remove(Remove(stripped, "\""), "'")
  }

  /** What a bucket accepts: a non-empty cleaned line within the limit. */
  predicate Fits(s: string, limit: nat) {
    s != "" && |s| <= limit
  }

  /** The scanner's variables: `current_section`, `subjects`, `previews`, `content_lines`. */
  datatype Scan = Scan(section: Section, subjects: seq<string>, previews: seq<string>, contentLines: seq<string>)

  const Start: Scan := Scan(NoSection, [], [], [])

  /** One turn of the scanning loop. */
  function Step(st: Scan, raw: string): Scan {
    var line := Strip(raw);
    var header := HeaderOf(line);
    if header.Some? then st.(section := header.value)
    else if line == "" || st.section == NoSection then st
    else if st.section == SubjectsSection && |st.subjects| < 3 then
      var clean := CleanLine(line);
      if Fits(clean, MaxSubject) then st.(subjects := st.subjects + [clean]) else st
    else if st.section == PreviewsSection && |st.previews| < 3 then
      var clean := CleanLine(line);
      if Fits(clean, MaxPreview) then st.(previews := st.previews + [clean]) else st
    else if st.section == ContentSection then st.(contentLines := st.contentLines + [line])
    else st
  }

  /** A stored subject or preview: non-empty, within `limit`, free of quotes and dashes. */
  predicate Kept(s: string, limit: nat) {
    Fits(s, limit) && '"' !in s && '\'' !in s && '-' !in s
  }

  /** The items a scan keeps are few enough, fit their limits and are free of quotes and dashes. */
  predicate Bounded(st: Scan) {
    |st.subjects| <= 3 && |st.previews| <= 3
    && (forall s <- st.subjects :: Kept(s, MaxSubject))
    && (forall s <- st.previews :: Kept(s, MaxPreview))
    && (forall l <- st.contentLines :: l != "")
  }

  lemma StepBounded(st: Scan, raw: string)
    requires Bounded(st)
    ensures Bounded(Step(st, raw))
  {
    StepKeepsSubjects(st, raw);
    StepKeepsPreviews(st, raw);
    StepKeepsContent(st, raw);
  }

  lemma StepKeepsSubjects(st: Scan, raw: string)
    requires |st.subjects| <= 3 && forall s <- st.subjects :: Kept(s, MaxSubject)
    ensures |Step(st, raw).subjects| <= 3 && forall s <- Step(st, raw).subjects :: Kept(s, MaxSubject)
  {
    StepFields(st, raw);
    var clean := CleanLine(Strip(raw));
    if IsItem(st.section, raw, SubjectsSection) && |st.subjects| < 3 && Fits(clean, MaxSubject) {
      assert Step(st, raw).subjects == st.subjects + [clean];
    }
  }

  lemma StepKeepsPreviews(st: Scan, raw: string)
    requires |st.previews| <= 3 && forall s <- st.previews :: Kept(s, MaxPreview)
    ensures |Step(st, raw).previews| <= 3 && forall s <- Step(st, raw).previews :: Kept(s, MaxPreview)
  {
    StepFields(st, raw);
    var clean := CleanLine(Strip(raw));
    if IsItem(st.section, raw, PreviewsSection) && |st.previews| < 3 && Fits(clean, MaxPreview) {
      assert Step(st, raw).previews == st.previews + [clean];
    }
  }

  lemma StepKeepsContent(st: Scan, raw: string)
    requires forall l <- st.contentLines :: l != ""
    ensures forall l <- Step(st, raw).contentLines :: l != ""
  {
    StepFields(st, raw);
  }

  /** The scanner's variables after the loop has run over `lines`. */
  function ScanLines(lines: seq<string>): (st: Scan)
    ensures Bounded(st)
  {
    if lines == [] then Start
    else
      var st := ScanLines(lines[..|lines| - 1]);
      StepBounded(st, lines[|lines| - 1]);
      Step(st, lines[|lines| - 1])
  }

  /** Scanning one more line is one more step. */
  lemma ScanOneMore(lines: seq<string>, i: nat)
    requires i < |lines|
    ensures ScanLines(lines[..i + 1]) == Step(ScanLines(lines[..i]), lines[i])
  {
    assert lines[..i + 1][..i] == lines[..i];
  }

  // ---------------------------------------------------------------- a reference reading of the scan

  /** The section in force after `lines`: the one named by the last header among them. */
  function SectionAfter(lines: seq<string>): Section {
    if lines == [] then NoSection
    else
      var h := HeaderOf(Strip(lines[|lines| - 1]));
      if h.Some? then h.value else SectionAfter(lines[..|lines| - 1])
  }

  /** A line that is neither blank nor a header, read while `current` is `sec`. */
  predicate IsItem(current: Section, raw: string, sec: Section) {
    var line := Strip(raw);
    HeaderOf(line).None? && line != "" && current == sec
  }

  /** A line that is neither blank nor a header, under a header naming `sec`. */
  predicate ItemUnder(front: seq<string>, raw: string, sec: Section) {
    IsItem(SectionAfter(front), raw, sec)
  }

  /** What one turn of the loop does to each variable. */
  lemma StepFields(st: Scan, raw: string)
    ensures var line := Strip(raw);
      var next := Step(st, raw);
      && next.section == (if HeaderOf(line).Some? then HeaderOf(line).value else st.section)
      && next.subjects == (if IsItem(st.section, raw, SubjectsSection) && |st.subjects| < 3
                             && Fits(CleanLine(line), MaxSubject)
                           then st.subjects + [CleanLine(line)] else st.subjects)
      && next.previews == (if IsItem(st.section, raw, PreviewsSection) && |st.previews| < 3
                             && Fits(CleanLine(line), MaxPreview)
                           then st.previews + [CleanLine(line)] else st.previews)
      && next.contentLines == (if IsItem(st.section, raw, ContentSection)
                               then st.contentLines + [line] else st.contentLines)
  {
  }

  /** Every cleaned line under a header naming `sec` that fits `limit`, in order. */
  function Candidates(lines: seq<string>, sec: Section, limit: nat): seq<string> {
    if lines == [] then []
    else
      var front, raw := lines[..|lines| - 1], lines[|lines| - 1];
      Candidates(front, sec, limit)
      + (if ItemUnder(front, raw, sec) && Fits(CleanLine(Strip(raw)), limit) then [CleanLine(Strip(raw))] else [])
  }

  /** Every stripped line under a content header. */
  function ContentCandidates(lines: seq<string>): seq<string> {
    if lines == [] then []
    else
      var front, raw := lines[..|lines| - 1], lines[|lines| - 1];
      ContentCandidates(front) + (if ItemUnder(front, raw, ContentSection) then [Strip(raw)] else [])
  }

  /** `xs[:n]`. */
  function Take(xs: seq<string>, n: nat): (r: seq<string>)
    ensures |r| <= n && |r| <= |xs| && r == xs[..|r|]
    ensures |xs| <= n ==> r == xs
  {
    if |xs| <= n then xs else xs[..n]
  }

  /** The scan's variables after `lines` are the reference reading of `lines`. */
  predicate MatchesCandidates(lines: seq<string>) {
    && ScanLines(lines).section == SectionAfter(lines)
    && ScanLines(lines).subjects == Take(Candidates(lines, SubjectsSection, MaxSubject), 3)
    && ScanLines(lines).previews == Take(Candidates(lines, PreviewsSection, MaxPreview), 3)
    && ScanLines(lines).contentLines == ContentCandidates(lines)
  }

  /**
   * The scan keeps the first three fitting candidates of each bucket and every content line, in
   * order: header lines, blank lines and lines before the first header are never stored.
   */
  lemma {:induction false} ScanIsCandidates(lines: seq<string>)
    ensures ScanLines(lines).section == SectionAfter(lines)
    ensures ScanLines(lines).subjects == Take(Candidates(lines, SubjectsSection, MaxSubject), 3)
    ensures ScanLines(lines).previews == Take(Candidates(lines, PreviewsSection, MaxPreview), 3)
    ensures ScanLines(lines).contentLines == ContentCandidates(lines)
  {
    if lines != [] {
      ScanIsCandidates(lines[..|lines| - 1]);
      CandidatesStep(lines);
    }
  }

  /** One more line keeps the scan in step with the reference reading. */
  lemma CandidatesStep(lines: seq<string>)
    requires lines != [] && MatchesCandidates(lines[..|lines| - 1])
    ensures MatchesCandidates(lines)
  {
    SectionContentStep(lines);
    SubjectsStep(lines);
    PreviewsStep(lines);
  }

  lemma SectionContentStep(lines: seq<string>)
    requires lines != [] && MatchesCandidates(lines[..|lines| - 1])
    ensures ScanLines(lines).section == SectionAfter(lines)
    ensures ScanLines(lines).contentLines == ContentCandidates(lines)
  {
    var front, raw := lines[..|lines| - 1], lines[|lines| - 1];
    var st := ScanLines(front);
    assert ScanLines(lines) == Step(st, raw);
    StepFields(st, raw);
    assert ContentCandidates(lines)
      == ContentCandidates(front) + (if ItemUnder(front, raw, ContentSection) then [Strip(raw)] else []);
  }

  lemma SubjectsStep(lines: seq<string>)
    requires lines != [] && MatchesCandidates(lines[..|lines| - 1])
    ensures ScanLines(lines).subjects == Take(Candidates(lines, SubjectsSection, MaxSubject), 3)
  {
    var front, raw := lines[..|lines| - 1], lines[|lines| - 1];
    var st := ScanLines(front);
    assert ScanLines(lines) == Step(st, raw);
    StepFields(st, raw);
    var item := CleanLine(Strip(raw));
    var add := ItemUnder(front, raw, SubjectsSection) && Fits(item, MaxSubject);
    assert Candidates(lines, SubjectsSection, MaxSubject) == Candidates(front, SubjectsSection, MaxSubject) + (if add then [item] else []);
    TakeStep(Candidates(front, SubjectsSection, MaxSubject), st.subjects, add, item);
  }

  lemma PreviewsStep(lines: seq<string>)
    requires lines != [] && MatchesCandidates(lines[..|lines| - 1])
    ensures ScanLines(lines).previews == Take(Candidates(lines, PreviewsSection, MaxPreview), 3)
  {
    var front, raw := lines[..|lines| - 1], lines[|lines| - 1];
    var st := ScanLines(front);
    assert ScanLines(lines) == Step(st, raw);
    StepFields(st, raw);
    var item := CleanLine(Strip(raw));
    var add := ItemUnder(front, raw, PreviewsSection) && Fits(item, MaxPreview);
    assert Candidates(lines, PreviewsSection, MaxPreview) == Candidates(front, PreviewsSection, MaxPreview) + (if add then [item] else []);
    TakeStep(Candidates(front, PreviewsSection, MaxPreview), st.previews, add, item);
  }

  /** Keeping the first three of a list that may grow by one item. */
  lemma TakeStep(xs: seq<string>, kept: seq<string>, add: bool, item: string)
    requires kept == Take(xs, 3)
    ensures (if add && |kept| < 3 then kept + [item] else kept) == Take(xs + (if add then [item] else []), 3)
  {
    TakeOneMore(xs, xs + (if add then [item] else []));
  }

  /** Growing a list by at most one item grows its first three by that item only while there is room. */
  lemma TakeOneMore(xs: seq<string>, ys: seq<string>)
    requires ys == xs || (|ys| == |xs| + 1 && ys[..|xs|] == xs)
    ensures |Take(xs, 3)| < 3 ==> Take(xs, 3) == xs && Take(ys, 3) == ys
    ensures |Take(xs, 3)| == 3 ==> Take(ys, 3) == Take(xs, 3)
  {
    if |xs| >= 3 && ys != xs {
      assert ys[..3] == ys[..|xs|][..3];
    }
  }

  /** A reply with no header line keeps nothing: every bucket stays empty. */
  lemma {:induction false} NoHeaderKeepsNothing(lines: seq<string>)
    requires forall l <- lines :: HeaderOf(Strip(l)).None?
    ensures ScanLines(lines) == Start
  {
    if lines != [] {
      NoHeaderKeepsNothing(lines[..|lines| - 1]);
    }
  }

  // ---------------------------------------------------------------- padding and the scanned result

  /** The `while len(xs) < 3: xs.append(filler)` loop. */
  function Pad(xs: seq<string>, filler: string): (r: seq<string>)
    ensures |r| == if |xs| >= 3 then |xs| else 3
    ensures r[..|xs|] == xs
    ensures forall i :: |xs| <= i < |r| ==> r[i] == filler
    decreases 3 - |xs|
  {
    if |xs| >= 3 then xs
    else
      var r := Pad(xs + [filler], filler);
      assert r[..|xs|] == r[..|xs| + 1][..|xs|];
      r
  }

  lemma PadStep(xs: seq<string>, filler: string)
    requires |xs| < 3
    ensures Pad(xs + [filler], filler) == Pad(xs, filler)
  {
  }

  function SubjectFiller(company: string): string {
    Prefix("Newsletter " + company, 40)
  }

  function PreviewFiller(company: string): string {
    Prefix("Scopri le novità di " + company, 100)
  }

  /** `data.get('company_name', 'Azienda')`. */
  function ScanCompany(b: Brief): string {
    b.companyName.GetOr("Azienda")
  }

  /** The body: the content lines joined with newlines, or the raw reply when there are none. */
  function ScanBody(st: Scan, content: string): string {
    if st.contentLines != [] then Join(st.contentLines, "\n") else content
  }

  /** The lines the scanner reads: the stripped reply, split at newlines. */
  function ReplyLines(content: string): seq<string> {
    Split(Strip(content), '\n')
  }

  /** The items of `st` padded with the company's fillers, and its body. */
  function Letter(st: Scan, content: string, company: string): (n: Newsletter)
    requires Bounded(st)
    ensures WellFormed(n)
  {
    var subjects := Pad(st.subjects, SubjectFiller(company));
    var previews := Pad(st.previews, PreviewFiller(company));
    assert forall i :: 0 <= i < 3 ==> subjects[i] in st.subjects || subjects[i] == SubjectFiller(company) by {
      forall i | 0 <= i < 3 ensures subjects[i] in st.subjects || subjects[i] == SubjectFiller(company) {
        if i < |st.subjects| {
          assert subjects[i] == subjects[..|st.subjects|][i];
        }
      }
    }
    assert forall i :: 0 <= i < 3 ==> previews[i] in st.previews || previews[i] == PreviewFiller(company) by {
      forall i | 0 <= i < 3 ensures previews[i] in st.previews || previews[i] == PreviewFiller(company) {
        if i < |st.previews| {
          assert previews[i] == previews[..|st.previews|][i];
        }
      }
    }
    Newsletter(subjects[..3], previews[..3], ScanBody(st, content))
  }

  /** The padded items are the stored ones, in order, then the filler. */
  lemma LetterItems(st: Scan, content: string, company: string)
    requires Bounded(st)
    ensures var n := Letter(st, content, company);
      (forall i :: 0 <= i < 3 ==> n.subjects[i] == if i < |st.subjects| then st.subjects[i] else SubjectFiller(company))
      && (forall i :: 0 <= i < 3 ==> n.previews[i] == if i < |st.previews| then st.previews[i] else PreviewFiller(company))
  {
    var subjects := Pad(st.subjects, SubjectFiller(company));
    var previews := Pad(st.previews, PreviewFiller(company));
    forall i | 0 <= i < |st.subjects| ensures subjects[i] == st.subjects[i] {
      assert subjects[i] == subjects[..|st.subjects|][i];
    }
    forall i | 0 <= i < |st.previews| ensures previews[i] == st.previews[i] {
      assert previews[i] == previews[..|st.previews|][i];
    }
  }

  /** The result the line scan builds. */
  function ScanResult(content: string, company: string): (n: Newsletter)
    ensures WellFormed(n)
  {
    Letter(ScanLines(ReplyLines(content)), content, company)
  }

  /**
   * On the line-scan path the subjects are the first fitting candidates under subject headers,
   * in order, then the filler; the same holds for the previews.
   */
  lemma ScanResultItems(content: string, company: string)
    ensures var lines := ReplyLines(content);
      var cs := Take(Candidates(lines, SubjectsSection, MaxSubject), 3);
      var cp := Take(Candidates(lines, PreviewsSection, MaxPreview), 3);
      var n := ScanResult(content, company);
      (forall i :: 0 <= i < 3 ==> n.subjects[i] == if i < |cs| then cs[i] else SubjectFiller(company))
      && (forall i :: 0 <= i < 3 ==> n.previews[i] == if i < |cp| then cp[i] else PreviewFiller(company))
  {
    ScanLetterItems(ReplyLines(content), content, company);
  }

  /** The padded items of a scan over `lines` are its first fitting candidates, then the filler. */
  lemma ScanLetterItems(lines: seq<string>, content: string, company: string)
    ensures var cs := Take(Candidates(lines, SubjectsSection, MaxSubject), 3);
      var cp := Take(Candidates(lines, PreviewsSection, MaxPreview), 3);
      var n := Letter(ScanLines(lines), content, company);
      (forall i :: 0 <= i < 3 ==> n.subjects[i] == if i < |cs| then cs[i] else SubjectFiller(company))
      && (forall i :: 0 <= i < 3 ==> n.previews[i] == if i < |cp| then cp[i] else PreviewFiller(company))
  {
    ScanIsCandidates(lines);
    LetterItems(ScanLines(lines), content, company);
  }

  lemma HeaderOfEmpty()
    ensures HeaderOf("") == None
  {
    assert Lower("") == "";
  }

  /** An empty reply is a single empty line, which the scan skips. */
  lemma EmptyReplyKeepsNothing()
    ensures ScanLines(ReplyLines("")) == Start
  {
    EmptyReplyLines();
    HeaderOfEmpty();
    assert Strip("") == "";
    NoHeaderKeepsNothing([""]);
  }

  lemma EmptyReplyLines()
    ensures ReplyLines("") == [""]
  {
    assert Strip("") == "";
  }

  /** The scanned body is empty exactly when the reply itself is empty. */
  lemma ScanBodyEmptyIff(content: string, company: string)
    ensures ScanResult(content, company).content == "" <==> content == ""
  {
    var st := ScanLines(ReplyLines(content));
    if content == "" {
      EmptyReplyKeepsNothing();
    } else if st.contentLines != [] {
      assert st.contentLines[0] in st.contentLines;
      JoinNonEmpty(st.contentLines, "\n");
    }
  }

  /** A reply without any header line yields only fillers, and its raw text as the body. */
  lemma HeaderlessReply(content: string, company: string)
    requires forall l <- ReplyLines(content) :: HeaderOf(Strip(l)).None?
    ensures ScanResult(content, company)
      == Newsletter([SubjectFiller(company), SubjectFiller(company), SubjectFiller(company)],
                    [PreviewFiller(company), PreviewFiller(company), PreviewFiller(company)], content)
  {
    NoHeaderKeepsNothing(ReplyLines(content));
    EmptyScanLetter(content, company);
  }

  /** A scan that stored nothing gives three fillers of each kind and the raw text. */
  lemma EmptyScanLetter(content: string, company: string)
    ensures Letter(Start, content, company)
      == Newsletter([SubjectFiller(company), SubjectFiller(company), SubjectFiller(company)],
                    [PreviewFiller(company), PreviewFiller(company), PreviewFiller(company)], content)
  {
    LetterItems(Start, content, company);
  }

  // ---------------------------------------------------------------- _parse_response

  /** The JSON fast path applies: the stripped reply starts with `{`. */
  predicate LooksLikeJson(content: string) {
    StartsWith(Strip(content), "{")
  }

  /**
   * A reply the caller can use: a decoded object holding the three result keys, or a newsletter
   * with three subjects within 40 characters and three previews within 100.
   */
  predicate Usable(reply: Reply) {
    match reply
    case Decoded(obj) => HasResultKeys(obj)
    case Built(letter) => WellFormed(letter)
  }

  /**
   * What `_parse_response` makes of `content`: the decoded object when the reply is JSON holding
   * the three keys, the template when it looks like JSON but does not decode, and otherwise the
   * line scan. Whatever the reply and the decoder, the result is usable.
   */
  function ParsedReply(content: string, decode: string -> Option<map<string, Json>>, b: Brief): (r: Reply)
    ensures Usable(r)
    ensures r.Decoded? ==> LooksLikeJson(content) && decode(content) == Some(r.obj)
    ensures !LooksLikeJson(content) ==> r == Built(ScanResult(content, ScanCompany(b)))
  {
    if LooksLikeJson(content) && decode(content).None? then Built(TemplateNewsletter(b))
    else if LooksLikeJson(content) && HasResultKeys(decode(content).value) then Decoded(decode(content).value)
    else Built(ScanResult(content, ScanCompany(b)))
  }

  /**
   * A reply that looks like JSON is handed back unchanged when it decodes to an object holding
   * the three keys, with no count or length checks, and replaced by the template when it does
   * not decode at all.
   */
  lemma JsonFastPath(content: string, decode: string -> Option<map<string, Json>>, b: Brief)
    requires LooksLikeJson(content)
    ensures decode(content).None? ==> ParsedReply(content, decode, b) == Built(TemplateNewsletter(b))
    ensures decode(content).Some? && HasResultKeys(decode(content).value)
      ==> ParsedReply(content, decode, b) == Decoded(decode(content).value)
  {
  }

  /** A JSON reply missing one of the three keys is scanned as text, like any other reply. */
  lemma PartialJsonIsScanned(content: string, decode: string -> Option<map<string, Json>>, b: Brief)
    requires decode(content).Some? && !HasResultKeys(decode(content).value)
    ensures ParsedReply(content, decode, b) == Built(ScanResult(content, ScanCompany(b)))
  {
  }

  /**
   * `_parse_response(content, data)`; `decode` stands for `json.loads`, `None` for a decoding
   * error.
   */
  method ParseResponse(content: string, decode: string -> Option<map<string, Json>>, b: Brief)
    returns (reply: Reply)
    ensures reply == ParsedReply(content, decode, b)
  {
    if StartsWith(Strip(content), "{") {
      var result := decode(content);
      if result.None? {
        var letter := FallbackContent(b);
        JsonFastPath(content, decode, b);
        return Built(letter);
      }
      if SubjectsKey in result.value && PreviewsKey in result.value && ContentKey in result.value {
        JsonFastPath(content, decode, b);
        return Decoded(result.value);
      }
      PartialJsonIsScanned(content, decode, b);
    }
    var letter := ScanReply(content, b.companyName.GetOr("Azienda"));
    reply := Built(letter);
  }

  /** A `while len(items) < 3: items.append(filler)` loop. */
  method PadItems(items: seq<string>, filler: string) returns (padded: seq<string>)
    ensures padded == Pad(items, filler)
  {
    padded := items;
    while |padded| < 3
      invariant Pad(padded, filler) == Pad(items, filler)
      decreases 3 - |padded|
    {
      PadStep(padded, filler);
      padded := padded + [filler];
    }
  }

  /** The scanning loop of `_parse_response`, over the reply's lines. */
  method ScanAll(lines: seq<string>) returns (scanned: Scan)
    ensures scanned == ScanLines(lines)
  {
    var section := NoSection;
    var subjects: seq<string> := [];
    var previews: seq<string> := [];
    var contentLines: seq<string> := [];
    var i := 0;
    while i < |lines|
      invariant 0 <= i <= |lines|
      invariant Scan(section, subjects, previews, contentLines) == ScanLines(lines[..i])
    {
      ghost var before := Scan(section, subjects, previews, contentLines);
      var line := Strip(lines[i]);
      var header := HeaderOf(line);
      if header.Some? {
        section := header.value;
      } else if line != "" && section != NoSection {
        if section == SubjectsSection && |subjects| < 3 {
          var clean := CleanLine(line);
          if clean != "" && |clean| <= 40 {
            subjects := subjects + [clean];
          }
        } else if section == PreviewsSection && |previews| < 3 {
          var clean := CleanLine(line);
          if clean != "" && |clean| <= 100 {
            previews := previews + [clean];
          }
        } else if section == ContentSection {
          contentLines := contentLines + [line];
        }
      }
      StepFields(before, lines[i]);
      ScanOneMore(lines, i);
      i := i + 1;
    }
    assert lines[..i] == lines;
    scanned := Scan(section, subjects, previews, contentLines);
  }

  /** The line scan of `_parse_response` and the padding after it. */
  method ScanReply(content: string, company: string) returns (letter: Newsletter)
    ensures letter == ScanResult(content, company)
  {
    var scanned := ScanAll(Split(Strip(content), '\n'));
    var subjects := PadItems(scanned.subjects, SubjectFiller(company));
    var previews := PadItems(scanned.previews, PreviewFiller(company));
    var body := if scanned.contentLines != [] then Join(scanned.contentLines, "\n") else content;
    letter := Newsletter(subjects[..3], previews[..3], body);
  }
}
