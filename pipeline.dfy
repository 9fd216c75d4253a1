/**
 * The two public entry points of `NewsletterGenerator` (newsletter_generator.py):
 * `generate_newsletter`, which chains the model call, the reply parser and the template, and
 * `generate_subjects_only`, which asks for three subject lines and tidies what comes back. The
 * chat-completion calls are parameters: a call returns the reply's text or fails.
 */
module Pipeline {
  import opened Optional
  import opened Text
  import opened Briefs
  import opened Utilities
  import opened Prompt
  import opened Template
  import opened Parser

  // ---------------------------------------------------------------- generate_newsletter

  /**
   * What `generate_newsletter` returns: the template when the prompt cannot be built or the call
   * fails, and otherwise what the parser makes of the reply. The second tier,
   * `_generate_with_fallback_model`, is not defined by the class, so calling it always raises and
   * every failure of the first tier ends in the template.
   */
  function Generated(b: Brief, complete: (string, string) -> Completion,
                     decode: string -> Option<map<string, Json>>): (r: Reply)
    ensures Usable(r)
  {
    match Prompt.Prompt(b)
    case None => TemplateReply(b)
    case Some(prompt) => AnswerReply(b, complete(SystemPrompt, prompt), decode)
  }

  /** The template, handed back as the result: three subjects and previews within their limits. */
  function TemplateReply(b: Brief): (r: Reply)
    ensures Usable(r)
  {
    Built(TemplateNewsletter(b))
  }

  /** What becomes of the model's answer: the template when the call failed, else the parsed reply. */
  function AnswerReply(b: Brief, answer: Completion, decode: string -> Option<map<string, Json>>): (r: Reply)
    ensures Usable(r)
    ensures answer.Failed? ==> r == Built(TemplateNewsletter(b))
    ensures answer.Answered? && !LooksLikeJson(answer.text) ==> r == Built(ScanResult(answer.text, ScanCompany(b)))
  {
    match answer
    case Failed => TemplateReply(b)
    case Answered(text) => ParsedReply(text, decode, b)
  }

  /** `generate_newsletter(data)`. `complete(system, user)` stands for the chat-completion call. */
  method GenerateNewsletter(b: Brief, complete: (string, string) -> Completion,
                            decode: string -> Option<map<string, Json>>)
    returns (reply: Reply)
    ensures reply == Generated(b, complete, decode)
  {
    var prompt := BuildPrompt(b);
    if prompt.None? {
      var letter := FallbackContent(b);
      return Built(letter);
    }
    var answer := complete(SystemPrompt, prompt.value);
    reply := HandleAnswer(b, answer, decode);
  }

  /** The parse of a successful call, or the template when the call raised. */
  method HandleAnswer(b: Brief, answer: Completion, decode: string -> Option<map<string, Json>>)
    returns (reply: Reply)
    ensures reply == AnswerReply(b, answer, decode)
    ensures answer.Failed? ==> reply == Built(TemplateNewsletter(b))
  {
    if answer.Failed? {
      var letter := FallbackContent(b);
      return Built(letter);
    }
    reply := ParseResponse(answer.text, decode, b);
  }

  /**
   * A brief missing a key the prompt reads, or holding a product without a name, gets the
   * template whatever the model would have answered.
   */
  lemma IncompleteBriefGetsTemplate(b: Brief, complete: (string, string) -> Completion,
                                    decode: string -> Option<map<string, Json>>)
    requires !HasPromptKeys(b) || exists k :: 0 <= k < |b.products| && !HasName(b.products[k])
    ensures Generated(b, complete, decode) == Built(TemplateNewsletter(b))
  {
    PromptFails(b);
    assert Prompt.Prompt(b).None?;
    calc {
      Generated(b, complete, decode);
      TemplateReply(b);
    }
  }

  /** A plain-text answer is always scanned, never replaced by the template. */
  lemma TextAnswerIsScanned(b: Brief, complete: (string, string) -> Completion,
                            decode: string -> Option<map<string, Json>>)
    requires Prompt.Prompt(b).Some?
    requires var answer := complete(SystemPrompt, Prompt.Prompt(b).value);
      answer.Answered? && !LooksLikeJson(answer.text)
    ensures Generated(b, complete, decode)
      == Built(ScanResult(complete(SystemPrompt, Prompt.Prompt(b).value).text, ScanCompany(b)))
  {
  }

  /** A call that raises, once the prompt is built, ends in the template. */
  lemma FailedCallGetsTemplate(b: Brief, complete: (string, string) -> Completion,
                               decode: string -> Option<map<string, Json>>)
    requires Prompt.Prompt(b).Some? && complete(SystemPrompt, Prompt.Prompt(b).value).Failed?
    ensures Generated(b, complete, decode) == Built(TemplateNewsletter(b))
  {
    var prompt := Prompt.Prompt(b).value;
    var answer := complete(SystemPrompt, prompt);
    assert answer.Failed?;
    calc {
      Generated(b, complete, decode);
      AnswerReply(b, answer, decode);
      TemplateReply(b);
    }
  }

  // ---------------------------------------------------------------- generate_subjects_only

  /** One `Title: value` line of the subjects prompt, with its 12-space indentation. */
  function RequestLine(title: string, value: string): string {
    "\n            " + title + ": " + value
  }

  function RequestHead(): string {
    "\n            Genera ESATTAMENTE 3 oggetti email accattivanti per:"
  }

  /** The lines after the company's: the four other keys, then the instructions. */
  function RequestDetails(emailType: string, objective: string, audience: string, tone: string): string {
    RequestLine("Tipo", emailType) + RequestLine("Obiettivo", objective) + RequestLine("Target", audience)
    + RequestLine("Tone", tone)
    + "\n            \n            IMPORTANTE: Ogni oggetto deve essere MASSIMO 40 caratteri."
    + "\n            Rispondi solo con i 3 oggetti, uno per riga, senza numerazione.\n            "
  }

  /** The f-string prompt of `generate_subjects_only`. */
  function SubjectsPrompt(company: string, emailType: string, objective: string, audience: string, tone: string): string {
    RequestHead() + RequestLine("Azienda", company) + RequestDetails(emailType, objective, audience, tone)
  }

  /** The subjects prompt, or `None` when one of the five keys it reads is missing. */
  function SubjectsRequest(b: Brief): Option<string> {
    if b.companyName.Some? && b.emailType.Some? && b.emailObjective.Some? && b.targetAudience.Some?
       && b.toneOfVoice.Some?
    then Some(SubjectsPrompt(b.companyName.value, b.emailType.value, b.emailObjective.value,
                             b.targetAudience.value, b.toneOfVoice.value))
    else None
  }

  /** The prompt names the company it asks subjects for, on a line of its own. */
  lemma SubjectsPromptNamesCompany(b: Brief)
    requires SubjectsRequest(b).Some?
    ensures Contains(SubjectsRequest(b).value, RequestLine("Azienda", b.companyName.value))
  {
    ContainsInfix(RequestHead(), RequestLine("Azienda", b.companyName.value),
      RequestDetails(b.emailType.value, b.emailObjective.value, b.targetAudience.value, b.toneOfVoice.value));
  }

  /** The filler `f"News {company}"[:40]`. */
  function NewsFiller(company: string): (r: string)
    ensures r != "" && |r| <= MaxSubject
  {
    Prefix("News " + company, 40)
  }

  /** The three subjects returned when the call fails. */
  function CannedSubjects(company: string): (r: seq<string>)
    ensures |r| == 3 && forall s <- r :: s != "" && |s| <= MaxSubject
    ensures r[0] == NewsFiller(company)
  {
    [NewsFiller(company), Prefix("Novità " + company, 40), Prefix("Offerte " + company, 40)]
  }

  /** The non-blank lines of the stripped reply, each stripped. */
  function ReplySubjects(content: string): (r: seq<string>)
    ensures forall s <- r :: s != ""
  {
    StrippedNonBlank(Split(Strip(content), '\n'))
  }

  /** The subjects read from a reply are its non-blank lines, stripped, and nothing else. */
  lemma ReplySubjectsAreLines(content: string)
    ensures forall l <- Split(Strip(content), '\n') :: !Blank(l) ==> Strip(l) in ReplySubjects(content)
    ensures forall s <- ReplySubjects(content) :: exists l <- Split(Strip(content), '\n') :: !Blank(l) && s == Strip(l)
  {
    StrippedNonBlankKeeps(Split(Strip(content), '\n'));
    StrippedNonBlankSources(Split(Strip(content), '\n'));
  }

  /** The lines of at most `limit` characters, in order. */
  function Short(xs: seq<string>, limit: nat): (r: seq<string>)
    ensures |r| <= |xs|
    ensures forall s <- r :: s in xs && |s| <= limit
    ensures forall s <- xs :: |s| <= limit ==> s in r
  {
    if xs == [] then []
    else (if |xs[0]| <= limit then [xs[0]] else []) + Short(xs[1..], limit)
  }

  /**
   * The filter works line by line: the short lines of `xs + ys` are those of `xs` followed by those
   * of `ys`, so order and repeats are kept.
   */
  lemma {:induction false} ShortAppend(xs: seq<string>, ys: seq<string>, limit: nat)
    ensures Short(xs + ys, limit) == Short(xs, limit) + Short(ys, limit)
  {
    if xs != [] {
      assert (xs + ys)[0] == xs[0] && (xs + ys)[1..] == xs[1..] + ys;
      ShortAppend(xs[1..], ys, limit);
    } else {
      assert xs + ys == ys;
    }
  }

  /** When every line is short, the filter keeps them all, in order. */
  lemma {:induction false} ShortKeepsOrder(xs: seq<string>, limit: nat)
    requires forall s <- xs :: |s| <= limit
    ensures Short(xs, limit) == xs
  {
    if xs != [] {
      assert xs[0] in xs;
      assert forall s <- xs[1..] :: s in xs;
      ShortKeepsOrder(xs[1..], limit);
      assert xs == [xs[0]] + xs[1..];
    }
  }

  /** The subjects the reply yields: its short lines, padded with the filler, first three. */
  function PickedSubjects(content: string, company: string): (r: seq<string>)
    ensures |r| == 3 && forall s <- r :: s != "" && |s| <= MaxSubject
  {
    var valid := Short(ReplySubjects(content), 40);
    var padded := Pad(valid, NewsFiller(company));
    assert forall i :: 0 <= i < 3 ==> padded[i] in valid || padded[i] == NewsFiller(company) by {
      forall i | 0 <= i < 3 ensures padded[i] in valid || padded[i] == NewsFiller(company) {
        if i < |valid| {
          assert padded[i] == padded[..|valid|][i];
        }
      }
    }
    padded[..3]
  }

  /** The picked subjects are the reply's short lines in order, then the filler. */
  lemma PickedSubjectsInOrder(content: string, company: string)
    ensures var valid := Short(ReplySubjects(content), 40);
      forall i :: 0 <= i < 3 ==>
        PickedSubjects(content, company)[i] == if i < |valid| then valid[i] else NewsFiller(company)
  {
    var valid := Short(ReplySubjects(content), 40);
    var padded := Pad(valid, NewsFiller(company));
    forall i | 0 <= i < |valid| ensures padded[i] == valid[i] {
      assert padded[i] == padded[..|valid|][i];
    }
  }

  /**
   * What `generate_subjects_only` returns: `None` for the `KeyError` that escapes when the brief
   * has no company name; the canned three when another key is missing or the call fails; and
   * otherwise the subjects picked from the reply. Whenever there is a result, it is three
   * non-empty subjects of at most 40 characters.
   */
  function SubjectsOnly(b: Brief, complete: string -> Completion): (r: Option<seq<string>>)
    ensures r.None? <==> b.companyName.None?
    ensures r.Some? ==> |r.value| == 3 && forall s <- r.value :: s != "" && |s| <= MaxSubject
    ensures b.companyName.Some? && SubjectsRequest(b).None? ==> r == Some(CannedSubjects(b.companyName.value))
    ensures b.companyName.Some? && SubjectsRequest(b).Some?
      ==> r == Some(SubjectsFrom(b.companyName.value, complete(SubjectsRequest(b).value)))
  {
    if b.companyName.None? then None
    else if SubjectsRequest(b).None? then Some(CannedSubjects(b.companyName.value))
    else Some(SubjectsFrom(b.companyName.value, complete(SubjectsRequest(b).value)))
  }

  /** The subjects the call yields: the canned three when it failed, else those picked from the reply. */
  function SubjectsFrom(company: string, answer: Completion): (r: seq<string>)
    ensures |r| == 3 && forall s <- r :: s != "" && |s| <= MaxSubject
    ensures answer.Failed? ==> r == CannedSubjects(company)
    ensures answer.Answered? ==> r == PickedSubjects(answer.text, company)
  {
    match answer
    case Failed => CannedSubjects(company)
    case Answered(text) => PickedSubjects(text, company)
  }

  /** The post-processing of the reply: filter by length, pad with the filler, keep three. */
  method PostProcessSubjects(content: string, company: string) returns (subjects: seq<string>)
    ensures subjects == PickedSubjects(content, company)
  {
    var lines := ReplySubjects(content);
    var valid := Short(lines, 40);
    var padded := PadItems(valid, NewsFiller(company));
    subjects := padded[..3];
  }

  /** `generate_subjects_only(data)`. `complete(prompt)` stands for the chat-completion call. */
  method GenerateSubjectsOnly(b: Brief, complete: string -> Completion) returns (subjects: Option<seq<string>>)
    ensures subjects == SubjectsOnly(b, complete)
  {
    if b.companyName.None? {
      return None;
    }
    var company := b.companyName.value;
    var request := SubjectsRequest(b);
    if request.None? {
      return Some(CannedSubjects(company));
    }
    var answer := complete(request.value);
    if answer.Failed? {
      return Some(CannedSubjects(company));
    }
    var picked := PostProcessSubjects(answer.text, company);
    subjects := Some(picked);
  }

  /** A reply of three short lines is taken as it stands. */
  lemma ThreeShortLinesKept(content: string, company: string)
    requires |ReplySubjects(content)| == 3 && forall s <- ReplySubjects(content) :: |s| <= MaxSubject
    ensures PickedSubjects(content, company) == ReplySubjects(content)
  {
    ShortKeepsOrder(ReplySubjects(content), 40);
    PickedSubjectsInOrder(content, company);
  }
}
