/**
 * The two prompts of the generator (newsletter_generator.py): the fixed system prompt and the user
 * prompt that `_build_prompt` assembles from the brief.
 */
module Prompt {
  import opened Optional
  import opened Text
  import opened Briefs

  /** A JSON key in double quotes. */
  function Quoted(key: string): string {
    "\"" + key + "\""
  }

  /** One line of the JSON shape shown in the system prompt: the quoted key and a sample value. */
  function KeyLine(key: string, sample: string): string {
    "            " + Quoted(key) + ": " + sample + "\n"
  }

  /** The JSON shape the system prompt asks for, between the instructions and the closing line. */
  function ReplyShape(): string {
    "        {\n"
    + KeyLine(SubjectsKey, "[\"oggetto1\", \"oggetto2\", \"oggetto3\"],")
    + KeyLine(PreviewsKey, "[\"anteprima1\", \"anteprima2\", \"anteprima3\"],")
    + KeyLine(ContentKey, "\"contenuto completo in markdown\"")
    + "        }\n\n"
  }

  const SystemIntro: string :=
    "\n        Sei un esperto di email marketing e copywriting. Il tuo compito è generare newsletter ottimizzate \n"
    + "        seguendo esattamente questo formato:\n\n"
    + "        1. 3 proposte di oggetto email (massimo 40 caratteri ciascuno)\n"
    + "        2. 3 proposte di anteprima email (massimo 100 caratteri ciascuno)\n"
    + "        3. Contenuto newsletter strutturato con:\n"
    + "           - Titolo principale\n"
    + "           - Paragrafo principale \n"
    + "           - Call to action\n"
    + "           - Sezioni prodotto (se presenti) con descrizioni, prezzi, CTA\n"
    + "           - Chiusura e CTA finale\n\n"
    + "        Rispondi SEMPRE in formato JSON con questa struttura:\n"

  const SystemOutro: string :=
    "        Adatta il contenuto al tone of voice richiesto e rispetta tutti i vincoli specificati.\n"
    + "        "

  /** `_get_system_prompt()`. */
  const SystemPrompt: string := SystemIntro + ReplyShape() + SystemOutro

  lemma KeyLineHasKey(key: string, sample: string)
    ensures Contains(KeyLine(key, sample), Quoted(key))
  {
    ContainsEnd("            ", Quoted(key));
    ContainsAppend("            " + Quoted(key), Quoted(key), ": ");
    ContainsAppend("            " + Quoted(key) + ": ", Quoted(key), sample);
    ContainsAppend("            " + Quoted(key) + ": " + sample, Quoted(key), "\n");
  }

  /** The JSON shape names each of the three result keys. */
  lemma ReplyShapeNamesKeys()
    ensures Contains(ReplyShape(), Quoted(SubjectsKey))
    ensures Contains(ReplyShape(), Quoted(PreviewsKey))
    ensures Contains(ReplyShape(), Quoted(ContentKey))
  {
    var k1 := KeyLine(SubjectsKey, "[\"oggetto1\", \"oggetto2\", \"oggetto3\"],");
    var k2 := KeyLine(PreviewsKey, "[\"anteprima1\", \"anteprima2\", \"anteprima3\"],");
    var k3 := KeyLine(ContentKey, "\"contenuto completo in markdown\"");
    var open, close := "        {\n", "        }\n\n";
    KeyLineHasKey(SubjectsKey, "[\"oggetto1\", \"oggetto2\", \"oggetto3\"],");
    KeyLineHasKey(PreviewsKey, "[\"anteprima1\", \"anteprima2\", \"anteprima3\"],");
    KeyLineHasKey(ContentKey, "\"contenuto completo in markdown\"");
    ContainsPrepend(open, k1, Quoted(SubjectsKey));
    ContainsAppend(open + k1, Quoted(SubjectsKey), k2);
    ContainsAppend(open + k1 + k2, Quoted(SubjectsKey), k3);
    ContainsAppend(open + k1 + k2 + k3, Quoted(SubjectsKey), close);
    ContainsPrepend(open + k1, k2, Quoted(PreviewsKey));
    ContainsAppend(open + k1 + k2, Quoted(PreviewsKey), k3);
    ContainsAppend(open + k1 + k2 + k3, Quoted(PreviewsKey), close);
    ContainsPrepend(open + k1 + k2, k3, Quoted(ContentKey));
    ContainsAppend(open + k1 + k2 + k3, Quoted(ContentKey), close);
  }

  /** The system prompt names each of the three keys that the JSON fast path later checks for. */
  lemma SystemPromptNamesResultKeys()
    ensures Contains(SystemPrompt, Quoted(SubjectsKey))
    ensures Contains(SystemPrompt, Quoted(PreviewsKey))
    ensures Contains(SystemPrompt, Quoted(ContentKey))
  {
    ReplyShapeNamesKeys();
    ContainsWithin(SystemIntro, ReplyShape(), SystemOutro, Quoted(SubjectsKey));
    ContainsWithin(SystemIntro, ReplyShape(), SystemOutro, Quoted(PreviewsKey));
    ContainsWithin(SystemIntro, ReplyShape(), SystemOutro, Quoted(ContentKey));
  }

  // ---------------------------------------------------------------- _build_prompt

  /** The keys `_build_prompt` reads with `data[...]`: a missing one raises `KeyError`. */
  predicate HasPromptKeys(b: Brief) {
    b.companyName.Some? && b.companyDescription.Some? && b.emailType.Some? && b.emailObjective.Some?
    && b.contentBrief.Some? && b.targetAudience.Some? && b.marketSegments.Some? && b.toneOfVoice.Some?
    && b.language.Some?
  }

  /** `product['name']` succeeds: the slot holds a product that has a name (possibly empty). */
  predicate HasName(p: Option<Product>) {
    p.Some? && p.value.name.Some?
  }

  /** `[s for s in segments if s]`: the non-empty segments, in order. */
  function NonEmptyItems(xs: seq<string>): (r: seq<string>)
    ensures forall s <- r :: s != "" && s in xs
    ensures forall s <- xs :: s != "" ==> s in r
    ensures |r| <= |xs|
  {
    if xs == [] then []
    else (if xs[0] == "" then [] else [xs[0]]) + NonEmptyItems(xs[1..])
  }

  /** The filter works item by item, so order and repeats are kept. */
  lemma {:induction false} NonEmptyItemsAppend(xs: seq<string>, ys: seq<string>)
    ensures NonEmptyItems(xs + ys) == NonEmptyItems(xs) + NonEmptyItems(ys)
  {
    if xs != [] {
      assert (xs + ys)[0] == xs[0] && (xs + ys)[1..] == xs[1..] + ys;
      NonEmptyItemsAppend(xs[1..], ys);
    } else {
      assert xs + ys == ys;
    }
  }

  /** A header line: eight spaces of indentation, the bold title, the value. */
  function Field(title: string, value: string): string {
    "        **" + title + ":** " + value + "\n"
  }

  function CompanyFields(b: Brief): string
    requires HasPromptKeys(b)
  {
    Field("AZIENDA", b.companyName.value)
    + Field("SITO WEB", b.websiteUrl.GetOr("Non specificato"))
    + Field("DESCRIZIONE", b.companyDescription.value)
  }

  function EmailFields(b: Brief): string
    requires HasPromptKeys(b)
  {
    Field("TIPO EMAIL", b.emailType.value)
    + Field("OBIETTIVO", b.emailObjective.value)
    + Field("BRIEF CONTENUTO", b.contentBrief.value)
  }

  function AudienceFields(b: Brief): string
    requires HasPromptKeys(b)
  {
    Field("TARGET", b.targetAudience.value)
    + Field("SEGMENTI MERCATO", Join(NonEmptyItems(b.marketSegments.value), ", "))
    + Field("TONE OF VOICE", b.toneOfVoice.value)
    + Field("LINGUA", b.language.value)
  }

  /** The opening f-string of `_build_prompt`. */
  function Header(b: Brief): string
    requires HasPromptKeys(b)
  {
    "\n        Genera una newsletter ottimizzata per:\n\n"
    + CompanyFields(b) + "\n" + EmailFields(b) + "\n" + AudienceFields(b) + "        "
  }

  /** `"{i}. {name}"`, `" - Link: {link}"` when linked, then a newline. */
  function PromptProductLine(position: nat, p: Option<Product>): string {
    var name := if HasName(p) then p.value.name.value else "";
    NatToString(position) + ". " + name + (if Linked(p) then " - Link: " + p.value.link.value else "") + "\n"
  }

  function ProductsPart(products: seq<Option<Product>>): string {
    if products == [] then "" else "\n**PRODOTTI DA INCLUDERE:**\n" + Concat(products, PromptProductLine)
  }

  /** `"\n**{title}:** {value}"`. */
  function Section(title: string, value: string): string {
    "\n**" + title + ":** " + value
  }

  function UspPart(b: Brief): string {
    if b.uspBenefit == "" then "" else Section("USP/BENEFIT", b.uspBenefit)
  }

  /** A list section: omitted when the list is empty, else its items joined with ", ". */
  function ListPart(title: string, items: seq<string>): string {
    if items == [] then "" else Section(title, Join(items, ", "))
  }

  const Closing: string :=
    "\n\n        Genera:\n"
    + "        1. 3 oggetti email accattivanti (MAX 40 caratteri)\n"
    + "        2. 3 anteprime email persuasive (MAX 100 caratteri)  \n"
    + "        3. Newsletter completa con struttura professionale\n\n"
    + "        Per la newsletter, includi:\n"
    + "        - Titolo coinvolgente\n"
    + "        - Paragrafo introduttivo che catturi l'attenzione\n"
    + "        - Call to action principale\n"
    + "        - Sezioni prodotto dettagliate (se presenti) con descrizioni, benefici e CTA\n"
    + "        - Chiusura persuasiva con CTA finale\n"
    + "        \n"
    + "        Usa un linguaggio adatto al tone of voice e al target specificato.\n"
    + "        Rispetta RIGOROSAMENTE i limiti di caratteri per oggetti e anteprime.\n"
    + "        "

  /** The optional sections after the products: USP, discount codes, words to avoid, words to use. */
  function Extras(b: Brief): string {
    UspPart(b) + ListPart("CODICI SCONTO", b.discountCodes) + ListPart("PAROLE DA EVITARE", b.forbiddenWords)
    + ListPart("PAROLE DA INCLUDERE", b.requiredWords)
  }

  /** Everything before the closing instructions. */
  function Body(b: Brief): string
    requires HasPromptKeys(b)
  {
    Header(b) + ProductsPart(b.products) + Extras(b)
  }

  /** The prompt text, once the keys it reads are known to be there. */
  function PromptText(b: Brief): string
    requires HasPromptKeys(b)
  {
    Body(b) + Closing
  }

  /** What `_build_prompt` returns; `None` where it raises (a missing key, an unnamed product). */
  function Prompt(b: Brief): Option<string> {
    if HasPromptKeys(b) && forall p <- b.products :: HasName(p) then Some(PromptText(b)) else None
  }

  /**
   * The numbered product lines of `_build_prompt`; `None` where `product['name']` raises (a `None`
   * slot or a product without a name).
   */
  method ListProducts(products: seq<Option<Product>>) returns (lines: Option<string>)
    ensures lines.Some? <==> forall p <- products :: HasName(p)
    ensures lines.Some? ==> lines.value == Concat(products, PromptProductLine)
  {
    var text := "";
    var i := 0;
    while i < |products|
      invariant 0 <= i <= |products|
      invariant forall j :: 0 <= j < i ==> HasName(products[j])
      invariant text == Concat(products[..i], PromptProductLine)
    {
      var product := products[i];
      if product.None? || product.value.name.None? {
        assert !HasName(products[i]) && products[i] in products;
        return None;
      }
      var line := NatToString(i + 1) + ". " + product.value.name.value;
      if product.value.link.Some? && product.value.link.value != "" {
        line := line + (" - Link: " + product.value.link.value);
      } else {
        assert line + "" == line;
      }
      line := line + "\n";
      assert line == PromptProductLine(i + 1, product);
      text := text + line;
      assert products[..i + 1][..i] == products[..i];
      i := i + 1;
    }
    assert products[..i] == products;
    return Some(text);
  }

  /** `_build_prompt(data)`. */
  method BuildPrompt(b: Brief) returns (prompt: Option<string>)
    ensures prompt == Prompt(b)
  {
    if !HasPromptKeys(b) {
      return None;
    }
    var text := Header(b);
    if b.products != [] {
      var lines := ListProducts(b.products);
      if lines.None? {
        return None;
      }
      text := text + ("\n**PRODOTTI DA INCLUDERE:**\n" + lines.value);
    }
    assert text == Header(b) + ProductsPart(b.products);
    var extras := OptionalSections(b);
    text := text + extras;
    prompt := Some(text + Closing);
    assert prompt == Some(PromptText(b));
  }

  /** The four `if data.get(...)` appends after the products, each adding its section or nothing. */
  method OptionalSections(b: Brief) returns (text: string)
    ensures text == Extras(b)
  {
    text := "";
    if b.uspBenefit != "" {
      text := text + Section("USP/BENEFIT", b.uspBenefit);
    }
    assert text == UspPart(b);
    ghost var front := text;
    if b.discountCodes != [] {
      text := text + Section("CODICI SCONTO", Join(b.discountCodes, ", "));
    }
    assert text == front + ListPart("CODICI SCONTO", b.discountCodes);
    front := text;
    if b.forbiddenWords != [] {
      text := text + Section("PAROLE DA EVITARE", Join(b.forbiddenWords, ", "));
    }
    assert text == front + ListPart("PAROLE DA EVITARE", b.forbiddenWords);
    front := text;
    if b.requiredWords != [] {
      text := text + Section("PAROLE DA INCLUDERE", Join(b.requiredWords, ", "));
    }
    assert text == front + ListPart("PAROLE DA INCLUDERE", b.requiredWords);
  }

  lemma BodyInPrompt(b: Brief, t: string)
    requires HasPromptKeys(b) && Contains(Body(b), t)
    ensures Contains(PromptText(b), t)
  {
    ContainsAppend(Body(b), t, Closing);
  }

  /** Whatever the optional sections hold, the whole prompt holds. */
  lemma ExtrasInPrompt(b: Brief, t: string)
    requires HasPromptKeys(b) && Contains(Extras(b), t)
    ensures Contains(PromptText(b), t)
  {
    ContainsPrepend(Header(b) + ProductsPart(b.products), Extras(b), t);
    BodyInPrompt(b, t);
  }

  /** Whatever the header holds, the whole prompt holds. */
  lemma HeaderInPrompt(b: Brief, t: string)
    requires HasPromptKeys(b) && Contains(Header(b), t)
    ensures Contains(PromptText(b), t)
  {
    ContainsAppend(Header(b), t, ProductsPart(b.products));
    ContainsAppend(Header(b) + ProductsPart(b.products), t, Extras(b));
    BodyInPrompt(b, t);
  }

  /**
   * The website line shows the URL whenever the key is present, even when it is empty, and
   * "Non specificato" only when the key is missing.
   */
  lemma PromptWebsiteLine(b: Brief)
    requires HasPromptKeys(b)
    ensures b.websiteUrl.Some? ==> Contains(PromptText(b), Field("SITO WEB", b.websiteUrl.value))
    ensures b.websiteUrl.None? ==> Contains(PromptText(b), Field("SITO WEB", "Non specificato"))
  {
    var intro := "\n        Genera una newsletter ottimizzata per:\n\n";
    var w := Field("SITO WEB", b.websiteUrl.GetOr("Non specificato"));
    ContainsInfix(Field("AZIENDA", b.companyName.value), w, Field("DESCRIZIONE", b.companyDescription.value));
    ContainsPrepend(intro, CompanyFields(b), w);
    var s := intro + CompanyFields(b);
    ContainsAppend(s, w, "\n");
    ContainsAppend(s + "\n", w, EmailFields(b));
    ContainsAppend(s + "\n" + EmailFields(b), w, "\n");
    ContainsAppend(s + "\n" + EmailFields(b) + "\n", w, AudienceFields(b));
    ContainsAppend(s + "\n" + EmailFields(b) + "\n" + AudienceFields(b), w, "        ");
    HeaderInPrompt(b, w);
  }

  /** The segments line lists the non-empty segments, in order, joined with ", ". */
  lemma PromptSegmentsLine(b: Brief)
    requires HasPromptKeys(b)
    ensures Contains(PromptText(b), Field("SEGMENTI MERCATO", Join(NonEmptyItems(b.marketSegments.value), ", ")))
  {
    var front := "\n        Genera una newsletter ottimizzata per:\n\n" + CompanyFields(b) + "\n" + EmailFields(b) + "\n";
    var target := Field("TARGET", b.targetAudience.value);
    var seg := Field("SEGMENTI MERCATO", Join(NonEmptyItems(b.marketSegments.value), ", "));
    ContainsEnd(target, seg);
    ContainsAppend(target + seg, seg, Field("TONE OF VOICE", b.toneOfVoice.value));
    ContainsAppend(target + seg + Field("TONE OF VOICE", b.toneOfVoice.value), seg, Field("LINGUA", b.language.value));
    ContainsPrepend(front, AudienceFields(b), seg);
    ContainsAppend(front + AudienceFields(b), seg, "        ");
    HeaderInPrompt(b, seg);
  }

  /**
   * Every product is listed under its 1-based position, with " - Link: ..." exactly when it has a
   * link.
   */
  lemma PromptListsProduct(b: Brief, k: nat)
    requires HasPromptKeys(b) && k < |b.products| && HasName(b.products[k])
    ensures Contains(PromptText(b), NatToString(k + 1) + ". " + b.products[k].value.name.value
      + (if Linked(b.products[k]) then " - Link: " + b.products[k].value.link.value else "") + "\n")
  {
    var line := PromptProductLine(k + 1, b.products[k]);
    ConcatHasPiece(b.products, PromptProductLine, k);
    ContainsPrepend("\n**PRODOTTI DA INCLUDERE:**\n", Concat(b.products, PromptProductLine), line);
    ContainsPrepend(Header(b), ProductsPart(b.products), line);
    ContainsAppend(Header(b) + ProductsPart(b.products), line, Extras(b));
    BodyInPrompt(b, line);
  }

  /** A truthy USP gets its own section. */
  lemma PromptUspSection(b: Brief)
    requires HasPromptKeys(b) && b.uspBenefit != ""
    ensures Contains(PromptText(b), Section("USP/BENEFIT", b.uspBenefit))
  {
    var u := Section("USP/BENEFIT", b.uspBenefit);
    ContainsStart(u, ListPart("CODICI SCONTO", b.discountCodes));
    var s := u + ListPart("CODICI SCONTO", b.discountCodes);
    ContainsAppend(s, u, ListPart("PAROLE DA EVITARE", b.forbiddenWords));
    s := s + ListPart("PAROLE DA EVITARE", b.forbiddenWords);
    ContainsAppend(s, u, ListPart("PAROLE DA INCLUDERE", b.requiredWords));
    ExtrasInPrompt(b, u);
  }

  /** A non-empty list of discount codes is listed whole, joined with ", ". */
  lemma PromptDiscountSection(b: Brief)
    requires HasPromptKeys(b) && b.discountCodes != []
    ensures Contains(PromptText(b), Section("CODICI SCONTO", Join(b.discountCodes, ", ")))
  {
    var d := Section("CODICI SCONTO", Join(b.discountCodes, ", "));
    ContainsInfix(UspPart(b), d, ListPart("PAROLE DA EVITARE", b.forbiddenWords));
    var s := UspPart(b) + d + ListPart("PAROLE DA EVITARE", b.forbiddenWords);
    ContainsAppend(s, d, ListPart("PAROLE DA INCLUDERE", b.requiredWords));
    ExtrasInPrompt(b, d);
  }

  /** A non-empty list of words to avoid is listed whole, joined with ", ". */
  lemma PromptForbiddenSection(b: Brief)
    requires HasPromptKeys(b) && b.forbiddenWords != []
    ensures Contains(PromptText(b), Section("PAROLE DA EVITARE", Join(b.forbiddenWords, ", ")))
  {
    var f := Section("PAROLE DA EVITARE", Join(b.forbiddenWords, ", "));
    ContainsInfix(UspPart(b) + ListPart("CODICI SCONTO", b.discountCodes), f,
      ListPart("PAROLE DA INCLUDERE", b.requiredWords));
    ExtrasInPrompt(b, f);
  }

  /** A non-empty list of words to include is listed whole, joined with ", ". */
  lemma PromptRequiredSection(b: Brief)
    requires HasPromptKeys(b) && b.requiredWords != []
    ensures Contains(PromptText(b), Section("PAROLE DA INCLUDERE", Join(b.requiredWords, ", ")))
  {
    var w := Section("PAROLE DA INCLUDERE", Join(b.requiredWords, ", "));
    ContainsEnd(UspPart(b) + ListPart("CODICI SCONTO", b.discountCodes) + ListPart("PAROLE DA EVITARE", b.forbiddenWords), w);
    ExtrasInPrompt(b, w);
  }

  /** Each optional section is left out on its own when its value is falsy; the others stay. */
  lemma ExtrasOmitFalsy(b: Brief)
    ensures b.uspBenefit == "" ==> (Extras(b)
      == ListPart("CODICI SCONTO", b.discountCodes) + ListPart("PAROLE DA EVITARE", b.forbiddenWords)
         + ListPart("PAROLE DA INCLUDERE", b.requiredWords))
    ensures b.discountCodes == [] ==> (Extras(b)
      == UspPart(b) + ListPart("PAROLE DA EVITARE", b.forbiddenWords) + ListPart("PAROLE DA INCLUDERE", b.requiredWords))
    ensures b.forbiddenWords == [] ==> (Extras(b)
      == UspPart(b) + ListPart("CODICI SCONTO", b.discountCodes) + ListPart("PAROLE DA INCLUDERE", b.requiredWords))
    ensures b.requiredWords == [] ==> (Extras(b)
      == UspPart(b) + ListPart("CODICI SCONTO", b.discountCodes) + ListPart("PAROLE DA EVITARE", b.forbiddenWords))
  {
    var u, d, f, w := UspPart(b), ListPart("CODICI SCONTO", b.discountCodes),
      ListPart("PAROLE DA EVITARE", b.forbiddenWords), ListPart("PAROLE DA INCLUDERE", b.requiredWords);
    if b.uspBenefit == "" { assert u + d == d; }
    if b.discountCodes == [] { assert u + d == u; }
    if b.forbiddenWords == [] { assert u + d + f == u + d; }
    if b.requiredWords == [] { assert u + d + f + w == u + d + f; }
  }

  /**
   * With no products and every optional field falsy, nothing stands between the header and the
   * closing instructions.
   */
  lemma PromptWithoutOptionalParts(b: Brief)
    requires HasPromptKeys(b)
    requires b.products == [] && b.uspBenefit == "" && b.discountCodes == [] && b.forbiddenWords == []
      && b.requiredWords == []
    ensures Prompt(b) == Some(Header(b) + Closing)
  {
    assert Extras(b) == "" && ProductsPart(b.products) == "";
    var h := Header(b);
    assert h + "" + "" == h;
    assert PromptText(b) == h + Closing;
  }

  /** The prompt always opens with the header and ends with the closing instructions. */
  lemma PromptFrame(b: Brief)
    requires HasPromptKeys(b)
    ensures StartsWith(PromptText(b), Header(b))
    ensures EndsWith(PromptText(b), Closing)
  {
    StartsWithAppend(Header(b), ProductsPart(b.products));
    StartsWithExtend(Header(b) + ProductsPart(b.products), Header(b), Extras(b));
    StartsWithExtend(Body(b), Header(b), Closing);
    EndsWithAppend(Body(b), Closing);
  }

  /** A missing key the prompt reads, or a product slot without a name, makes the build fail. */
  lemma PromptFails(b: Brief)
    ensures Prompt(b).None? <==> !HasPromptKeys(b) || exists k :: 0 <= k < |b.products| && !HasName(b.products[k])
  {
    if exists k :: 0 <= k < |b.products| && !HasName(b.products[k]) {
      var k :| 0 <= k < |b.products| && !HasName(b.products[k]);
      assert b.products[k] in b.products;
    }
  }
}
