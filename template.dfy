/**
 * `_generate_fallback_content` (newsletter_generator.py): the newsletter the generator writes
 * itself, from the brief alone, whenever the model cannot be used.
 */
module Template {
  import opened Optional
  import opened Text
  import opened Briefs
  import opened Utilities

  /** The defaults `data.get` supplies for a missing company name, objective and content brief. */
  const DefaultCompany: string := "la nostra azienda"
  const DefaultObjective: string := "informare i clienti"
  const DefaultBrief: string := "Contenuti esclusivi e offerte speciali pensati per te."

  function Company(b: Brief): string {
    b.companyName.GetOr(DefaultCompany)
  }

  function Title(company: string): string {
    "# Newsletter " + company + "\n\n"
  }

  /** Everything after the title up to the content brief. */
  function Intro(objective: string, brief: string): string {
    objective + Greeting + brief
  }

  /** The fixed text between the objective and the content brief. */
  const Greeting: string := "\n\nSiamo entusiasti di condividere con te le nostre ultime novità e aggiornamenti.\n\n"
    + "**[SCOPRI DI PIÙ]**\n\n## Cosa abbiamo per te\n\n"

  /** The opening f-string, with the defaults `data.get` supplies for missing keys. */
  function Opening(b: Brief): string {
    Title(Company(b))
    + Intro(b.emailObjective.GetOr(DefaultObjective), b.contentBrief.GetOr(DefaultBrief))
  }

  function ProductHeading(name: string): string {
    "\n### " + name + "\n" + "Scopri tutti i dettagli di " + name + ".\n"
  }

  function ProductCallout(name: string): string {
    "**[SCOPRI " + Upper(name) + "]**\n"
  }

  /** The section of one product slot: nothing for a `None` slot or a product without a name. */
  function ProductSection(position: nat, p: Option<Product>): string {
    if Named(p) then
      ProductHeading(p.value.name.value) + (if Linked(p) then ProductCallout(p.value.name.value) else "")
    else ""
  }

  function ProductsSection(products: seq<Option<Product>>): string {
    if products == [] then "" else "\n\n## I nostri prodotti\n" + Concat(products, ProductSection)
  }

  function UspSection(company: string, usp: string): string {
    if usp == "" then "" else "\n\n## Perché scegliere " + company + "\n\n" + usp + "\n"
  }

  function DiscountCallout(code: string): string {
    "Usa il codice: **" + code + "**\n"
  }

  function DiscountSection(codes: seq<string>): string {
    if codes == [] then "" else "\n\n## Offerta esclusiva\n\n" + DiscountCallout(codes[0])
  }

  function Thanks(company: string): string {
    "Grazie per la tua fiducia in " + company + "."
  }

  function SignOff(company: string): string {
    "Il team di " + company + "\n"
  }

  function Farewell(company: string): string {
    "\n\n---\n\n" + Thanks(company) + "\n\n**[VISITA IL SITO]**\n\n" + SignOff(company)
  }

  function TemplateBody(b: Brief): string {
    Opening(b) + ProductsSection(b.products) + UspSection(Company(b), b.uspBenefit)
    + DiscountSection(b.discountCodes) + Farewell(Company(b))
  }

  /** The template result: the canned subjects and previews, and the assembled body. */
  function TemplateNewsletter(b: Brief): (n: Newsletter)
    ensures WellFormed(n)
    ensures n.content != ""
  {
    Newsletter(FallbackSubjects(Company(b)), FallbackPreviews(Company(b)), TemplateBody(b))
  }

  /** The product sections, one slot after another. */
  method WriteProducts(products: seq<Option<Product>>) returns (text: string)
    ensures text == Concat(products, ProductSection)
  {
    text := "";
    var i := 0;
    while i < |products|
      invariant 0 <= i <= |products|
      invariant text == Concat(products[..i], ProductSection)
    {
      var product := products[i];
      var section := "";
      if product.Some? && product.value.name.Some? && product.value.name.value != "" {
        var name := product.value.name.value;
        section := ProductHeading(name);
        if product.value.link.Some? && product.value.link.value != "" {
          section := section + ProductCallout(name);
        } else {
          assert section + "" == section;
        }
      }
      assert section == ProductSection(i + 1, product);
      text := text + section;
      assert products[..i + 1][..i] == products[..i];
      i := i + 1;
    }
    assert products[..i] == products;
  }

  /** `_generate_fallback_content(data)`. */
  method FallbackContent(b: Brief) returns (n: Newsletter)
    ensures n == TemplateNewsletter(b)
  {
    var company := b.companyName.GetOr(DefaultCompany);
    var objective := b.emailObjective.GetOr(DefaultObjective);
    var content := Title(company) + Intro(objective, b.contentBrief.GetOr(DefaultBrief));
    assert content == Opening(b);
    ghost var front := content;
    if b.products != [] {
      var sections := WriteProducts(b.products);
      content := content + ("\n\n## I nostri prodotti\n" + sections);
    }
    assert content == front + ProductsSection(b.products);
    front := content;
    if b.uspBenefit != "" {
      content := content + ("\n\n## Perché scegliere " + company + "\n\n" + b.uspBenefit + "\n");
    }
    assert content == front + UspSection(company, b.uspBenefit);
    front := content;
    if b.discountCodes != [] {
      content := content + ("\n\n## Offerta esclusiva\n\n" + DiscountCallout(b.discountCodes[0]));
    }
    assert content == front + DiscountSection(b.discountCodes);
    content := content + Farewell(company);
    assert content == TemplateBody(b);
    n := Newsletter(FallbackSubjects(company), FallbackPreviews(company), content);
  }

  /** The body opens with the company's title. */
  lemma TemplateOpensWithTitle(b: Brief)
    ensures StartsWith(TemplateNewsletter(b).content, "# Newsletter " + Company(b) + "\n\n")
  {
    var c := Company(b);
    StartsWithAppend(Title(c), Intro(b.emailObjective.GetOr(DefaultObjective), b.contentBrief.GetOr(DefaultBrief)));
    StartsWithExtend(Opening(b), Title(c), ProductsSection(b.products));
    var s := Opening(b) + ProductsSection(b.products);
    StartsWithExtend(s, Title(c), UspSection(c, b.uspBenefit));
    s := s + UspSection(c, b.uspBenefit);
    StartsWithExtend(s, Title(c), DiscountSection(b.discountCodes));
    s := s + DiscountSection(b.discountCodes);
    StartsWithExtend(s, Title(c), Farewell(c));
  }

  /** The body thanks the company and closes with the team's sign-off. */
  lemma TemplateClosesWithCompany(b: Brief)
    ensures EndsWith(TemplateNewsletter(b).content, "Il team di " + Company(b) + "\n")
    ensures Contains(TemplateNewsletter(b).content, "Grazie per la tua fiducia in " + Company(b) + ".")
  {
    var c := Company(b);
    var front := Opening(b) + ProductsSection(b.products) + UspSection(c, b.uspBenefit)
      + DiscountSection(b.discountCodes);
    var mid := "\n\n---\n\n" + Thanks(c) + "\n\n**[VISITA IL SITO]**\n\n";
    EndsWithAppend(mid, SignOff(c));
    EndsWithAppend(front + mid, SignOff(c));
    assert front + Farewell(c) == front + mid + SignOff(c);
    ContainsInfix("\n\n---\n\n", Thanks(c), "\n\n**[VISITA IL SITO]**\n\n");
    ContainsAppend("\n\n---\n\n" + Thanks(c) + "\n\n**[VISITA IL SITO]**\n\n", Thanks(c), SignOff(c));
    ContainsPrepend(front, Farewell(c), Thanks(c));
  }

  /** Whatever the products part holds, the body holds. */
  lemma ProductsInBody(b: Brief, t: string)
    requires Contains(ProductsSection(b.products), t)
    ensures Contains(TemplateBody(b), t)
  {
    ContainsPrepend(Opening(b), ProductsSection(b.products), t);
    var s := Opening(b) + ProductsSection(b.products);
    ContainsAppend(s, t, UspSection(Company(b), b.uspBenefit));
    s := s + UspSection(Company(b), b.uspBenefit);
    ContainsAppend(s, t, DiscountSection(b.discountCodes));
    s := s + DiscountSection(b.discountCodes);
    ContainsAppend(s, t, Farewell(Company(b)));
  }

  /**
   * Every named product gets its own heading, and its upper-cased call to action when it has a
   * link.
   */
  lemma TemplateListsProduct(b: Brief, k: nat)
    requires k < |b.products| && Named(b.products[k])
    ensures Contains(TemplateNewsletter(b).content, "\n### " + b.products[k].value.name.value + "\n")
    ensures Linked(b.products[k]) ==>
      Contains(TemplateNewsletter(b).content, "**[SCOPRI " + Upper(b.products[k].value.name.value) + "]**\n")
  {
    var p := b.products[k];
    var name := p.value.name.value;
    var section := ProductSection(k + 1, p);
    ConcatHasPiece(b.products, ProductSection, k);
    ContainsPrepend("\n\n## I nostri prodotti\n", Concat(b.products, ProductSection), section);
    var heading := "\n### " + name + "\n";
    var rest := "Scopri tutti i dettagli di " + name + ".\n";
    var callout := if Linked(p) then ProductCallout(name) else "";
    assert section == heading + rest + callout;
    ContainsStart(heading, rest);
    ContainsAppend(heading + rest, heading, callout);
    ContainsWithinPart(b, section, heading);
    if Linked(p) {
      ContainsEnd(heading + rest, callout);
      ContainsWithinPart(b, section, callout);
    }
  }

  lemma ContainsWithinPart(b: Brief, part: string, t: string)
    requires Contains(ProductsSection(b.products), part) && Contains(part, t)
    ensures Contains(TemplateBody(b), t)
  {
    ContainsTrans(ProductsSection(b.products), part, t);
    ProductsInBody(b, t);
  }

  /** Products without a name, and empty slots, add nothing but the products heading. */
  lemma {:induction false} UnnamedProductsAddNothing(products: seq<Option<Product>>)
    requires forall p <- products :: !Named(p)
    ensures Concat(products, ProductSection) == ""
  {
    if products != [] {
      UnnamedProductsAddNothing(products[..|products| - 1]);
    }
  }

  /** A truthy USP gets a section that names the company. */
  lemma TemplateUspSection(b: Brief)
    requires b.uspBenefit != ""
    ensures Contains(TemplateNewsletter(b).content,
      "\n\n## Perché scegliere " + Company(b) + "\n\n" + b.uspBenefit + "\n")
  {
    var c := Company(b);
    var u := UspSection(c, b.uspBenefit);
    ContainsEnd(Opening(b) + ProductsSection(b.products), u);
    var s := Opening(b) + ProductsSection(b.products) + u;
    ContainsAppend(s, u, DiscountSection(b.discountCodes));
    ContainsAppend(s + DiscountSection(b.discountCodes), u, Farewell(c));
  }

  /** A falsy USP, or no discount codes, leaves that section out and the rest of the body as it was. */
  lemma TemplateOmitsFalsy(b: Brief)
    ensures b.uspBenefit == "" ==> (TemplateNewsletter(b).content
      == Opening(b) + ProductsSection(b.products) + DiscountSection(b.discountCodes) + Farewell(Company(b)))
    ensures b.discountCodes == [] ==> (TemplateNewsletter(b).content
      == Opening(b) + ProductsSection(b.products) + UspSection(Company(b), b.uspBenefit) + Farewell(Company(b)))
  {
    var o, p, u, d := Opening(b), ProductsSection(b.products), UspSection(Company(b), b.uspBenefit),
      DiscountSection(b.discountCodes);
    if b.uspBenefit == "" { assert o + p + u == o + p; }
    if b.discountCodes == [] { assert o + p + u + d == o + p + u; }
  }

  /** Only the first discount code is offered. */
  lemma TemplateOffersFirstCode(b: Brief)
    requires b.discountCodes != []
    ensures Contains(TemplateNewsletter(b).content, "Usa il codice: **" + b.discountCodes[0] + "**\n")
    ensures DiscountSection(b.discountCodes) == DiscountSection(b.discountCodes[..1])
  {
    var c := Company(b);
    var d := DiscountSection(b.discountCodes);
    var t := DiscountCallout(b.discountCodes[0]);
    ContainsEnd("\n\n## Offerta esclusiva\n\n", t);
    var s := Opening(b) + ProductsSection(b.products) + UspSection(c, b.uspBenefit);
    ContainsPrepend(s, d, t);
    ContainsAppend(s + d, t, Farewell(c));
  }
}
