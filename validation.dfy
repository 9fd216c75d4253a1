/** `validate_inputs` (utilis.py): required fields, then the website URL, then each product link. */
module Validation {
  import opened Optional
  import opened Text
  import opened Briefs
  import opened Url

  /** The keys of the `required_fields` dictionary. */
  datatype Field = CompanyName | CompanyDescription | EmailObjective | ContentBrief

  /** The keys in the dictionary's (insertion) order, which is the order of the messages. */
  const RequiredFields: seq<Field> := [CompanyName, CompanyDescription, EmailObjective, ContentBrief]

  /** The label each key is reported under. */
  function Label(f: Field): string {
    match f
    case CompanyName => "Nome azienda"
    case CompanyDescription => "Descrizione azienda"
    case EmailObjective => "Obiettivo email"
    case ContentBrief => "Brief contenuto"
  }

  function FieldValue(b: Brief, f: Field): Option<string> {
    match f
    case CompanyName => b.companyName
    case CompanyDescription => b.companyDescription
    case EmailObjective => b.emailObjective
    case ContentBrief => b.contentBrief
  }

  /** `not data.get(field, '').strip()`: the key is missing, empty or whitespace only. */
  predicate Missing(b: Brief, f: Field) {
    Blank(FieldValue(b, f).GetOr(""))
  }

  function MissingMessage(f: Field): string {
    Label(f) + " è obbligatorio"
  }

  const WebsiteMessage: string := "URL sito web non valido"

  function ProductLinkMessage(position: nat): string {
    "Link prodotto " + NatToString(position) + " non valido"
  }

  /** `data.get('website_url') and not is_valid_url(...)`. */
  predicate BadWebsite(b: Brief) {
    Truthy(b.websiteUrl) && !IsValidUrl(b.websiteUrl.value)
  }

  /** `product and product.get('link') and not is_valid_url(product['link'])`. */
  predicate BadLink(p: Option<Product>) {
    Linked(p) && !IsValidUrl(p.value.link.value)
  }

  /** The messages for the fields of `fs` that are missing, in the order of `fs`. */
  function MissingErrors(b: Brief, fs: seq<Field>): seq<string> {
    if fs == [] then []
    else MissingErrors(b, fs[..|fs| - 1]) + (if Missing(b, fs[|fs| - 1]) then [MissingMessage(fs[|fs| - 1])] else [])
  }

  function WebsiteErrors(b: Brief): seq<string> {
    if BadWebsite(b) then [WebsiteMessage] else []
  }

  /** One message per product with a bad link, numbered by its 1-based position in the list. */
  function ProductErrors(ps: seq<Option<Product>>): seq<string> {
    if ps == [] then []
    else ProductErrors(ps[..|ps| - 1]) + (if BadLink(ps[|ps| - 1]) then [ProductLinkMessage(|ps|)] else [])
  }

  /** Everything `validate_inputs` reports, in its order. */
  function Errors(b: Brief): seq<string> {
    MissingErrors(b, RequiredFields) + WebsiteErrors(b) + ProductErrors(b.products)
  }

  /** `validate_inputs(data)`. */
  method ValidateInputs(b: Brief) returns (errors: seq<string>)
    ensures errors == Errors(b)
  {
    errors := CheckRequired(b);
    if b.websiteUrl.Some? && b.websiteUrl.value != "" && !IsValidUrl(b.websiteUrl.value) {
      errors := errors + ["URL sito web non valido"];
    }
    assert errors == MissingErrors(b, RequiredFields) + WebsiteErrors(b);
    var linkErrors := CheckLinks(b.products);
    errors := errors + linkErrors;
  }

  /** The loop over `required_fields`. */
  method CheckRequired(b: Brief) returns (errors: seq<string>)
    ensures errors == MissingErrors(b, RequiredFields)
  {
    errors := [];
    var k := 0;
    while k < |RequiredFields|
      invariant 0 <= k <= |RequiredFields|
      invariant errors == MissingErrors(b, RequiredFields[..k])
    {
      var f := RequiredFields[k];
      if Blank(FieldValue(b, f).GetOr("")) {
        errors := errors + [Label(f) + " è obbligatorio"];
      }
      assert RequiredFields[..k + 1][..k] == RequiredFields[..k];
      k := k + 1;
    }
    assert RequiredFields[..k] == RequiredFields;
  }

  /** The loop over `products`, counting positions from 1. */
  method CheckLinks(products: seq<Option<Product>>) returns (errors: seq<string>)
    ensures errors == ProductErrors(products)
  {
    errors := [];
    var i := 0;
    while i < |products|
      invariant 0 <= i <= |products|
      invariant errors == ProductErrors(products[..i])
    {
      var product := products[i];
      if product.Some? && product.value.link.Some? && product.value.link.value != ""
        && !IsValidUrl(product.value.link.value)
      {
        errors := errors + ["Link prodotto " + NatToString(i + 1) + " non valido"];
      }
      assert products[..i + 1][..i] == products[..i];
      i := i + 1;
    }
    assert products[..i] == products;
  }

  /** A product error is reported for exactly the positions whose link is present and invalid. */
  lemma {:induction false} ProductErrorsArePositions(ps: seq<Option<Product>>)
    ensures |ProductErrors(ps)| == |Flagged(ps, BadLink)|
    ensures forall j :: 0 <= j < |ProductErrors(ps)| ==> ProductErrors(ps)[j] == ProductLinkMessage(Flagged(ps, BadLink)[j])
  {
    if ps != [] {
      ProductErrorsArePositions(ps[..|ps| - 1]);
    }
  }

  lemma {:induction false} MissingErrorsEmpty(b: Brief, fs: seq<Field>)
    ensures MissingErrors(b, fs) == [] <==> forall f <- fs :: !Missing(b, f)
  {
    if fs != [] {
      MissingErrorsEmpty(b, fs[..|fs| - 1]);
      assert forall f <- fs :: f in fs[..|fs| - 1] || f == fs[|fs| - 1];
    }
  }

  lemma {:induction false} ProductErrorsEmpty(ps: seq<Option<Product>>)
    ensures ProductErrors(ps) == [] <==> forall p <- ps :: !BadLink(p)
  {
    if ps != [] {
      ProductErrorsEmpty(ps[..|ps| - 1]);
      assert forall p <- ps :: p in ps[..|ps| - 1] || p == ps[|ps| - 1];
    }
  }

  /**
   * No errors exactly when every required field is filled in, the website URL is absent, empty or
   * valid, and every product link is absent, empty or valid.
   */
  lemma NoErrorsIffValid(b: Brief)
    ensures Errors(b) == [] <==>
      (forall f <- RequiredFields :: !Missing(b, f)) && !BadWebsite(b) && forall p <- b.products :: !BadLink(p)
  {
    MissingErrorsEmpty(b, RequiredFields);
    ProductErrorsEmpty(b.products);
  }

  /** A brief lacking only its description gets exactly the description's message. */
  lemma OnlyDescriptionMissing(b: Brief)
    requires Missing(b, CompanyDescription)
    requires !Missing(b, CompanyName) && !Missing(b, EmailObjective) && !Missing(b, ContentBrief)
    requires !BadWebsite(b) && forall p <- b.products :: !BadLink(p)
    ensures Errors(b) == ["Descrizione azienda è obbligatorio"]
  {
    ProductErrorsEmpty(b.products);
    var fs := RequiredFields;
    assert fs[..3][..2] == fs[..2] && fs[..2][..1] == fs[..1] && fs[..1][..0] == [];
    assert fs[..4][..3] == fs[..3];
    assert fs[..4] == fs;
    assert MissingErrors(b, fs[..1]) == [];
    assert MissingErrors(b, fs[..2]) == [MissingMessage(CompanyDescription)];
    assert MissingErrors(b, fs[..3]) == [MissingMessage(CompanyDescription)];
    assert MissingErrors(b, fs) == [MissingMessage(CompanyDescription)];
    assert WebsiteErrors(b) == [] && ProductErrors(b.products) == [];
    assert MissingMessage(CompanyDescription) == "Descrizione azienda è obbligatorio";
  }

  /** The website message appears exactly when the URL is present, non-empty and invalid. */
  lemma WebsiteErrorIffBadUrl(b: Brief)
    ensures WebsiteMessage in Errors(b) <==> BadWebsite(b)
  {
    MissingNotWebsite(b, RequiredFields);
    ProductsNotWebsite(b.products);
  }

  lemma {:induction false} MissingNotWebsite(b: Brief, fs: seq<Field>)
    ensures WebsiteMessage !in MissingErrors(b, fs)
  {
    if fs != [] {
      MissingNotWebsite(b, fs[..|fs| - 1]);
      var f := fs[|fs| - 1];
      assert MissingMessage(f)[0] != 'U';
    }
  }

  lemma {:induction false} ProductsNotWebsite(ps: seq<Option<Product>>)
    ensures WebsiteMessage !in ProductErrors(ps)
  {
    if ps != [] {
      ProductsNotWebsite(ps[..|ps| - 1]);
      assert ProductLinkMessage(|ps|)[0] == 'L';
    }
  }
}
