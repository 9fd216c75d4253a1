/**
 * The data the generator works on: the brief dictionary the form hands over, the JSON values a
 * model reply may decode to, the three-part newsletter result, and the outcome of a model call.
 */
module Briefs {
  import opened Optional

  /** A product entry: `{"name": ..., "link": ...}`; `None` means the key is missing. */
  datatype Product = Product(name: Option<string>, link: Option<string>)

  /**
   * The brief dictionary. A key whose absence the code distinguishes from an empty value is an
   * `Option` (`None`: the key is missing). Keys the code only reads through a truthiness test
   * (`data.get(k)`) hold a plain value, the empty string or list standing for "missing or empty".
   * A `None` entry of `products` is a product slot left as `None`.
   */
  datatype Brief = Brief(
    companyName: Option<string>,
    websiteUrl: Option<string>,
    companyDescription: Option<string>,
    emailType: Option<string>,
    emailObjective: Option<string>,
    contentBrief: Option<string>,
    targetAudience: Option<string>,
    marketSegments: Option<seq<string>>,
    toneOfVoice: Option<string>,
    language: Option<string>,
    products: seq<Option<Product>>,
    uspBenefit: string,
    discountCodes: seq<string>,
    forbiddenWords: seq<string>,
    requiredWords: seq<string>)

  /** Python truthiness of an optional string value: present and not empty. */
  predicate Truthy(v: Option<string>) {
    v.Some? && v.value != ""
  }

  /** `product and product.get('name')`: a product slot that holds a product with a name. */
  predicate Named(p: Option<Product>) {
    p.Some? && Truthy(p.value.name)
  }

  /** `product and product.get('link')`: a product slot that holds a product with a link. */
  predicate Linked(p: Option<Product>) {
    p.Some? && Truthy(p.value.link)
  }

  /** A decoded JSON value; numbers are kept as their literal text. */
  datatype Json =
    | JNull
    | JBool(b: bool)
    | JNumber(literal: string)
    | JString(s: string)
    | JArray(items: seq<Json>)
    | JObject(fields: map<string, Json>)

  const SubjectsKey: string := "email_subjects"
  const PreviewsKey: string := "email_previews"
  const ContentKey: string := "newsletter_content"

  /** `all(key in result for key in [...])`: the decoded object carries the three result keys. */
  predicate HasResultKeys(obj: map<string, Json>) {
    SubjectsKey in obj && PreviewsKey in obj && ContentKey in obj
  }

  /** The result dictionary the generator builds itself. */
  datatype Newsletter = Newsletter(subjects: seq<string>, previews: seq<string>, content: string)

  const MaxSubject: nat := 40
  const MaxPreview: nat := 100

  /** Exactly three subjects of at most 40 characters and three previews of at most 100. */
  predicate WellFormed(n: Newsletter) {
    |n.subjects| == 3 && (forall s <- n.subjects :: |s| <= MaxSubject)
    && |n.previews| == 3 && (forall p <- n.previews :: |p| <= MaxPreview)
  }

  /**
   * What the generator returns: the decoded JSON object itself, handed back unchanged, or a result
   * it assembled.
   */
  datatype Reply = Decoded(obj: map<string, Json>) | Built(letter: Newsletter)

  /** The result of one chat-completion call: the reply's text, or any raised error. */
  datatype Completion = Answered(text: string) | Failed
}
