# Newsletter generator: reply normaliser, template fallback and form utilities

This project models the core of an Italian e-mail newsletter generator. A form collects a brief:
company, description, e-mail type and objective, content brief, audience, market segments, tone,
language, products with optional links, a USP, discount codes, and words to avoid or include.
`NewsletterGenerator` turns the brief into a prompt and asks a chat model for three subject lines,
three previews and a markdown body. It then normalises whatever comes back. When anything fails it
falls back to a fixed template. `utilis.py` holds the form's validators and the small text helpers
around it.

The modules follow the program:

- `Briefs` holds the data model: the brief, products, decoded JSON values, the three-part
  result, the reply and the outcome of a model call.
- `Text` holds the Python string operations the code relies on: `strip`, `split`, `join`,
  `replace`, slicing and `str(int)`.
- `Url` models `is_valid_url`.
- `Validation` models `validate_inputs`.
- `Utilities` models the rest of `utilis.py`.
- `Prompt` models `_get_system_prompt` and `_build_prompt`.
- `Template` models `_generate_fallback_content`.
- `Parser` models `_parse_response`.
- `Pipeline` models `generate_newsletter` and `generate_subjects_only`.

Where the source works by accumulation, it is a `method` with a loop, proved equal to a
specification function. This covers the loops over fields, products and lines, the `+=` string
building and the `while` padding loops. The properties are then proved about that function.

The chat-completion call and `json.loads` are function parameters. A call returns
`Answered(text)` or `Failed` (any raised error). The decoder returns `Some(object)` or `None`
(a decoding error).

## Model

| member | source | states |
|---|---|---|
| Url.ValidUrlIsLanguage | utilis.py:33-40 | The left-to-right recogniser accepts a URL exactly when it splits into the pattern's parts: scheme `http://` or `https://` in any case; a host; an optional `:digits` port; a tail that is empty, `/`, or `/` or `?` followed by non-whitespace; then the end or one final newline. The host is dotted labels of 1-63 alphanumerics with inner hyphens and a 2-6 letter TLD with an optional dot, or `localhost`, or four groups of 1-3 digits. |
| Url.SchemeLengthIsLower | utilis.py:34 | The scheme is matched case-insensitively: its length is 7 exactly when the first 7 characters lower-case to `http://`, and 8 exactly when they do not and the first 8 lower-case to `https://`. |
| Url.ValidUrlHasScheme | utilis.py:34 | Every accepted URL starts with `http://` or `https://`, ignoring case. |
| Url.ValidUrlHasNoSpace | utilis.py:35-39 | An accepted URL contains no whitespace, except a single newline as its last character. |
| Url.LabelDotTldIsHost | utilis.py:35 | A valid label, a dot and a valid TLD form a host. |
| Url.ExampleDomainAccepted | utilis.py:33-40 | `https://example.com` is accepted. |
| Url.ExampleLocalhostAccepted | utilis.py:33-40 | `http://localhost:8080/path` is accepted. |
| Url.ExamplesRejected | utilis.py:33-40 | `ftp://x` and `not a url` are rejected. |
| Validation.ValidateInputs | utilis.py:4-29 | Returns the missing-field messages, then the website message, then the product-link messages, each group in its order. |
| Validation.CheckRequired | utilis.py:9-18 | The loop over the required fields yields one "… è obbligatorio" message per field that is missing or blank after strip. Fields are taken in the order company name, description, objective, content brief. |
| Validation.CheckLinks | utilis.py:25-27 | The loop over the products yields one message per product with a present, non-empty, invalid link. |
| Validation.ProductErrorsArePositions | utilis.py:25-27 | The product messages name exactly the 1-based positions whose link is present and invalid, in increasing order. `None` slots still use up a number. |
| Validation.MissingErrorsEmpty | utilis.py:16-18 | There are no missing-field messages exactly when no listed field is missing. |
| Validation.ProductErrorsEmpty | utilis.py:25-27 | There are no product messages exactly when no product has a bad link. |
| Validation.NoErrorsIffValid | utilis.py:4-29 | The error list is empty exactly when every required field is filled in, the website is absent, empty or valid, and every product link is absent, empty or valid. |
| Validation.OnlyDescriptionMissing | utilis.py:9-18 | A brief lacking only its description gets exactly `["Descrizione azienda è obbligatorio"]`. |
| Validation.WebsiteErrorIffBadUrl | utilis.py:21-22 | The website message appears exactly when the URL is present, non-empty and invalid. |
| Utilities.CollapseSpaces | utilis.py:75 | After the `\s+` substitution every whitespace character is a plain space and no two are adjacent. A leading non-space character is kept. |
| Utilities.CleanText | utilis.py:72-77 | The result has no leading or trailing whitespace and no two adjacent whitespace characters. All its whitespace is plain spaces, so it contains no newline and the `\n+` step never fires. |
| Utilities.CleanTextKeepsText | utilis.py:72-77 | Cleaning keeps every non-whitespace character, in order. |
| Utilities.CleanTextIdempotent | utilis.py:72-77 | Cleaning twice is the same as cleaning once. |
| Utilities.CountCharacters | utilis.py:79-81 | The count is at most the length, and it is zero exactly when the text is blank. |
| Utilities.TruncateText | utilis.py:83-87 | Text within the limit comes back unchanged. Longer text, with a limit of at least 3, becomes its first `limit - 3` characters plus `...`, exactly `limit` long. |
| Utilities.TruncateTextOverflows | utilis.py:83-87 | As written, `truncate_text("abcdef", 1)` is `abcd...`, longer than the limit. |
| Utilities.TruncateTextBounded | utilis.py:83-87 | The corrected truncation never exceeds the limit. It keeps short text unchanged and keeps a prefix of long text. |
| Utilities.TruncateTextAgrees | utilis.py:83-87 | For limits of at least 3, the corrected truncation equals the original. |
| Utilities.ExtractProductsInfo | utilis.py:89-102 | The loop builds the `PRODOTTI:` listing of the products' info lines, or `""` for an empty list. |
| Utilities.InfoLine | utilis.py:96-100 | One product's line: `i. name`, plus ` - link` when linked. Unnamed products get no line. |
| Utilities.ProductsInfoListsNamed | utilis.py:89-102 | The listing starts with `PRODOTTI:` and contains each named product's numbered line. The link part is present exactly when the product is linked. |
| Utilities.ProductsInfoUnnamed | utilis.py:95-100 | Products without names contribute nothing. |
| Utilities.StrippedNonBlank | utilis.py:106 | The kept segments are stripped and non-empty, and there are no more of them than the inputs. |
| Utilities.StrippedNonBlankEmpty | utilis.py:106-108 | Nothing is kept exactly when every segment is blank. |
| Utilities.StrippedNonBlankKeeps | utilis.py:106 | Every non-blank segment is kept, stripped. |
| Utilities.StrippedNonBlankSources | utilis.py:106 | Every kept item is some non-blank segment, stripped. |
| Utilities.StrippedNonBlankAppend | utilis.py:106 | The filter works segment by segment: the result for `xs + ys` is the result for `xs` followed by the result for `ys`. Order and repeats are kept. |
| Utilities.FormatMarketSegments | utilis.py:104-109 | The result is never empty. It is `Non specificato` when no segment survives the filter, and otherwise the kept segments joined with `", "`. |
| Utilities.ParseCommaSeparated | utilis.py:111-115 | Every item is non-empty, stripped and free of commas. |
| Utilities.ParseJoinRoundTrip | utilis.py:111-115 | Parsing the `", "` join of stripped, non-empty, comma-free items gives back the items in order. |
| Utilities.MarketSegmentsRoundTrip | utilis.py:104-115 | Parsing the formatted segments gives back the stripped non-blank segments, in order. |
| Utilities.ValidateCharacterLimits | utilis.py:117-132 | The two loops report the subjects over 40 and the previews over 100, with positions and lengths. |
| Utilities.TooLongArePositions | utilis.py:124-130 | The reports name exactly the 1-based positions of the over-long items, in increasing order, each with that item's length. |
| Utilities.TooLongEmpty | utilis.py:124-130 | There are no reports exactly when every item is within the limit. |
| Utilities.FallbackSubjects | utilis.py:139-143 | Three subjects of at most 40 characters. The first is `News da <company>` when that fits. |
| Utilities.FallbackPreviews | utilis.py:144-148 | Three previews of at most 100 characters. The first is `Scopri le ultime novità di <company>` when that fits. |
| Utilities.GenerateFallbackContent | utilis.py:134-172 | Three subjects within 40 and three previews within 100. The body opens with the title naming the company, defaulting to `la nostra azienda`. |
| Utilities.FallbackContentWithinLimits | utilis.py:134-148 | `validate_character_limits` reports nothing on `generate_fallback_content`'s output. |
| Utilities.ListItems | utilis.py:50-51 | The loop writes one numbered `i. s (n caratteri)` line per item. |
| Utilities.FormatOutput | utilis.py:42-70 | The output is the formatted report. Missing keys render as empty sections. |
| Utilities.FormattedOutputOrder | utilis.py:44-68 | The report is the subjects block, then the previews block, then the content block that closes it. |
| Utilities.FormattedOutputOpens | utilis.py:44-45 | The report starts with `NEWSLETTER GENERATA` and 50 `=`. |
| Utilities.FormattedOutputCloses | utilis.py:67-68 | The report ends with 50 `=` and the `Generato con …` footer. |
| Utilities.FormattedOutputListsSubject | utilis.py:48-51 | Every subject appears as its numbered line, counted from 1. |
| Utilities.FormattedOutputListsPreview | utilis.py:55-58 | Every preview appears as its numbered line, counted from 1. |
| Utilities.FormattedOutputHasContent | utilis.py:62-65 | The content follows its heading and is followed by a blank line. |
| Prompt.SystemPromptNamesResultKeys | newsletter_generator.py:142-165 | The system prompt names the three result keys the parser looks for. |
| Prompt.NonEmptyItems | newsletter_generator.py:183 | The kept segments are exactly the non-empty ones. |
| Prompt.NonEmptyItemsAppend | newsletter_generator.py:183 | The filter works item by item, so order and repeats are kept. |
| Prompt.ListProducts | newsletter_generator.py:189-195 | The product loop succeeds exactly when every slot holds a product with a name, and then yields the numbered lines. A `None` slot or a missing name raises. |
| Prompt.OptionalSections | newsletter_generator.py:198-211 | The method computes the optional part: the USP, discount, forbidden-word and required-word sections in that order, each present only when its value is truthy. |
| Prompt.ExtrasOmitFalsy | newsletter_generator.py:198-211 | Each of the four optional sections is left out on its own when its value is falsy, and the other three stay as they are. |
| Prompt.BuildPrompt | newsletter_generator.py:167-231 | The assembled prompt, or `None` when a key the prompt reads is missing or a product cannot be listed. |
| Prompt.PromptFails | newsletter_generator.py:171-195 | The prompt fails exactly when a read key is missing or some product has no name. |
| Prompt.PromptWebsiteLine | newsletter_generator.py:175 | The website line shows the URL when the key is present, even when it is empty. It shows `Non specificato` only when the key is absent. |
| Prompt.PromptSegmentsLine | newsletter_generator.py:183 | The segments line is the non-empty segments joined with `", "`. |
| Prompt.PromptListsProduct | newsletter_generator.py:189-195 | Product k is listed as `k+1. name`, with ` - Link: …` exactly when it has a link. |
| Prompt.PromptUspSection | newsletter_generator.py:198-199 | A non-empty USP gets its section. |
| Prompt.PromptDiscountSection | newsletter_generator.py:202-203 | Non-empty discount codes get their section, joined with `", "`. |
| Prompt.PromptForbiddenSection | newsletter_generator.py:206-207 | A non-empty list of words to avoid gets its section, joined with `", "`. |
| Prompt.PromptRequiredSection | newsletter_generator.py:210-211 | A non-empty list of words to include gets its section, joined with `", "`. |
| Prompt.PromptWithoutOptionalParts | newsletter_generator.py:167-231 | With no products and no optional values, the prompt is the header then the closing instructions. |
| Prompt.PromptFrame | newsletter_generator.py:171-229 | The prompt starts with the header and ends with the closing instructions. |
| Template.TemplateNewsletter | newsletter_generator.py:81-140 | The template has three subjects within 40, three previews within 100 and a non-empty body. |
| Template.WriteProducts | newsletter_generator.py:102-107 | The product loop writes the named products' sections, in order. |
| Template.FallbackContent | newsletter_generator.py:81-140 | The method builds exactly the template result. |
| Template.TemplateOpensWithTitle | newsletter_generator.py:83-87 | The body starts with `# Newsletter <company>`. The company defaults to `la nostra azienda`. |
| Template.TemplateClosesWithCompany | newsletter_generator.py:117-126 | The body thanks the company and ends with `Il team di <company>`. |
| Template.TemplateListsProduct | newsletter_generator.py:100-107 | Every named product gets a `### name` heading. A linked one also gets `**[SCOPRI NAME]**` with the name upper-cased. |
| Template.UnnamedProductsAddNothing | newsletter_generator.py:103 | `None` and unnamed products add no section. |
| Template.TemplateUspSection | newsletter_generator.py:110-111 | A non-empty USP gets its `Perché scegliere <company>` section. |
| Template.TemplateOmitsFalsy | newsletter_generator.py:109-115 | A falsy USP leaves its section out, and so do empty discount codes. The rest of the body is unchanged. |
| Template.TemplateOffersFirstCode | newsletter_generator.py:114-115 | Only the first discount code is offered: the section depends on nothing else. |
| Parser.CleanLine | newsletter_generator.py:265-266 | A cleaned line has no quotes and no `-`, and is no longer than the line. |
| Parser.StepBounded | newsletter_generator.py:253-275 | One loop turn keeps every bucket within its bounds. At most 3 subjects and 3 previews are kept, each non-empty, within its limit and free of quotes and `-`. Content lines stay non-empty. |
| Parser.ScanIsCandidates | newsletter_generator.py:253-275 | After any lines, the scanner holds the reference reading. The section is that of the last header. Subjects are the first 3 fitting cleaned lines read under a subject header, in order; previews likewise. The content lines are all stripped non-blank lines under a content header. |
| Parser.NoHeaderKeepsNothing | newsletter_generator.py:256-262 | Lines read before any header are dropped. |
| Parser.Pad | newsletter_generator.py:279-283 | Padding keeps the items and fills up to three with the filler. |
| Parser.ScanResult | newsletter_generator.py:244-291 | The line-scan result has exactly three subjects within 40 and three previews within 100. |
| Parser.ScanResultItems | newsletter_generator.py:253-289 | The result's subjects are the first three fitting subject candidates, then `Newsletter <company>` cut to 40. Previews are likewise, with `Scopri le novità di <company>` cut to 100. |
| Parser.ScanBodyEmptyIff | newsletter_generator.py:285 | The body is empty exactly when the reply is empty. The body is the content lines joined, else the raw reply. |
| Parser.HeaderlessReply | newsletter_generator.py:253-285 | A reply without headers gives three subject fillers, three preview fillers and the raw reply as the body. |
| Parser.EmptyReplyKeepsNothing | newsletter_generator.py:244-275 | An empty reply leaves the scanner at its start. |
| Parser.ParsedReply | newsletter_generator.py:233-296 | The result is always usable. A decoded object is returned only on the JSON path, as decoded. A reply that does not start with `{` after strip is always line-scanned. |
| Parser.JsonFastPath | newsletter_generator.py:237-241 | On the JSON path, an object holding the three keys is returned unchanged, without count or length checks. A reply that does not decode gives the template. |
| Parser.PartialJsonIsScanned | newsletter_generator.py:240-244 | A decoded object missing a key falls through to the line scan. |
| Parser.ParseResponse | newsletter_generator.py:233-296 | The method computes exactly the parsed reply. |
| Parser.PadItems | newsletter_generator.py:279-283 | The `while` padding loop computes the padding. |
| Parser.ScanAll | newsletter_generator.py:253-275 | The scanning loop computes the scanner's state. |
| Parser.ScanReply | newsletter_generator.py:244-291 | The line scan, padding and body choice compute the scan result. |
| Pipeline.Generated | newsletter_generator.py:26-79 | Whatever the brief, the model and the decoder, `generate_newsletter`'s result is usable. |
| Pipeline.TemplateReply | newsletter_generator.py:71-79 | The template, handed back, is usable. |
| Pipeline.AnswerReply | newsletter_generator.py:68-79 | The result is usable. A failed call gives the template. A plain-text answer gives its line scan. |
| Pipeline.GenerateNewsletter | newsletter_generator.py:26-79 | The method computes the chained result. |
| Pipeline.HandleAnswer | newsletter_generator.py:68-79 | The method computes the answer's reply. A failed call gives the template. |
| Pipeline.IncompleteBriefGetsTemplate | newsletter_generator.py:28-30 | A brief the prompt cannot be built from gets the template, whatever the model would answer. |
| Pipeline.FailedCallGetsTemplate | newsletter_generator.py:33-79 | When the prompt is built but the call raises, the result is the template. |
| Pipeline.TextAnswerIsScanned | newsletter_generator.py:33-69 | A plain-text answer is scanned, never replaced by the template. |
| Pipeline.SubjectsPromptNamesCompany | newsletter_generator.py:301-311 | The subjects prompt names the company on its own line. |
| Pipeline.NewsFiller | newsletter_generator.py:337 | The filler is non-empty and at most 40 characters. |
| Pipeline.CannedSubjects | newsletter_generator.py:341-347 | The canned list is three non-empty subjects within 40, starting with the filler. |
| Pipeline.ReplySubjects | newsletter_generator.py:330 | The kept lines are non-empty. |
| Pipeline.ReplySubjectsAreLines | newsletter_generator.py:330 | Every non-blank line of the stripped reply is kept, stripped, and every kept line is one of them. |
| Pipeline.Short | newsletter_generator.py:333 | Every line within the limit is kept, and only those. |
| Pipeline.ShortAppend | newsletter_generator.py:333 | The filter works line by line, so order and repeats are kept. |
| Pipeline.ShortKeepsOrder | newsletter_generator.py:333 | When every line is within the limit, all are kept in order. |
| Pipeline.PickedSubjects | newsletter_generator.py:330-339 | The post-processing yields three non-empty subjects within 40. |
| Pipeline.PickedSubjectsInOrder | newsletter_generator.py:330-339 | The picked subjects are the short lines in order, then the filler. |
| Pipeline.ThreeShortLinesKept | newsletter_generator.py:330-339 | Three short lines come back unchanged. |
| Pipeline.SubjectsFrom | newsletter_generator.py:313-347 | A failed call gives exactly the canned three for the company. An answer gives its picked subjects. Either way the result is three non-empty subjects of at most 40 characters. |
| Pipeline.SubjectsOnly | newsletter_generator.py:298-347 | The result is absent exactly when the company key is missing (the `KeyError` escapes). When the request cannot be built, the result is the canned three. Otherwise it is the answer's subjects. Either way it is three non-empty subjects of at most 40 characters. |
| Pipeline.PostProcessSubjects | newsletter_generator.py:330-339 | The method computes the picked subjects. |
| Pipeline.GenerateSubjectsOnly | newsletter_generator.py:298-347 | The method computes `generate_subjects_only`'s result. |

## Left out

- The OpenAI client is not modelled: its set-up, the `pip install` fallback for an old library, the network calls, the model names, `temperature` and `max_tokens`. A call is a function parameter that answers with text or fails.
- A reply whose message content is `None` makes `.strip()` raise. It is treated as a failed call, which also ends in the template.
- `json.loads` is a parameter, not a JSON parser. A reply that looks like JSON decodes to an object or fails; decoding a `{…}` text to anything but an object is not modelled.
- `_generate_with_fallback_model` is not defined by the class. Calling it raises, so the second tier always ends in the template, and the model treats it that way.
- `print` logging is left out; it does not affect any result.
- `app.py` (the Streamlit form) is not part of this model.
- `markdown_to_mailchimp_format` is not part of this model. Its meaning rests on multi-line anchors, non-greedy matching and a lookahead of Python's regular expressions.
- Letters are folded with ASCII rules only, in lower-casing, upper-casing and the case-insensitive URL pattern. Unicode folds such as `ſ` or the Kelvin sign matching `[A-Z]` are not modelled, and neither are non-ASCII digits matching `\d`. Whitespace is the `str.isspace` set.
- A brief key present with the value `None` is not modelled. A key is either absent or holds a string or list. Likewise, non-string product names or links are not modelled.
- Template.TemplateListsProduct: proves that the `**[SCOPRI …]**` call-out is present for a linked product. It does not prove the call-out absent for an unlinked one, because a product name or another field may itself contain that text.
- The line-scan body is not always non-empty: it is empty exactly when the reply is empty (Parser.ScanBodyEmptyIff), so no non-empty body is claimed for that path.

## Findings

| source | as written | input that shows it | evidently intended | confidence | as-written member | corrected member |
|---|---|---|---|---|---|---|
| utilis.py:83-87 | `text[:max_length-3] + "..."` with a limit below 3 slices from the end, and the result exceeds the limit | `truncate_text("abcdef", 1)` gives `abcd...`, 7 characters for a limit of 1 | the result is never longer than `max_length` | not executed | Utilities.TruncateTextOverflows | Utilities.TruncateTextBounded |
