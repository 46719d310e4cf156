# Lead intake and gallery of a campaign-merchandise site, in Dafny

This project models the behaviour behind the site's landing page:

- **Lead validation.** The lead form and the contact endpoint each carry a copy of the
  same zod schema. The schema is written here as data (`Zod.FieldRule`), run by a small
  interpreter of the zod checks it uses (`Zod.CheckField`, `Zod.CheckObject`,
  `Zod.Parse`), and proved equal to a plain statement of the lead rules
  (`Lead.SatisfiesLeadRules`).
- **The contact endpoint.** `ContactRoute.Post` maps a request body to the 200, 400 or
  500 envelope.
- **The form's submission status.** The class `ContactFormComponent.ContactForm` holds the
  form values, `isSubmitting`, `submitStatus` and `submitMessage`. `Submit` is the click
  that passes client validation and starts the request. `Settle` is the request
  finishing: ok, not ok, or thrown.
- **The string helpers.** `Utils` holds `validateEmail`, `validatePhone` and
  `formatPhoneNumber`. Each regular expression is written as the set of strings it
  matches in full.
- **The gallery lightbox.** The class `GalleryComponent.Gallery` holds `selectedImage`
  and the handlers that open, close and step through the eight images.

Modules, one per file:

- `Wrappers`: `Option` and `Result`.
- `Zod`: JSON values, issues, and the checks.
- `Lead`: the lead record and its rules.
- `ContactRoute`: the endpoint.
- `ContactFormComponent`: the form.
- `Utils`: the string helpers.
- `GalleryComponent`: the gallery.

## Model

| member | source | states |
|---|---|---|
| Zod.Utf16Length | src/app/api/contact/route.ts:6-15 | the length zod's `min` compares is between the number of characters and twice that number |
| Zod.ElementIssues | src/app/api/contact/route.ts:12 | an array's element check reports nothing exactly when every element is a string; each issue is a type issue at that field |
| Zod.CheckField | src/app/api/contact/route.ts:6-17 | one field reports no issue exactly when its rule is satisfied; every issue it reports sits under that field's key |
| Zod.CheckFields | src/app/api/contact/route.ts:5-18 | the fields of an object schema report no issue exactly when every field rule holds |
| Zod.CheckObject | src/app/api/contact/route.ts:26 | the issues of `parse`: none exactly when the body is an object satisfying every field rule; a non-object gets one type issue at the root |
| Zod.Strip | src/app/api/contact/route.ts:26 | the parsed object holds only keys of the schema that were present, each schema key with its submitted value |
| Zod.FieldIssuesReported | src/app/api/contact/route.ts:137-146 | every issue of every field appears in the full list, so validation does not stop at the first failure |
| Zod.IssuesAreAboutShapeFields | src/app/api/contact/route.ts:5-18 | every reported issue is about one of the schema's fields |
| Zod.SameValuesSameIssues | src/app/api/contact/route.ts:5-18 | inputs that agree on the schema's keys get the same issues; other keys do not matter |
| Zod.StripKeepsIssues | src/app/api/contact/route.ts:26 | dropping the keys outside the schema does not change the issues |
| Zod.Parse | src/app/api/contact/route.ts:26 | `parse` fails exactly when there are issues and then carries them all; on success it returns the input restricted to the schema's keys, which itself passes |
| Zod.SameChecksSameIssueShape | src/components/ContactForm.tsx:12-27 | two schemas with the same keys and checks in the same order report issues at the same paths with the same codes, whatever their messages |
| Lead.SatisfiesLeadRules | src/app/api/contact/route.ts:5-18 | the lead rules field by field; a payload meeting them carries every required key |
| Lead.ParseOfficeLevel | src/app/api/contact/route.ts:8 | each of the three office-level names maps to its own level |
| Lead.Strings | src/app/api/contact/route.ts:126 | the products list read off the payload keeps its length and order |
| Lead.ToLead | src/app/api/contact/route.ts:26 | a lead read off a valid payload has consent, an accepted e-mail and at least one product; full name, committee and state have length two or more; quantities, timeline and paid-for-by line have length one or more |
| ContactRoute.ServerSchemaIff | src/app/api/contact/route.ts:5-18 | the server schema accepts exactly the payloads that satisfy the lead rules |
| ContactRoute.RuleBroken | src/app/api/contact/route.ts:5-18 | a payload that breaks the lead rules breaks one of the twelve field rules |
| ContactRoute.SummaryOf | src/app/api/contact/route.ts:122-128 | the summary gives the committee as campaign, the full name as contact, and the e-mail, products and timeline of the lead |
| ContactRoute.Post | src/app/api/contact/route.ts:20-157 | 200 exactly for a parsed body that satisfies the rules, 400 exactly for one that does not, 500 exactly for an unparseable body; `success` and `summary` exactly on 200, `errors` exactly on 400 with all the schema's issues, never empty; each status has its message |
| ContactRoute.PostEchoesSubmission | src/app/api/contact/route.ts:117-131 | the summary of a valid payload gives committee as campaign, full name as contact, and e-mail, products (same order) and timeline as submitted |
| ContactRoute.ConsentRefusedIsReported | src/app/api/contact/route.ts:17 | `consent: false` yields a 400 that holds the consent issue with its message |
| ContactRoute.EveryViolationReported | src/app/api/contact/route.ts:137-146 | every broken field rule yields a 400 holding an issue at that field |
| ContactRoute.MissingFieldReported | src/app/api/contact/route.ts:5-18 | a missing required field yields a 400 with a type issue at exactly that field |
| ContactRoute.NonObjectBodyRejected | src/app/api/contact/route.ts:23-26 | JSON that is not an object yields a 400 with one type issue at the root, not a 500 |
| ContactRoute.OptionalFieldsFree | src/app/api/contact/route.ts:11-16 | removing `phone` and `notes`, or setting them to any strings, keeps a valid payload valid |
| ContactRoute.AnyStateAccepted | src/app/api/contact/route.ts:9 | any `state` of length two or more is accepted, not only postal codes |
| ContactRoute.AnyProductsAccepted | src/app/api/contact/route.ts:12 | any non-empty list of product strings is accepted, not only the offered product types |
| ContactFormComponent.OutcomeOf | src/components/ContactForm.tsx:93 | the browser reports a response, ok exactly for a 2xx status |
| ContactFormComponent.ResponseOkIffValid | src/components/ContactForm.tsx:93-107 | the endpoint's answer is ok exactly for a parsed body satisfying the lead rules; a rejected body and a server failure both reach the error branch |
| ContactFormComponent.DefaultValues | src/components/ContactForm.tsx:54-56 | the defaults hold only `products`: the preselected intent when it is a non-empty string, the empty list otherwise |
| ContactFormComponent.SchemasDifferOnlyInOfficeLevelMessage | src/components/ContactForm.tsx:12-27 | the client schema has the server's keys and checks in the same order; only `officeLevel`'s message differs |
| ContactFormComponent.ClientAgreesWithServer | src/components/ContactForm.tsx:12-27 | on every input, client and server report issues at the same paths with the same codes; the client passes exactly the payloads satisfying the lead rules |
| ContactFormComponent.ServerAcceptsWhatClientSends | src/components/ContactForm.tsx:76-93 | data that passed client validation, sent as parsed, gets an ok response from the endpoint |
| ContactFormComponent.ResetFormIsIncomplete | src/components/ContactForm.tsx:54-56 | the default values, to which the form resets, never pass validation |
| ContactFormComponent.DefaultProductsRule | src/components/ContactForm.tsx:55 | the default products satisfy the products rule exactly when a non-empty intent was preselected |
| ContactFormComponent.ContactForm.constructor | src/components/ContactForm.tsx:42-57 | a new form is idle, not submitting, with an empty message and the default values |
| ContactFormComponent.ContactForm.SubmitDisabled | src/components/ContactForm.tsx:383 | the submit button is disabled exactly while a request is in flight |
| ContactFormComponent.ContactForm.SetValue | src/components/ContactForm.tsx:46-57 | editing one field changes that value only; status and message are untouched |
| ContactFormComponent.ContactForm.Submit | src/components/ContactForm.tsx:76-91 | a request goes out exactly when the button is enabled, the browser accepts the `type="email"` input, and client validation passes; it carries the stripped values and the form is then submitting (button disabled); nothing else changes |
| ContactFormComponent.ContactForm.Settle | src/components/ContactForm.tsx:93-110 | an ok response shows the thank-you message and resets the values; not ok or a thrown error shows the retry message and keeps them; the form is never left submitting; status and message stay consistent |
| Utils.ValidEmailIsWellFormed | src/lib/utils.ts:36-39 | an address the pattern accepts has no white space, exactly one `@`, and a dot strictly inside the domain |
| Utils.WellFormedIsValidEmail | src/lib/utils.ts:36-39 | a string with no white space, exactly one `@` after a non-empty local part, and a dot strictly inside the domain is accepted |
| Utils.EmailPatternIff | src/lib/utils.ts:37 | the pattern matches exactly such well-formed addresses |
| Utils.ValidateEmail | src/lib/utils.ts:36-39 | `validateEmail` accepts exactly the strings with no white space, exactly one `@` after a non-empty local part, and a dot strictly inside the domain |
| Utils.StripSeparators | src/lib/utils.ts:43 | removing separators leaves no white space, `-`, `(` or `)` and never lengthens the string; a single character is dropped exactly when it is a separator |
| Utils.StripSeparatorsConcat | src/lib/utils.ts:43 | removing separators distributes over concatenation, so with the single-character case it keeps every other character in order |
| Utils.StripSeparatorsKeepsClean | src/lib/utils.ts:43 | a string without separators is left unchanged |
| Utils.ValidatePhone | src/lib/utils.ts:41-44 | an accepted phone number has 1 to 16 digits, the first not zero |
| Utils.ValidatePhoneIgnoresSeparators | src/lib/utils.ts:41-44 | stripping separators first does not change the verdict |
| Utils.DigitRunsAreValidPhones | src/lib/utils.ts:41-44 | every run of 1 to 16 digits without a leading zero is accepted, with or without one leading `+` |
| Utils.ValidPhoneDigits | src/lib/utils.ts:41-44 | an accepted phone number has 1 to 16 digits, the first not zero |
| Utils.DigitsOnly | src/lib/utils.ts:60 | the cleaned string holds only digits and is no longer than the input; a single character is kept exactly when it is a digit |
| Utils.DigitsOnlyConcat | src/lib/utils.ts:60 | cleaning distributes over concatenation, so with the single-character case it keeps the input's digits in order |
| Utils.DigitsOnlyKeepsDigits | src/lib/utils.ts:60 | cleaning a string of digits leaves it unchanged |
| Utils.DigitsOnlyAfterStrip | src/lib/utils.ts:43-60 | stripping phone separators keeps exactly the digits |
| Utils.LayoutKeepsDigits | src/lib/utils.ts:63 | the `(ddd) ddd-dddd` layout of three digit groups holds exactly those digits in order |
| Utils.FormatPhoneNumber | src/lib/utils.ts:59-66 | with exactly ten digits the result has 14 characters, the same digits in the same order, and `(`, `)`, space and `-` at positions 0, 4, 5 and 9; otherwise the input is returned unchanged |
| Utils.FormatPhoneNumberIdempotent | src/lib/utils.ts:59-66 | formatting a formatted number changes nothing |
| GalleryComponent.Step | src/components/Gallery.tsx:80-88 | next is adding one modulo the number of images, previous is subtracting one, so the last image wraps to the first and the first to the last |
| GalleryComponent.StepInverse | src/components/Gallery.tsx:83-87 | next after previous, and previous after next, return to the same image |
| GalleryComponent.StepsModular | src/components/Gallery.tsx:83-87 | `k` presses of next add `k` modulo the number of images; `k` presses of previous subtract `k` |
| GalleryComponent.FullCycle | src/components/Gallery.tsx:86 | pressing the same arrow once per image returns to the starting image |
| GalleryComponent.Gallery.constructor | src/components/Gallery.tsx:8 | the lightbox starts closed |
| GalleryComponent.Gallery.OpenModal | src/components/Gallery.tsx:70-73 | opening shows the chosen image |
| GalleryComponent.Gallery.CloseModal | src/components/Gallery.tsx:75-78 | closing clears the selection |
| GalleryComponent.Gallery.NavigateImage | src/components/Gallery.tsx:80-88 | nothing happens while closed; otherwise one wrapping step; the selection stays one of the eight images |
| GalleryComponent.Gallery.HandleKeyDown | src/components/Gallery.tsx:90-94 | Escape closes, ArrowLeft steps back, ArrowRight steps forward, any other key changes nothing |
| GalleryComponent.Gallery.HandleTileKeyDown | src/components/Gallery.tsx:126-130 | Enter or Space on a tile opens its image; other keys change nothing |
| GalleryComponent.Gallery.Counter | src/components/Gallery.tsx:241 | the shown position is between 1 and 8 and is the selected index plus one |

## Left out

- zod's e-mail syntax check is not visible. It is the parameter `isEmail` and is not equated with `validateEmail`.
- zod's built-in message texts are `BuiltIn` rather than strings. Issue codes are named by meaning, not by zod's identifiers.
- An issue keeps only its path, code and message. zod's other issue attributes are not modelled: `expected` and `received` on type issues, `minimum`, `inclusive` and `type` on length issues, `options` on the enum issue, and `validation` on the e-mail issue.
- The browser's e-mail grammar for the `type="email"` input is not visible. It is the parameter `browserAcceptsEmail` of `Submit`, and it is not equated with either e-mail check.
- `request.json()` and `JSON.stringify` are not modelled. A body is `Unparseable` or an already decoded JSON value, and numbers are mathematical reals.
- The `fetch` call is not modelled. Its outcome is the input of `Settle`: a response with its `ok` flag, or a thrown error.
- The regular expressions are read over characters, while JavaScript reads them over UTF-16 code units. Every class they use matches either both or neither half of a surrogate pair, so the verdicts agree.
- `trackEvent`, `handleFormStart`, the `console` logging and the timestamp are left out, because they are analytics and logging side effects.
- The commented-out Resend, Airtable and Slack relays, and the e-mail templates, are left out because they are not live code.
- `cn` and `scrollToElement` are left out: one is class-name merging, the other DOM scrolling.
- The rendering is left out: field error display, revalidation, the option lists, and `document.body.style.overflow` in the gallery.
- ContactFormComponent.ContactForm.Submit: the time between the click and `onSubmit` is not modelled. Validation and `setIsSubmitting(true)` happen in one step.
- GalleryComponent.Gallery.HandleKeyDown: React's batched state updates are not modelled. The three key names are distinct, so at most one branch acts on any key.
