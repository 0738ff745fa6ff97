# Portfolio site: chat endpoint, contact endpoints, chat widget and contact form

This project models the server and client logic of a personal portfolio site
(a Next.js application) and proves properties of it. Five parts are covered:

- **`POST /api/chat`** (`chat_route.dfy`, module `ChatRoute`). The reply is
  chosen by a fixed ladder:
  - whole-word keyword intents (pricing, then availability, then timeline);
  - without an API key, a first-match table of substring "buckets" whose
    answer may be followed by a randomly chosen suggestion;
  - with a key, the completion provider's text;
  - a 200 `error_fallback` reply for every exception.

  The reply is a function of:
  - the parsed body;
  - the key;
  - the two `Math.random()` draws;
  - the provider's outcome.
- **`POST /api/contact`, `route.tsx` variant** (`contact_mailto.dfy`, module
  `ContactMailto`). Fields are cut to 5000 characters, presence is checked,
  and the address is checked against `^[^\s@]+@[^\s@]+\.[^\s@]+$`. The
  provider key and the provider's outcome decide the reply. Every refusal
  that is not a 400 carries a `mailto:` link holding the message.
- **`POST /api/contact`, `route.ts` variant** (`contact_fallback.dfy`, module
  `ContactFallback`). Fields are trimmed and the subject has a default. When
  the recipient or the key is not configured, the reply is a 503 whose
  `fallback.mailto` is a link to the public contact address, or `null` when
  `NEXT_PUBLIC_CONTACT_EMAIL` is unset or empty.
- **The chat widget** (`chatbot.dfy`, module `Chatbot`). It is a class whose
  message list only grows. It has a six-way keyword classifier, and each
  reply is scheduled when a message is sent and delivered later.
- **The contact form of the page** (`page.dfy`, module `Portfolio`). It is a
  class whose status goes from idle to sending, then to success, fallback or
  error. The module also has lemmas that connect the page to the JSON replies
  of both contact routes.

Shared JavaScript semantics are in their own modules:
- `Text` holds ASCII `toLowerCase`, `trim` over the ECMAScript whitespace set,
  `includes`, `\b`-delimited words, first-match tables, `join` and `split`,
  and JavaScript truthiness of an optional string.
- `Uri` holds `encodeURIComponent` as UTF-8 percent-encoding with its
  decoder, the query-parameter readers, and `mailto:` links.
- `Wrappers` holds `Option`.

Environment variables, provider outcomes, random draws and scroll positions
are all parameters.

A question that names a topic does not always get that topic's answer. The
bucket tests are unanchored substring tests, and the greeting bucket is tried
first with the key `"hi"`. So, when no API key is set, "tell me about his
skills" gets the greeting, because `"his"` contains `"hi"`;
`ChatRoute.HisSkillsIsGreeting` proves this. The keyword ladder, in contrast,
matches whole words only: "costume" contains the bucket key `"cost"` but not
the whole word "cost", so the pricing keyword does not fire on it
(`ChatRoute.CostumeIsNotPricing`).

## Model

| member | source | states |
|---|---|---|
| Text.LowerStr | app/api/chat/route.ts:8 | lower-casing keeps the length, turns each upper-case ASCII letter into its lower-case letter (code point plus 32), leaves no upper-case ASCII letter, changes nothing that is not an upper-case letter and keeps every character's `\w` status |
| Text.Trim | app/api/contact/route.ts:26-29 | the result has no whitespace at either end, and is empty exactly when the input is all whitespace |
| Text.TrimCutsEnds | app/api/contact/route.ts:26-29 | the result is a substring of the input with only whitespace before and after it, so trimming removes a whitespace prefix and suffix and nothing else |
| Text.TrimUnchanged | app/api/contact/route.ts:28 | trimming text with no whitespace at its ends gives the text back |
| Text.FirstRuleFinds | app/api/chat/route.ts:77-201 | a first-match scan finds a row exactly when some row from the start index matches, and the row it finds matches |
| Text.FirstRuleIs | app/api/chat/route.ts:77-201 | the scan picks row i exactly when row i matches and no earlier row does |
| Text.SplitJoin | app/api/contact/route.ts:58-65 | splitting lines joined by a separator that none of them contains gives the lines back |
| Uri.Encode | app/api/contact/route.tsx:20-21 | encoded text consists only of unreserved characters and `%`; `Uri.DecodeEncode` states what the escapes mean |
| Uri.Utf8RoundTrip | app/api/contact/route.tsx:20-21 | decoding the UTF-8 bytes of a character gives the character back |
| Uri.DecodeEncode | app/api/contact/route.tsx:20-21 | decoding an encoded string gives the string back |
| Uri.DecodeEncodeChar | app/api/contact/route.tsx:20-21 | decoding the encoding of one character followed by decodable text gives that character followed by the decoded text |
| Uri.EncodeUnreservedIdentity | app/api/contact/route.tsx:20-21 | text made only of unreserved characters is encoded as itself |
| Uri.ParameterRoundTrip | app/api/contact/route.tsx:22 | the text after the last `&body=` marker of a link ending with an encoded body is that body, and it decodes to the original |
| Uri.LeadingParameterRoundTrip | app/api/contact/route.tsx:22 | the text before the first `&` of an encoded subject followed by `&…` decodes to the original subject |
| Uri.Mailto | app/api/contact/route.tsx:22 | a link starts with `mailto:`, the recipient and `?subject=` |
| Uri.MailtoRoundTrip | app/api/contact/route.tsx:19-23 | a reader of the link recovers both the subject and the body exactly |
| ChatRoute.KeywordAnswer | app/api/chat/route.ts:21-64 | a keyword answer exists exactly when a whole-word pricing, availability or timeline term occurs; pricing wins over availability, which wins over timeline; each intent's sub-choice (website, hourly, general; simple, complex, general) |
| ChatRoute.BucketOfIsTable | app/api/chat/route.ts:77-201 | the if / else-if chain selects the topic of the first row of the bucket table that matches |
| ChatRoute.MatchBucket | app/api/chat/route.ts:74-201 | the chain sets `foundMatch` exactly when some bucket matches and sets the answer of that bucket (with its sub-choice) |
| ChatRoute.FollowUpIndex | app/api/chat/route.ts:217 | the suggestion index is the floor of four times the draw |
| ChatRoute.FallbackAnswer | app/api/chat/route.ts:203-220 | the generic answer with no suggestion when no bucket matches; otherwise the bucket's answer, with a suggestion exactly when the draw exceeds 0.3 and the message holds neither "hello" nor "hi" |
| ChatRoute.FallbackReply | app/api/chat/route.ts:74-220 | the route's imperative no-key block computes the answer `FallbackAnswer` specifies |
| ChatRoute.Resolve | app/api/chat/route.ts:1-311 | every reply has status 200; an error reply is always the fixed `error_fallback` reply; an unreadable body always gives it |
| ChatRoute.KeywordFirst | app/api/chat/route.ts:10-19 | a keyword reply ignores the key, the draws and the provider, and carries type "keyword", the intent, the conversation length and `hasContext` |
| ChatRoute.PricingFirst | app/api/chat/route.ts:22-39 | a whole-word pricing term gives the pricing intent whatever else the message holds |
| ChatRoute.NoKeyFallback | app/api/chat/route.ts:222-229 | without a key and a keyword, the metadata is type "fallback", and the message is the generic one exactly when no bucket matches |
| ChatRoute.SuggestionRule | app/api/chat/route.ts:208-220 | a matched bucket's text is its answer followed by a space and one of the four suggestions when the rule fires, and the answer alone otherwise |
| ChatRoute.HiIsGreeting | app/api/chat/route.ts:77-80 | any message containing "hi" takes the greeting bucket and never gets a suggestion |
| ChatRoute.HisSkillsIsGreeting | app/api/chat/route.ts:77-84 | "tell me about his skills" contains a skills key yet gets the greeting |
| ChatRoute.CostumeIsNotPricing | app/api/chat/route.ts:22 | "costume" contains the bucket key "cost" but not the whole-word pricing term |
| ChatRoute.ProviderAnswer | app/api/chat/route.ts:283-296 | a completed request passes its text through, with the apology for empty content, under "openai" metadata with the token count |
| ChatRoute.FailuresAreErrorFallback | app/api/chat/route.ts:297-309 | an unreadable body, a non-array context past the keyword ladder and a failed completion all give the 200 `error_fallback` reply |
| ContactMailto.Recipient | app/api/contact/route.tsx:2 | the configured recipient trimmed, or the fixed address when it is unset or blank; never empty and never with edge whitespace |
| ContactMailto.IsEmailShape | app/api/contact/route.tsx:11-13 | the pattern accepts exactly whitespace-free text with one `@`, a non-empty local part and a domain with a `.` that has text on both sides |
| ContactMailto.Sanitize | app/api/contact/route.tsx:15-17 | the result is a prefix of at most 5000 characters; short text is kept whole and long text is cut to exactly 5000 |
| ContactMailto.Read | app/api/contact/route.tsx:60-64 | an absent field reads as the empty string; a present one reads as its first 5000 characters, or the whole of it when it is shorter |
| ContactMailto.BuildMailto | app/api/contact/route.tsx:19-23 | the link is addressed to the recipient and carries the subject line and the body |
| ContactMailto.Decide | app/api/contact/route.tsx:66-153 | the tests run in order: missing fields and an invalid address are the 400 refusals without a link; past them, success exactly when the key is set and the provider accepts; every other refusal is a 502 or 503 carrying the link |
| ContactMailto.Post | app/api/contact/route.tsx:58-154 | sent exactly when all fields are present, the address is valid, the key is set and the provider accepts; a 400 has no link; every other refusal is a 502 or a 503 whose link is built from the submission |
| ContactMailto.MissingFieldsFirst | app/api/contact/route.tsx:66-75 | a missing or empty field is answered with "missing_fields" and status 400, whatever the rest |
| ContactMailto.InvalidEmailSecond | app/api/contact/route.tsx:76-85 | with all fields present, an address without the shape is answered with "invalid_email" and status 400, whatever the key and the provider |
| ContactMailto.NotConfiguredOffersLink | app/api/contact/route.tsx:143-153 | without a key a valid submission gets 503 "not_configured" and the link |
| ContactMailto.ProviderOutcomes | app/api/contact/route.tsx:104-140 | with a key, acceptance gives 200, a reported error gives 502 "provider_error" and a throw gives 502 "provider_failure", both with the same link |
| ContactMailto.RefusalLinkCarriesMessage | app/api/contact/route.tsx:19-23 | the link of any refusal decodes back to the subject line and to the body with the name, address and message |
| ContactFallback.Read | app/api/contact/route.ts:26-29 | name, email and message are trimmed (absent as empty); an absent or empty subject is the default, any other is trimmed |
| ContactFallback.BlankSubjectIsEmpty | app/api/contact/route.ts:28 | a subject of only whitespace is kept, and trimmed to the empty string rather than replaced |
| ContactFallback.FallbackLink | app/api/contact/route.ts:46-48 | the link is addressed to the public contact address |
| ContactFallback.FallbackLinkRoundTrip | app/api/contact/route.ts:48 | the link decodes back to the trimmed subject and to the sender line with the message |
| ContactFallback.HeaderIsOneLine | app/api/contact/route.ts:59 | the header line holds no line feed |
| ContactFallback.ProviderLines | app/api/contact/route.ts:58-65 | the plain-text message has six lines: the second and fifth are empty and the last is the message |
| ContactFallback.ProviderTextLayout | app/api/contact/route.ts:58-65 | the joined message is the header, a blank line, the sender line, the subject line, a blank line and the message |
| ContactFallback.ProviderTextLines | app/api/contact/route.ts:58-65 | when no field holds a line feed, splitting the message at line feeds gives back the six lines |
| ContactFallback.Reply.Error | app/api/contact/route.ts:33-83 | every reply but success carries an `error` text, and every such text is non-empty, so the page treats it as set |
| ContactFallback.Post | app/api/contact/route.ts:22-85 | sent exactly when the body parses, is complete, both variables are set, the provider loaded and accepted; 400 exactly when fields are missing; a 503 carries a link exactly when the public address is set, built from the submission; every reply but success has an error text |
| ContactFallback.FieldsBeforeConfiguration | app/api/contact/route.ts:31-34 | a blank name, email or message is exactly what makes the reply the 400 one, whatever the configuration and the provider |
| ContactFallback.AnyAddressPasses | app/api/contact/route.ts:32-34 | an address the other variant's pattern rejects still gets past validation |
| ContactFallback.NotConfiguredFallback | app/api/contact/route.ts:39-54 | without recipient or key a complete submission gets 503, with the link exactly when the public address is set |
| ContactFallback.ServerErrors | app/api/contact/route.ts:75-84 | a body that does not parse, a provider that did not load, threw or reported an error gives 500, and every case but the reported error gives "Unexpected server error." |
| Chatbot.IncludesOneOf | components/chatbot.tsx:62 | the three-way `includes` test holds exactly when some word of the row occurs |
| Chatbot.Respond | components/chatbot.tsx:58-72 | the timer's if-chain picks the topic of the first row whose words occur in the lower-cased input, else the default |
| Chatbot.ClassifyOrder | components/chatbot.tsx:62-72 | a topic is chosen exactly when one of its words occurs and no earlier row's word does |
| Chatbot.WorkIsProjects | components/chatbot.tsx:64-66 | "work" without a skills word gives projects, never experience |
| Chatbot.NoWordIsDefault | components/chatbot.tsx:59 | input with no topic word gets the default answer |
| Chatbot.ChatWidget.constructor | components/chatbot.tsx:20-28 | the list starts as the greeting alone with id 1; the input is empty; ids are sequential |
| Chatbot.ChatWidget.Edit | components/chatbot.tsx:146 | typing replaces the input and nothing else |
| Chatbot.ChatWidget.Send | components/chatbot.tsx:45-85 | blank input changes nothing; otherwise the text is appended with id length+1, a reply with id length+2 is scheduled for it and the input is cleared; sequential ids are kept when nothing was waiting |
| Chatbot.ChatWidget.Deliver | components/chatbot.tsx:58-82 | the oldest scheduled reply is appended with its fixed id and the classified answer; sequential ids are kept |
| Chatbot.SendAndReply | components/chatbot.tsx:45-85 | a send and its reply add exactly the visitor's message and the answer with the next two ids, and keep every earlier message |
| Chatbot.OverlappingSends | components/chatbot.tsx:49-75 | a second send before the first reply takes the id already promised to that reply |
| Portfolio.Judge | app/page.tsx:91-110 | success exactly on a 2xx with truthy `ok`; the mail app exactly on a 503 with a truthy `fallback.mailto`, opening that link; otherwise the reply's error when it is truthy, the retry text when it is not, or the network text when `fetch` threw |
| Portfolio.ContactForm.constructor | app/page.tsx:16-19 | empty form, idle, no error, back-to-top hidden |
| Portfolio.ContactForm.Edit | app/page.tsx:373 | an edit replaces the form and nothing else |
| Portfolio.ContactForm.OnScroll | app/page.tsx:21-24 | the back-to-top button shows exactly when the page is scrolled past 300 |
| Portfolio.ContactForm.Submit | app/page.tsx:64-81 | a form with a blank name, email or message is refused with the fill-in prompt and no request; otherwise the status is sending and the request's body is the form |
| Portfolio.ContactForm.Receive | app/page.tsx:83-110 | success clears the form, the fallback opens the link, a failure shows the message `Judge` gives; nothing else changes |
| Portfolio.FromMailtoRoute | app/api/contact/route.tsx:124-153 | the `route.tsx` reply has the reply's status and no `fallback.mailto` |
| Portfolio.FromFallbackRoute | app/api/contact/route.ts:33-83 | the `route.ts` reply has the reply's status and `ok` exactly on success |
| Portfolio.MailtoRouteNeverFallsBack | app/page.tsx:98-106 | with the `route.tsx` variant the page never opens the mail app; success matches and every refusal shows the error code |
| Portfolio.JudgeNotConfigured | app/page.tsx:98-106 | a 503 reply of the `route.ts` variant opens its link when the link is truthy and otherwise fails with that reply's error text |
| Portfolio.FallbackRouteOpensLink | app/page.tsx:98-103 | with the `route.ts` variant an unconfigured server makes the page open the link built from the submitted form when the public address is set, and fail otherwise |
| Portfolio.EmptySubjectRejectedByMailtoRoute | app/page.tsx:69 | a form with an empty subject passes the page's check but the `route.tsx` variant answers "missing_fields" |

## Left out

- The text of the completion request is not modelled: the system prompt, the model parameters and the `fetch` to the provider (app/api/chat/route.ts:232-275). The provider's outcome is a parameter `Completion`: content and token count, or a failure.
- `console.log` / `console.error` calls are left out because they do not change any reply.
- `Math.random()` is modelled as two `Draw` parameters in [0, 1). `gate` is the first call, the `> 0.3` test of app/api/chat/route.ts:216; `pick` is the second call, which chooses the suggestion at app/api/chat/route.ts:217 and is made only when the gate passes.
- The mail provider (Resend) is not modelled. Its import, its constructor and its `send` call are reduced to an outcome parameter: accepted, reported an error, or threw.
- The `from`, `to`, `reply_to` and `html` fields of the outgoing message are left out, and so is the HTML template of `route.tsx` (app/api/contact/route.tsx:94-102). Only the plain-text message of `route.ts` is modelled.
- `parseBody` in `route.tsx` is not modelled as written. Its content-type sniffing of JSON versus form data is an already-parsed `Incoming` record with optional fields.
- `ContactMailto.Post`: a JSON body that parses to `null` is not modelled. Reading `raw.name` at app/api/contact/route.tsx:61 then throws outside any `try`, so the request ends in an unhandled 500 that no `Reply` stands for.
- A JSON field that is present but not a string is not modelled. The source would call `.trim()` or `.toString()` on it, or throw.
- `ContactMailto.Sanitize`: cuts at 5000 Unicode scalar values, while `slice` counts UTF-16 code units. The two differ only for text outside the Basic Multilingual Plane. There `slice(0, 5000)` can split a surrogate pair, and `encodeURIComponent` in `buildMailto` then throws a `URIError`: outside any `try` at app/api/contact/route.tsx:144, and again in the `catch` at line 130 when the throw came from line 112. Either way the source ends in an unhandled 500 where the model gives a refusal with a link.
- `Text.LowerStr`: folds ASCII letters only; `toLowerCase` also folds non-ASCII letters.
- `Uri.Decode`: is proved only as the inverse of `Encode`. Its rejection of malformed input (which `decodeURIComponent` reports as a `URIError`) is not proved to match the JavaScript function case by case. `Uri.Encode` has no lone-surrogate error case, because `string` here holds Unicode scalar values.
- The chat widget's one-second `setTimeout` is a queue of scheduled replies that `Deliver` fires in order. Timestamps and the timer's delay are left out.
- `Chatbot.ChatWidget.Send`: the id invariant is preserved only when no reply is waiting. Sends that overlap the timer reuse an id, which `Chatbot.OverlappingSends` exhibits. The model does not promise unique ids in that case.
- The rest of the page is rendering and is left out: the JSX, the menu toggle, the widget's open/close state, `scrollTo` and the registration of listeners. The scroll position is a parameter of `OnScroll`.
- `Portfolio.ContactForm.Edit` and `Submit`: the page disables the inputs and the button while sending. The model states this as a precondition, `status != Sending`.
