# sendTelegram: a verified model of the message builder

`api/sendTelegram.js` is a serverless HTTP handler. It takes a loan or login
form submission and forwards it as an HTML message to a chat through the
Telegram Bot API. The handler works in these steps:

- refuses anything but `POST`;
- checks that the bot token and chat id are configured;
- reads the JSON body;
- logs a copy of the payload with the PIN and one-time code masked;
- picks a heading;
- assembles the message: bold heading, time line, login block, and an
  "Other" section for every field without a place of its own;
- sends the message, and relays the API's reply.

This project models that logic in Dafny and proves what it promises.

Modules, one per file:

- `JsObjects` (`objects.dfy`): the payload as a JavaScript object. A payload
  is its own keys in enumeration order, plus a map from key to value. A value
  is text, or `None` for null/undefined. The module also models property
  read, property assignment and `delete`.
- `Escaping` (`escaping.dfy`) covers three things:
  - `escHTML`, as the chain of four global replacements;
  - a one-pass reference definition of it, and its inverse;
  - `short`, and the notion of safe markup for the bold-only HTML dialect of
    the message.
- `Masking` (`masking.dfy`): `mask`, and the masked log copy. The copy is
  built by a method that assigns into a copy of the payload, and is proved
  equal to a specification function.
- `Headings` (`heading.dfy`): the three-branch heading choice.
- `MessageText` (`message.dfy`): each section of the message as a
  specification function, the handler's `+=`/`delete`/`for` statements as
  methods proved equal to them, and the properties of the whole message.
- `Handler` (`handler.dfy`) covers the gates and the rest of one request:
  - the method gate, and the configuration gate with its `missing` list;
  - reading the body, and the relay of the API's reply;
  - `Handle`, one whole request.

## Model

| member | source | states |
|---|---|---|
| `Escaping.EscHtml` | api/sendTelegram.js:32-33 | null or undefined gives the empty text |
| `Escaping.EscapeIsPerChar` | api/sendTelegram.js:34-38 | the four chained replacements equal one pass that replaces each character by its entity: `&` goes first, so no entity is escaped twice |
| `Escaping.EscapeIsEscaped` | api/sendTelegram.js:34-38 | the escaped text has no `<`, `>` or `"`, and every `&` in it starts `&amp;`, `&lt;`, `&gt;` or `&quot;` |
| `Escaping.UnescapeEscape` | api/sendTelegram.js:34-38 | the reverse substitution recovers the input exactly |
| `Escaping.EscapePlain` | api/sendTelegram.js:34-38 | text without the four special characters is left unchanged |
| `Escaping.EscHtmlIsSafe` | api/sendTelegram.js:32-39 | escHTML of any value, present or not, is escaped text and safe markup |
| `Escaping.ShortTruncatesAt800` | api/sendTelegram.js:41-47 | absent gives empty text; up to 800 characters the value is escaped whole, with no marker, and is recoverable; above 800 the result is the first 800 characters escaped followed by `…(truncated)`; always escaped text |
| `Escaping.ShortBoundary` | api/sendTelegram.js:44-46 | 800 characters are kept whole, 801 are cut and marked |
| `Masking.Stars` | api/sendTelegram.js:52-53 | `'*'.repeat(n)` has length n and only asterisks |
| `Masking.Mask` | api/sendTelegram.js:49-54 | a falsy value is returned unchanged; otherwise the length is kept; up to two characters the result is all asterisks; beyond that, asterisks and then the last two characters of the input |
| `Masking.MaskRevealsOnlyLengthAndTail` | api/sendTelegram.js:49-54 | two values of the same length with the same last two characters mask alike |
| `Masking.MaskedCopy` | api/sendTelegram.js:57-59 | the log copy has the payload's keys in the payload's order, and the same value for every key except a truthy `loginPin` or `otp`, which is masked |
| `Masking.MaskedLogCopy` | api/sendTelegram.js:57-59 | the shallow copy followed by the two conditional assignments yields exactly `MaskedCopy` of the payload |
| `Masking.MaskedCopyRevealsOnlyTails` | api/sendTelegram.js:57-59 | payloads that differ only in the hidden part of the PIN or the code give the same log copy |
| `Headings.Heading` | api/sendTelegram.js:64-77 | the heading is never empty |
| `Headings.HeadingPriority` | api/sendTelegram.js:64-77 | any truthy loan detail gives the loan heading; otherwise a truthy plan gives the plan; otherwise the default; the default appears exactly when neither branch applies, or when the plan is the default text |
| `Headings.PlanIgnoredWithLoanDetails` | api/sendTelegram.js:67-73 | with a loan detail, the heading depends on the three loan fields only |
| `Headings.LoanHeadingExample` | api/sendTelegram.js:72 | loan amount 500 with a plan gives `Loan Request: USD 500 / N/A month(s) (N/A)` |
| `Headings.PlanHeadingExample` | api/sendTelegram.js:75-76 | a plan alone gives the plan text |
| `Headings.EmptyHeadingExample` | api/sendTelegram.js:64 | an empty payload gives `New Loan Submission Request` |
| `JsObjects.Put` | api/sendTelegram.js:58-59 | assignment to an existing key keeps the key order, and to a new key appends it; the key reads back the new value; every other key is unchanged |
| `JsObjects.Without` | api/sendTelegram.js:102-109 | deleting keys leaves the other keys in their order, each with its value; deleted keys read as undefined |
| `JsObjects.WithoutTwice` | api/sendTelegram.js:102-109 | deleting one set of keys and then another equals deleting both at once |
| `JsObjects.FilterOutMembers` | api/sendTelegram.js:101-111 | after deletion exactly the keys outside the deleted set remain |
| `JsObjects.FilterOutKeepsOrder` | api/sendTelegram.js:101-113 | kept keys keep their relative order |
| `MessageText.TimeBlock` | api/sendTelegram.js:83-85 | the time line is present exactly when `submittedAt` is truthy |
| `MessageText.LoginBlock` | api/sendTelegram.js:88-98 | the login block is present exactly when `loginPhone` is truthy |
| `MessageText.PinLine` | api/sendTelegram.js:91-93 | the PIN line is present exactly when `loginPin` is truthy |
| `MessageText.OtpLine` | api/sendTelegram.js:94-96 | the code line is present exactly when `otp` is truthy |
| `MessageText.OtherBlock` | api/sendTelegram.js:111-116 | the "Other" section is present exactly when some key remains |
| `MessageText.OtherFields` | api/sendTelegram.js:101-109 | the copy followed by the eight `delete`s yields exactly the payload without the eight recognised keys |
| `MessageText.AppendLoginBlock` | api/sendTelegram.js:88-98 | the appends of the login block add exactly `LoginBlock` to the text |
| `MessageText.AppendOtherSection` | api/sendTelegram.js:111-116 | the header and the loop over the remaining keys append exactly one line per key, in key order, or nothing when no key remains |
| `MessageText.BuildMessage` | api/sendTelegram.js:81-116 | the text built by successive appends is exactly `Message`: heading, time line, login block, "Other" section |
| `MessageText.MessageStartsWithHeading` | api/sendTelegram.js:81 | the message always begins with `<b>`, the escaped heading, `</b>` and a blank line |
| `MessageText.MessageIsSafeMarkup` | api/sendTelegram.js:81-116 | every `<` and `>` of the message belongs to a `<b>` or `</b>` tag written by the handler, every `&` starts an entity, and no `"` occurs |
| `MessageText.SectionsAreSafe` | api/sendTelegram.js:81-116 | each section is safe markup on its own |
| `MessageText.OtherLinesAreSafe` | api/sendTelegram.js:113-115 | any run of "Other" lines is safe markup, whatever the keys and values |
| `MessageText.ExtrasAreTheUnrecognizedFields` | api/sendTelegram.js:101-116 | the remaining keys are exactly the payload keys outside the eight recognised ones: each once, with its payload value, in payload order; the "Other" section is present exactly when such a key exists |
| `MessageText.LoginBlockCarriesRawSecrets` | api/sendTelegram.js:91-96 | the PIN and code lines carry the escaped raw values, not masked ones: unescaping gives the value back |
| `Handler.MissingNames` | api/sendTelegram.js:12-15 | a name is listed exactly when its value is not truthy; the token comes before the chat id; no name twice; the list is empty exactly when both are configured |
| `Handler.CollectMissing` | api/sendTelegram.js:13-15 | the two conditional pushes build exactly `MissingNames` |
| `Handler.MissingMessageNamesExactlyTheMissing` | api/sendTelegram.js:16-17 | the error text is `Missing env vars: ` followed by the missing names, joined by `, `, token first |
| `Handler.ReadPayload` | api/sendTelegram.js:21-29 | empty text and an absent body read as the empty object; non-empty text reads as its parse; an unparsable text is the only way to fail |
| `Handler.Relay` | api/sendTelegram.js:137-150 | a failed call gives 500 `Fetch error: …`; a reply that is not ok gives 502 `Telegram error: …`; an ok reply gives 200 with the reply body, as JSON exactly when it parses |
| `Handler.Handle` | api/sendTelegram.js:4-150 | a non-POST method gives 405 before any other check; then missing configuration gives 500 with the missing names; then an unparsable body gives 400; otherwise the log copy is `MaskedCopy`, the request carries `Message` of the payload with HTML parse mode and previews disabled, and the answer is the relay of the reply |
| `Escaping.ReplaceAll` | api/sendTelegram.js:35-38 | one global replacement of a character: text without the character is unchanged, and the character cannot survive a replacement that lacks it; `ReplaceAllConcat` shows it works piece by piece |
| `Escaping.Escape` | api/sendTelegram.js:34-38 | the four replacements with `&` first; its properties are `EscapeIsPerChar`, `EscapeIsEscaped`, `UnescapeEscape` and `EscapePlain` |
| `Escaping.Short` | api/sendTelegram.js:41-47 | `short` with its default limit; its properties are `ShortTruncatesAt800` and `ShortBoundary` |
| `Headings.OrNA` | api/sendTelegram.js:72 | the field's value when truthy, else `N/A`; `LoanHeadingExample` shows both cases |
| `Headings.LoanHeading` | api/sendTelegram.js:72 | the loan heading template; `HeadingPriority` states when it is chosen, `LoanHeadingIsNotDefault` that it never equals the default text |
| `MessageText.HeadingBlock` | api/sendTelegram.js:81 | the escaped heading in bold and a blank line; `MessageStartsWithHeading` and `HeadingBlockIsSafe` state its properties |
| `MessageText.OtherLine` | api/sendTelegram.js:114 | the line `<b>key:</b> value` with the key escaped and the value through `short`; `OtherLineIsSafe` states it is safe markup |
| `MessageText.OtherLines` | api/sendTelegram.js:113-115 | one `OtherLine` per key, in key order; `OtherLinesStep` adds one key, `AppendOtherSection` ties the loop to it, `OtherLinesAreSafe` states safety |
| `MessageText.Message` | api/sendTelegram.js:81-116 | heading, time line, login block and "Other" section in that order; `BuildMessage`, `MessageStartsWithHeading` and `MessageIsSafeMarkup` state its properties |
| `Handler.Join` | api/sendTelegram.js:16-17 | `missing.join(', ')`; `JoinTwo` gives the two-name case |
| `Handler.MissingMessage` | api/sendTelegram.js:17 | the configuration error text; `MissingMessageNamesExactlyTheMissing` gives it for every configuration |
| `Handler.SendMessageUrl` | api/sendTelegram.js:120 | the `sendMessage` address of the bot token; `Handle` states that the outbound request goes there |

## Left out

- `fetch`, and the network: the outcome of the call is an input (`Delivery`) of `Handle`.
- `JSON.parse`: the parse of a text body is an input (`Body.Text`), and so is whether the reply body parses.
- Reading `process.env`: the configuration is parameters.
- `console.log`, `console.error`, and the `JSON.stringify` of the log copy are left out. The model returns the log copy itself.
- `async`/`await`: there is nothing concurrent.
- `String(s)` coercion: values are text or absent. Numbers, booleans, nested objects and arrays in the payload are not modelled.
- Falsy non-text bodies (`0`, `false`) are folded into `Body.Absent`, as `req.body || {}` reads them.
- JSON bodies that are not objects are not modelled:
  - A number or a boolean spreads to `{}` and reads every field as undefined. The handler then sends the default heading with no "Other" section, and relays as usual.
  - A string or an array spreads into index keys `"0"`, `"1"`, …, and those keys are listed under "Other".
  - `null` makes the handler throw a TypeError when it reads `payload.loanAmount` (line 68). That read is outside the `try`, so the caller gets no 400.
- Lengths: JavaScript counts UTF-16 code units, and Dafny counts characters. `short` and `mask` are modelled on characters, so the two differ for text outside the Basic Multilingual Plane.
- Key order: `Object.keys` lists integer-like keys first, in numeric order. The model takes the payload's key order as given.
- `Handler.Relay`: when the fetch error has no message, the source's text ends in `undefined`. The model takes the message as given text.
- `Handler.Relay`: an ok reply that parses is sent with `res.json(JSON.parse(bodyText))`, so the caller receives the parse serialised again, not the reply text byte for byte. The two can differ, for example on `\uXXXX` escapes. The model keeps the reply text and records the JSON form only as `asJson`.
- `Escaping.EscHtml`: its own contract only states the null case. The escaping properties are the lemmas `EscapeIsPerChar`, `EscapeIsEscaped`, `UnescapeEscape` and `EscHtmlIsSafe`.
