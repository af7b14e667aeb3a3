# WhatsApp link without saving a contact: a Dafny model

This is a model of a small web form. The form turns typed phone-number text into a WhatsApp deep link,
`https://api.whatsapp.com/send/?phone=<digits>`, and sends the browser there. The model covers three parts:

- **Phone utilities** (module `Phone`, file `phone.dfy`). These are pure functions.
  - Sanitizing keeps the ASCII digits and drops the maximal run of leading `0`s.
  - The validity check accepts 8 to 15 digits. 15 is the digit limit of ITU-T E.164, clause 6.
  - The link builder puts a fixed prefix in front of the percent-encoded number.
- **Percent-encoding** (module `UriEncoding`, file `uri_encoding.dfy`). This models ECMAScript's
  `encodeURIComponent`, which the link builder calls.
  - Letters, digits and `-_.!~*'()` are kept.
  - Any other character becomes its UTF-8 bytes, written `%XY` with upper-case hex.
  - The consequence for this program: a digit string is encoded to itself (digits are unreserved in section 2.3 of RFC 3986).
- **Submit controller** (module `App`, file `app.dfy`).
  - `MightBeMissingCountryCode` is the country-code heuristic.
  - The class `SubmitController` holds the component's state: `rawInput`, `isSubmitting`, `status` and `showCountryCodeWarning`.
  - The values derived from the typed text are the class functions `Sanitized`, `IsValid` and `WhatsappUrl` (the fallback link).
  - The class also holds `navigations`, a log of every URL assigned to the browser location without the assignment throwing.
  - Its methods are the handlers. Each one is written as the sequence of state updates it makes.
  - `navigationThrows` is a parameter that says whether assigning the location throws.
  - Four client methods (`DirectRedirectRun`, `WarnThenProceedRun`, `InvalidRun`, `EditWhileWarnedRun`)
    run the controller end to end on concrete input. Each proves the resulting state.

Notes on behaviour:

- The handlers keep the source's order: the location is assigned first, then `status` becomes success. If the
  assignment throws, the catch sets the navigation-failure error instead. The catch would overwrite the status in
  either order, so the order of the two statements inside the try does not change the final state.
- The navigation is recorded as a log instead of a single optional URL. With a log, "records no navigation"
  means the log is unchanged, and that stays meaningful after earlier submits.
- `handleProceedAnyway` checks neither validity nor the heuristic again. The warning is justified when it is
  raised (`WarningJustified`, ensured by `HandleSubmit`).
- Nothing clears the warning when the text changes. So text edited while the warning is shown is sent as it is:
  `EditWhileWarnedRun` proves that "123" is opened this way. This is how the component behaves, not a corrected version.
- The same applies to `status`: after a success, editing the text to something invalid leaves the status at success.
  The fallback link then disappears, because `WhatsappUrl` gives the empty string.

## Model

| member | source | states |
|---|---|---|
| `UriEncoding.EncodeUriComponent` | src/utils/phone.js:29 | the encoding is never shorter than its input, and every output character is unreserved or `%` |
| `UriEncoding.EncodeFixedPoint` | src/utils/phone.js:29 | a string is its own encoding exactly when all its characters are unreserved; otherwise the encoding is strictly longer |
| `UriEncoding.Utf8RoundTrip` | src/utils/phone.js:29 | the UTF-8 bytes that get percent-encoded decode back to the character's code point |
| `Phone.DigitsOf` | src/utils/phone.js:9 | deleting non-digits leaves only characters `0`..`9` and never lengthens the text |
| `Phone.DigitsOfAppend` | src/utils/phone.js:9 | the digit filter distributes over concatenation |
| `Phone.DigitsOfSingle` | src/utils/phone.js:9 | a single character is kept exactly when it is a digit; with `DigitsOfAppend`, the digits are kept in their original order |
| `Phone.DigitsOfDigits` | src/utils/phone.js:9 | a digit string passes through the filter unchanged |
| `Phone.StripLeadingZeros` | src/utils/phone.js:11 | the result is a suffix of the input, every character cut off is `0`, and the result does not start with `0` |
| `Phone.StripLeadingZerosUnique` | src/utils/phone.js:11 | those three facts single out the result, so the removed run of `0` is maximal |
| `Phone.StripLeadingZerosNoop` | src/utils/phone.js:11 | text that does not start with `0` is left unchanged |
| `Phone.Sanitize` | src/utils/phone.js:9-12 | the sanitized string has only digits, does not start with `0`, and is no longer than the input |
| `Phone.SanitizePhoneInput` | src/utils/phone.js:7-13 | a non-string argument gives the empty string; a string gives digits with no leading `0`, never longer than the input |
| `Phone.SanitizeIdempotent` | src/utils/phone.js:7-13 | sanitizing twice equals sanitizing once |
| `Phone.SanitizeIgnoresNonDigit` | src/utils/phone.js:9 | a non-digit character anywhere in the text does not change the result |
| `Phone.SanitizeLeadingZero` | src/utils/phone.js:11 | a leading `0` is dropped |
| `Phone.SanitizeSignificantDigit` | src/utils/phone.js:9-11 | from the first non-zero digit on, every digit is kept |
| `Phone.SanitizeCharacterization` | src/utils/phone.js:9-12 | the result is the digit subsequence minus its maximal leading run of `0` |
| `Phone.SanitizeExample` | src/utils/phone.js:9-12 | "0034612345678" sanitizes to "34612345678", "0612345678" to "612345678", "123" to "123" |
| `Phone.IsLikelyValidPhoneNumber` | src/utils/phone.js:19-23 | the check holds iff 8 <= length <= 15; the empty string always fails |
| `Phone.ValidityBoundaries` | src/utils/phone.js:20-22 | 0 and 7 digits fail, 8 and 15 digits pass, 16 digits fail |
| `Phone.BuildWhatsAppUrl` | src/utils/phone.js:28-30 | every link starts with the fixed prefix; for a digit string the link is exactly the prefix followed by the digits |
| `Phone.BuildWhatsAppUrlExample` | src/utils/phone.js:28-30 | "34612345678" gives `https://api.whatsapp.com/send/?phone=34612345678` |
| `Phone.BuildWhatsAppUrlInjective` | src/utils/phone.js:28-30 | distinct digit strings give distinct links |
| `App.MightBeMissingCountryCode` | src/App.jsx:17-22 | the heuristic fires iff the text has 6 to 10 digits, does not start with "00" and does not start with "+"; empty text never fires |
| `App.HeuristicExamples` | src/App.jsx:17-22 | "0049123456", "12345" and "+34612345678" do not fire; "123456" does |
| `App.HeuristicFiresOnTrunkZero` | src/App.jsx:19-21 | "0612345678" fires: a single leading `0` is not taken for the "00" prefix |
| `App.WarnedNumberIsShort` | src/App.jsx:31-39 | a valid number that raises the warning has 8 to 10 digits |
| `App.InternationalNumberFacts` | src/App.jsx:30-43 | "0034612345678" is valid, not flagged, and its link is `.../send/?phone=34612345678` |
| `App.LocalNumberFacts` | src/App.jsx:30-39 | "0612345678" sanitizes to "612345678", is valid and is flagged |
| `App.ShortNumberFacts` | src/App.jsx:30-33 | "123" sanitizes to "123" and is rejected as too short |
| `App.SubmitController.constructor` | src/App.jsx:6-10 | initial state: empty input, not submitting, idle status, no warning, nothing navigated |
| `App.SubmitController.Sanitized` | src/App.jsx:12 | the derived sanitized value is digits only, has no leading `0` and is no longer than the input |
| `App.SubmitController.IsValid` | src/App.jsx:13 | the derived validity holds iff the sanitized value has 8 to 15 digits |
| `App.SubmitController.WhatsappUrl` | src/App.jsx:14 | the derived link is non-empty iff the sanitized text is valid, and is then the prefix followed by the sanitized digits |
| `App.SubmitController.CanSubmit` | src/App.jsx:93 | the submit button is enabled iff the number is valid and no redirect is under way |
| `App.SubmitController.SetRawInput` | src/App.jsx:88 | typing replaces `rawInput` and nothing else |
| `App.SubmitController.ProceedToWhatsApp` | src/App.jsx:46-57 | on success the built link is appended to the log and status is success; on a throw, status is the navigation error and the log is unchanged; `isSubmitting` ends false either way |
| `App.SubmitController.HandleSubmit` | src/App.jsx:25-44 | invalid input: error with the length message, no warning, no navigation. Valid and flagged: warning, idle status, no navigation. Valid and not flagged: redirect to the prefix followed by the sanitized digits. Afterwards a raised warning is justified and has 8 to 10 digits, and a success status implies valid input |
| `App.SubmitController.HandleFixNumber` | src/App.jsx:59-63 | clears the warning and changes nothing else |
| `App.SubmitController.HandleProceedAnyway` | src/App.jsx:65-69 | clears the warning and redirects to the link for the current sanitized text, without re-running the validity check or the heuristic; after a justified warning, success implies valid input |
| `App.DirectRedirectRun` | src/App.jsx:25-57 | "0034612345678" is opened directly as `.../send/?phone=34612345678` with success status and no warning |
| `App.WarnThenProceedRun` | src/App.jsx:25-69 | "0612345678" raises the warning with nothing opened; proceeding anyway opens `.../send/?phone=612345678` |
| `App.InvalidRun` | src/App.jsx:25-34 | "123" gives the length error, no warning and nothing opened |
| `App.EditWhileWarnedRun` | src/App.jsx:65-69 | text edited to "123" while the warning is shown is opened by "proceed anyway", although it is invalid |

## Left out

- The JSX markup (src/App.jsx:71-150) is not modelled, and neither is the privacy toggle (`showPrivacy`). They are presentation only. The submit button's `disabled` condition is the one exception and is modelled as `CanSubmit`.
- Not modelled:
  - which status message is shown, including the fallback message at src/App.jsx:100;
  - the success paragraph and its fallback link (src/App.jsx:102-106).
  These only render state that the model already has.
- src/hooks/useModal.js is not part of this model. It is DOM focus and key-event plumbing, and src/App.jsx does not use it.
- vite.config.js is not part of this model. It is build configuration.
- The browser navigation (`window.location.href = …`) is not modelled directly. It becomes an entry in the `navigations` log, and the `navigationThrows` parameter says whether the assignment throws. What happens after the page is left is not modelled.
- `document.getElementById('phone').focus()` in `handleFixNumber` is not modelled. It is a DOM side effect with no state of the component.
- `e.preventDefault()` in `handleSubmit` is not modelled. It is browser event handling.
- React's `useMemo` caching and setter batching are not modelled. Each handler is a sequence of field updates, and only the final state is observable. So the moment where `isSubmitting` is true inside `proceedToWhatsApp` is not visible to a caller.
- `IsLikelyValidPhoneNumber` takes a string only. The JavaScript function accepts any value, but it is only ever called with sanitized strings.
- `EncodeUriComponent` does not model the `URIError` that `encodeURIComponent` throws on a lone UTF-16 surrogate, because a Dafny `char` is always a Unicode scalar value. Only digit strings reach it in this program.
- `EncodeUriComponent` has no percent-decoding inverse in the model; its partner is `EncodeFixedPoint`.
