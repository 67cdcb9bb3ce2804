# Portfolio site: translation lookup, reCAPTCHA route and contact submission

This Dafny project models the three parts of the portfolio site that hold logic,
and proves properties about them.

- **Translation lookup** (`I18n`, on top of `Json` and `Strings`). `getPath` walks a
  locale dictionary along the segments of a dotted key. `t` runs a cascade:
  1. it looks the key up in the current language;
  2. it falls back to English;
  3. it falls back to the caller's fallback, or to the key itself;
  4. it checks the found value loosely against the fallback's type.

  The dictionaries are JSON values passed in as parameters. JSON values carry the
  JavaScript semantics the code relies on: truthiness, `typeof`, and own-property
  lookup. An array's own keys are its canonical index numerals and `"length"`.
- **reCAPTCHA route** (`Recaptcha`). `POST` is a method. It runs the guard chain in the
  source's order and returns the reply (status and JSON body). It also returns the
  request it sent to Google's site-verify service, or `None` when it answered without
  calling it. The environment is a map from names to values. The site-verify answer
  is an abstract outcome: transport failure, or a status with a body that may not parse.
  `GET` is the function `HealthCheck`.
- **Contact form** (`Contact`). `ContactForm` is a class with the component's state:
  `loading`, `formData` and `captchaReady`, plus `events`, the calls and alerts the
  handler makes. `HandleSubmit` is the imperative handler. It works over the outcomes
  of the outside steps: configuration, the clock and script-presence readings of the
  readiness loop, the token, the verify answer, and the EmailJS send. It is proved
  equal to the specification function `SubmitEvents`. The lemmas about that function
  give the ordering guarantees. A ghost log records the value of `loading` at each
  event. `WaitForRecaptcha` is the polling loop.

Three behaviours of the code that are easy to miss:

- The captcha refusal alerts are fixed English texts ("Captcha not ready…",
  "Captcha failed…", "Captcha rejected…"). Only the generic error and the success
  alert are translated.
- A verify answer with a non-2xx status shows "Captcha failed" only when its body is
  JSON. Otherwise `res.json().catch(async () => ({ text: await res.text() }))` reads
  a body that was already consumed, the promise rejects, and the outer `catch` shows
  the generic error (`Contact.GenericErrorIffThrew`).
- The site's own route answers every refusal with a non-2xx status. So against that
  route the "Captcha rejected" alert cannot appear (`Contact.ServerVerdictGatesEmail`).

## Model

| member | source | states |
|---|---|---|
| `Json.Member` | src/providers/language-provider.tsx:24-25 | an object has exactly its fields as own keys; an array has exactly `"length"` and the numerals of its indices; scalars have none |
| `Json.MemberAtIndex` | src/providers/language-provider.tsx:24-25 | the numeral of index `i` of an array selects element `i` |
| `Strings.ParseIndexOfDecimal` | src/providers/language-provider.tsx:24 | the decimal numeral of every index reads back as that index |
| `Strings.DecimalOfParseIndex` | src/providers/language-provider.tsx:24 | every key read as an index is that index's canonical numeral, so no other spelling (`"01"`, `""`) selects an element |
| `Strings.Split` | src/providers/language-provider.tsx:47 | `key.split(".")` is never empty, has one segment more than the key has dots, and no segment contains a dot |
| `Strings.JoinSplit` | src/providers/language-provider.tsx:47 | joining the segments with the separator gives back the key |
| `Strings.SplitJoin` | src/providers/language-provider.tsx:47 | splitting a join of dot-free segments gives back the segments |
| `I18n.DottedKeyDescends` | src/providers/language-provider.tsx:21-47 | a key without dots is one top-level lookup; for `a.b` the part before the first dot selects a child, and the rest of the key is looked up in that child |
| `I18n.GetPath` | src/providers/language-provider.tsx:21-31 | the `for` loop with early return computes exactly the recursive walk `PathValue` |
| `I18n.PathValueEmpty` | src/providers/language-provider.tsx:21-31 | an empty path returns the input unchanged |
| `Json.ObjectLikeIsTruthyObject` | src/providers/language-provider.tsx:24 | `IsObjectLike`, the guard of the walk and of the object fallback case (line 66), holds exactly for the values that are truthy and of `typeof` "object" |
| `I18n.PathValueStep` | src/providers/language-provider.tsx:23-29 | a step fails when the value is not a truthy object or lacks the segment as an own key, and otherwise descends one level |
| `I18n.PathValueAppend` | src/providers/language-provider.tsx:22-30 | walking `p + q` walks `q` from the end of `p`; a failed prefix makes the whole walk fail |
| `I18n.MatchType` | src/providers/language-provider.tsx:61-69 | the result is the found value or the fallback, always has the fallback's `typeof`, and follows the three cases: array fallback, non-null object fallback, anything else (null included) |
| `I18n.Translate` | src/providers/language-provider.tsx:46-72 | on a hit the answer is the found value or the caller's fallback, as `MatchType` decides (see `TranslateCurrentFirst`); on a miss it is the fallback or the key itself, and nothing else |
| `I18n.TranslateCurrentFirst` | src/providers/language-provider.tsx:47-50 | a key found in the current language is answered from it, whatever English holds |
| `I18n.TranslateEnglishOnlyOnMiss` | src/providers/language-provider.tsx:53-55 | in English the Romanian dictionary is never read; in Romanian the English one is read only after a Romanian miss, and then the answer is the English one |
| `I18n.TranslateMissing` | src/providers/language-provider.tsx:58 | a key missing in both dictionaries gives the fallback when it is neither null nor absent, and the key string otherwise |
| `I18n.TranslateWithoutFallback` | src/providers/language-provider.tsx:71 | with no fallback, the found value comes back as it is, and a miss gives the key |
| `I18n.TranslateHonoursFallbackType` | src/providers/language-provider.tsx:46-72 | a non-null fallback fixes the result's `typeof`. With a null fallback a miss still gives the key, a found object, array or null comes back as it is, and a found string, number or boolean becomes null |
| `Strings.Utf16Length` | src/app/api/recaptcha-enterprise/route.ts:42 | `secretKey.length` counts UTF-16 units: between one and two per character, exactly one per character when every character is at most U+FFFF, and more than the character count as soon as one is beyond it |
| `Strings.Utf16LengthOfChar` | src/app/api/recaptcha-enterprise/route.ts:42 | a character beyond U+FFFF counts two units, and any other character one |
| `Strings.Utf16LengthAppend` | src/app/api/recaptcha-enterprise/route.ts:42 | the length of a concatenation is the sum of the lengths, so the count is the sum over the characters |
| `Recaptcha.MissingVars` | src/app/api/recaptcha-enterprise/route.ts:130 | the filter keeps exactly the required names that are unset or empty |
| `Recaptcha.HealthCheck` | src/app/api/recaptcha-enterprise/route.ts:124-139 | `ok` is always true; `missingVars` lists the unset names in the order secret, then site key; `configured` holds exactly when both are set |
| `Recaptcha.ErrorCodes` | src/app/api/recaptcha-enterprise/route.ts:102 | `...data["error-codes"]` under its truthiness guard: an absent or falsy field adds nothing, an array adds its elements in order, a non-empty string adds one one-character string per character, and any other truthy value throws (`None`) |
| `Recaptcha.CodePoints` | src/app/api/recaptcha-enterprise/route.ts:102 | spreading a string gives exactly one one-character string per character, in order |
| `Recaptcha.ReplyJson` | src/app/api/recaptcha-enterprise/route.ts:106-112 | the reply's JSON `ok` field is true exactly for a verified reply |
| `Recaptcha.Post` | src/app/api/recaptcha-enterprise/route.ts:17-121 | the method returns exactly `PostReply`, which runs the guards in order with their status codes: unreadable body 500, missing token 400, missing configuration 500 listing the missing names, short secret 500. Site-verify is called exactly when all guards pass, with the secret and the token. Upstream failures: transport 503, non-2xx 500 with the upstream status, unparsable 500. A rejection is 400 with reasons in the order "verification failed", error codes, low score, never empty. `ok` holds exactly for success with a passing score, with status 200 and the upstream body as details, and every other reply is non-2xx. The missing-names message the method builds by appending is the list `HealthCheck` reports |
| `Recaptcha.OkIffSuccessStatus` | src/app/api/recaptcha-enterprise/route.ts:17-121 | every reply of the route reports `ok` exactly when its status is 2xx |
| `Recaptcha.RaisingScoreKeepsVerified` | src/app/api/recaptcha-enterprise/route.ts:95-112 | the verdict is monotone in the score: raising `score` in a site-verify answer never turns an accepted token into a refused one |
| `Contact.WaitForRecaptcha` | src/components/sections/Contact.tsx:16-23 | the polling loop returns ready exactly as `BecameReady` says |
| `Contact.BecameReadyMeans` | src/components/sections/Contact.tsx:18-21 | ready holds exactly when some check finds the script while every clock reading up to it is within the timeout |
| `Contact.ContactForm.constructor` | src/components/sections/Contact.tsx:47-50 | the form starts idle, empty and not ready, with no events and an empty loading log |
| `Contact.ContactForm.MarkReady` | src/components/sections/Contact.tsx:53 | the readiness flag becomes the script's presence, and nothing else changes |
| `Contact.ContactForm.VerifyAndSend` | src/components/sections/Contact.tsx:88-138 | from the verify request on, the events are the verify request and then `AfterVerify`, with the generic alert left to the caller when it throws; it throws only with `loading` still set, and a normal return leaves `loading` set exactly after a delivery; the form is cleared exactly when the route accepted, EmailJS is configured and the send succeeded; every event is logged with `loading` set |
| `Contact.ContactForm.Attempt` | src/components/sections/Contact.tsx:69-138 | the `try` block's events are exactly `SubmitEvents`, except that a thrown attempt leaves out the final generic alert; a normal return leaves `loading` set exactly after a delivery; every event is logged with `loading` set |
| `Contact.ContactForm.HandleSubmit` | src/components/sections/Contact.tsx:65-145 | `loading` is false afterwards on every path. The events added are exactly `SubmitEvents`. Every one of them happened while `loading` was set, so while the button was disabled. The form is cleared exactly when the email was delivered, and left unchanged otherwise. After a delivery the button is disabled |
| `Contact.SubmitDisabled` | src/components/sections/Contact.tsx:233 | a submission in flight disables the button whatever the form holds; an enabled button means the script is ready and name and email are filled in |
| `Contact.SubmitDisabledIgnoresMessage` | src/components/sections/Contact.tsx:233 | the message field plays no part in the disabled state |
| `Contact.SubmitEndsWithOneAlert` | src/components/sections/Contact.tsx:65-145 | every submission shows exactly one alert, and it is the last event |
| `Contact.NoSiteKeyOrTimeout` | src/components/sections/Contact.tsx:71-77 | a missing site key or a readiness timeout gives only the generic error alert: no token request, no verify, no send |
| `Contact.TokenFailure` | src/components/sections/Contact.tsx:79-86 | when no token is obtained, "Captcha not ready" follows the token request, and the route is never called |
| `Contact.VerifyRequestCarriesToken` | src/components/sections/Contact.tsx:76-93 | every verify request carries the obtained token and the action `contact_submit`, and there is one exactly when a token was obtained |
| `Contact.VerifyRefusals` | src/components/sections/Contact.tsx:95-109 | a non-2xx JSON answer ends in "Captcha failed", and a 2xx answer with a falsy `ok` ends in "Captcha rejected"; neither sends |
| `Contact.EmailOnlyAfterVerifiedToken` | src/components/sections/Contact.tsx:103-135 | an email attempt comes right after the verify request for the obtained token, and only when the route accepted it and all three EmailJS settings are present. The attempt carries the form's name, email and message, with reply-to set to the email, and the site's fixed recipient, site and LinkedIn values |
| `Contact.EmailAttemptedIff` | src/components/sections/Contact.tsx:71-135 | an email is attempted exactly when every earlier step succeeded |
| `Contact.AcceptedButUnconfigured` | src/components/sections/Contact.tsx:116-141 | with the token accepted but an EmailJS setting missing, the events are the token request, the verify request and the generic error alert: nothing is sent |
| `Contact.SendFailure` | src/components/sections/Contact.tsx:120-141 | a rejected send is followed by the generic error alert alone, as the fourth and last event |
| `Contact.GenericErrorIffThrew` | src/components/sections/Contact.tsx:69-141 | the last alert is the generic error exactly when something threw in the `try` block: no site key or a readiness timeout, a failed `fetch`, a non-JSON answer whatever its status, a `null` 2xx answer, incomplete EmailJS settings after an accepted token, or a rejected send |
| `Contact.DeliveredIffSuccessAlert` | src/components/sections/Contact.tsx:137-138 | the success alert is shown exactly when the send succeeded |
| `Contact.ConsistentReplyGatesEmail` | src/components/sections/Contact.tsx:95-109 | a reply whose `ok` agrees with its 2xx status gates the email on `ok`, and never produces "Captcha rejected" |
| `Contact.ServerVerdictGatesEmail` | src/components/sections/Contact.tsx:89-109 | when the answer is the site's own route replying to the request `{ token, action }` for the obtained token, an email is attempted exactly when the route's verdict was ok and EmailJS is configured, and "Captcha rejected" never appears |

## Left out

- Rendering, styling, animations and the 3D scenes: no logic to state.
- The navigation bar, the modals and the CV download: DOM effects only.
- The presentational sections, the page and the configuration files: none of them holds logic.
- Language switching (`setLanguage`), the `localStorage` write and `document.documentElement.lang`: browser side effects.
- The contents of the English and Romanian locale files: they are not part of this model.
- `Json.Member`: models own keys only. Keys inherited through the prototype chain (`"toString" in {}`) and a `"__proto__"` key in a dictionary are not modelled.
- `Json.Member`: array indices are not capped at 2^32 - 2, since no real array reaches that length.
- Strings are sequences of Unicode scalar values, so lone UTF-16 surrogates cannot be written.
- Numbers are Dafny reals, so NaN and the infinities are not modelled. `JSON.parse` gives `Infinity` for a literal out of range (`1e400`), and the route does no arithmetic on the score.
- `Recaptcha.ReplyJson`: writes the score as a number. `JSON.stringify` writes an infinite score as `null`; that case is not modelled, because reals cannot be infinite.
- Logging (`console.*`): no observable effect.
- JavaScript's number-to-string conversion inside "score too low (…)": it is a parameter of `Recaptcha.ReplyJson` and stays abstract in `Recaptcha.Reason`.
- `Recaptcha.Post` sends the token to site-verify as the JSON value it received. The string conversion `URLSearchParams` applies to a non-string token is not modelled.
- `Recaptcha.Post`: reading the text of a non-2xx upstream answer is assumed to succeed. If that read failed, the source's outer `catch` would answer 500.
- The `action` field of the request body: the route reads it and never uses it.
- The HTTP status of the `GET` reply: it is Next.js's default, so only the body is modelled.
- The readiness wait's 100 ms sleep and `Date.now()`: replaced by abstract clock readings.
- `Contact.WaitForRecaptcha`: requires that the last clock reading has reached the timeout. This stands for the clock advancing, which is what ends the source's loop.
- `Contact.ContactForm.HandleSubmit`: requires the same of the clock readings, even on paths that never reach the readiness wait.
- The 200 ms readiness poll, the `grecaptcha-loaded` listener and their teardown: reduced to `MarkReady`.
- A `ready` callback that never fires: the token promise would never settle, and this is not modelled. The guard inside `getEnterpriseToken` is folded into the token outcome.
- The `submitted_at` timestamp of the email: it depends on the clock.
- The input change handlers, which replace one field of `formData`: not modelled.
- `Contact.ContactForm.HandleSubmit` keeps `captchaReady` unchanged. In the browser the 200 ms readiness poll keeps running during the handler's awaits and may change it mid-submission; that interleaving is not modelled.
- `I18n.Translate` takes its fallback as a JSON value. A JavaScript fallback outside JSON, such as a function (of `typeof` "function", which never matches and is always returned), cannot be expressed. Every call site passes a JSON value.
- Overlapping submissions: only the disabled button prevents them, and it is disabled while `loading` is set (src/components/sections/Contact.tsx lines 67, 84, 99, 107, 143 and 233). `Contact.ContactForm.HandleSubmit` proves that every event of a submission happens while `loading` is set. The interleaving of two handlers that a second, programmatic submit could start is not modelled.
