# ZodForge landing: checkout, webhook and key re-issue, modelled in Dafny

ZodForge Cloud sells API access through a landing site. This project models the site's three
server paths and proves properties about them:

- **`POST /api/create-checkout`** guards admission to a payment-provider checkout session. The
  checks run in this order:
  1. an origin allow-list (403);
  2. a fixed-window, per-client rate limit of 5 requests per 60 s (429);
  3. a 10 KiB declared-body ceiling (413);
  4. a body that parses as JSON (500 otherwise);
  5. a price id (400).
  
  After that it picks a safe redirect origin for the success and cancel URLs. The tier defaults
  to `pro`. A provider failure answers 500.
- **`POST /api/webhook`** handles payment-provider events. A delivery without a signature, or one
  that fails verification, gets 400. Each verified event type is handled differently:
  - **checkout completed:** mints a `zf_` key of 64 hex digits from 32 random bytes. It inserts an
    active customer row that stores only the key's hash, then emails the key, with plan copy that
    depends on the tier.
  - **subscription updated or deleted:** copies the new status onto the customer's rows. This
    update is best-effort and always answers 200.
  - **any other event:** acknowledged with 200.
- **`resend-email-manual.ts <email>`** is an operator script. It looks up the single customer row
  with that email and mints a new key. It overwrites the stored hash, then emails the new key. It
  exits with 1 after any failing step.

The model's layout follows the program:

| module | file | what it contains |
|---|---|---|
| `Wrappers` | `wrappers.dfy` | `Option`, and JavaScript truthiness of an optional string (`s \|\| fallback`) |
| `ApiKeys` | `api_keys.dfy` | the API-key encoder with its decoder, the round-trip proofs and the 20-character preview. The webhook (webhook.ts:22-27) and the script (resend-email-manual.ts:47-51) each have their own copy of `generateApiKey`. The copies differ only in the random source (`getRandomValues` vs `randomFillSync`). The random bytes are an input here, so one `GenerateApiKey` models both copies, and they agree by construction rather than by a lemma |
| `RateLimiting` | `rate_limiting.dfy` | class `RateLimiter` (the module-level `rateLimits` map) with method `CheckRateLimit`; the pure one-step function `Check`; run lemmas over sequences of calls |
| `CreateCheckout` | `create_checkout.dfy` | the checkout handler: a pure `Handle`, and the method `Post` proved equal to it |
| `Customers` | `customers.dfy` | the `customers` table: pure update and select functions, and class `CustomerTable` whose methods are the database calls |
| `OnboardingEmail` | `onboarding_email.dfy` | the API-key email and its tier-dependent copy |
| `Webhook` | `webhook.dfy` | the webhook handler: a pure `Handle`, and the method `Post` proved equal to it |
| `ResendScript` | `resend_script.dfy` | the re-key script: a pure `Run`, and the method `ResendEmail` proved equal to it |

### How the outside world enters the model

The model takes these as inputs:

- the clock, as `now`, in milliseconds;
- the 32 random bytes, as `Entropy`;
- SHA-256, as a function parameter `hash: string -> string`;
- the `dev` build flag;
- signature verification, as a `Verification` value;
- the payment provider's session answer;
- the success or failure of each database and email call.

A failed database call changes no row.

### Two consequences of the code worth knowing

- **The 5-per-60 s limit holds only within one fixed window.** A new window opens only when
  `now > resetAt`. So four more calls are admitted at exactly `resetAt`, and five more one
  millisecond later: nine calls within one millisecond across a window boundary.
  `RateLimiting.FixedWindowBurst` proves this. `RateLimiting.AtMostFivePerWindow` proves the
  bound within a window.
- **A denial at exactly `now == resetAt` reports `retryAfter` 0.** `RateLimiting.RetryAfterBounds`
  shows the value is positive exactly when `now < resetAt`.

## Model

| member | source | states |
|---|---|---|
| RateLimiting.RateLimiter.CheckRateLimit | src/pages/api/create-checkout.ts:23-40 | the new table and the decision are exactly one `Check` step on the old table; the 1..5 count invariant is preserved; no other client's entry appears, disappears or changes |
| RateLimiting.CeilDiv | src/pages/api/create-checkout.ts:34 | `Math.ceil(n/d)`: the result r is the least integer with n <= d*r |
| RateLimiting.Check | src/pages/api/create-checkout.ts:23-40 | one `checkRateLimit` call on the table, branch for branch. A denial happens only inside an open window whose count has reached 5, and leaves the table unchanged. An allowed call leaves an entry for the client and adds no other key. `NewWindow`, `InsideWindow`, `OtherKeysUntouched`, `CheckKeepsCountsInRange` and `RetryAfterBounds` give the rest |
| RateLimiting.NewWindow | src/pages/api/create-checkout.ts:27-30 | a call opens a fresh window (count 1, closing `now + 60000`) and is allowed iff the client is unknown or `now > resetAt`; a call at exactly resetAt is still in the old window |
| RateLimiting.InsideWindow | src/pages/api/create-checkout.ts:33-39 | inside the window: below 5, the call is allowed and the count rises by exactly one; at 5 or more, the call is denied and the table is unchanged |
| RateLimiting.OtherKeysUntouched | src/pages/api/create-checkout.ts:25-39 | a call reads and writes only its own client key's entry |
| RateLimiting.CheckKeepsCountsInRange | src/pages/api/create-checkout.ts:20-39 | every stored count stays within 1..RATE_LIMIT |
| RateLimiting.CheckKeepsWindowsEndBy | src/pages/api/create-checkout.ts:21-29 | no stored window closes more than RATE_WINDOW after the latest call |
| RateLimiting.RetryAfterBounds | src/pages/api/create-checkout.ts:33-35 | a denial reports ceil((resetAt-now)/1000) seconds; this is never negative, is positive iff now < resetAt, and is at most 60 |
| RateLimiting.InsideWindowRun | src/pages/api/create-checkout.ts:33-39 | in a run of calls inside an open window, the i-th call is allowed iff count + i < 5 |
| RateLimiting.FreshWindowRun | src/pages/api/create-checkout.ts:27-39 | in a run that opens a window and stays within 60 s of its first call, exactly the first five calls are allowed |
| RateLimiting.AtMostFivePerWindow | src/pages/api/create-checkout.ts:20-39 | such a run admits at most 5 calls, and exactly 5 when it has 5 or more |
| RateLimiting.InsideWindowFinal | src/pages/api/create-checkout.ts:33-39 | after a run inside an open window, the entry is count min(count + n, 5) with the same resetAt |
| RateLimiting.DecisionsAppend | src/pages/api/create-checkout.ts:19-40 | the decisions for two runs in a row are the first run's, then the second run's starting from the table the first run left |
| RateLimiting.FixedWindowBurst | src/pages/api/create-checkout.ts:27 | from an empty table, 10 calls (1 at t0, 4 at t0+60000, 5 at t0+60001) are all admitted: nine within one millisecond |
| CreateCheckout.ClientKey | src/pages/api/create-checkout.ts:56 | the rate key is the forwarded-for header if non-empty, else the real-IP header if non-empty, else "unknown"; never empty |
| CreateCheckout.FindPrefixOf | src/pages/api/create-checkout.ts:109 | `find(startsWith)`: returns the first candidate that is a prefix of the string, or none only when no candidate is |
| CreateCheckout.SafeOrigin | src/pages/api/create-checkout.ts:108-109 | the redirect origin is always an allowed origin. When some allowed origin is a prefix of the request origin, the chosen one is such a prefix, and since no allowed origin is a prefix of another it is the matching one. Otherwise it is https://zodforge.dev |
| CreateCheckout.AllowedOrigins | src/pages/api/create-checkout.ts:12-16 | the list is non-empty and starts with the production origin |
| CreateCheckout.DevOriginOnlyInDev | src/pages/api/create-checkout.ts:15 | http://localhost:4321 is an allowed origin iff the build is a development build |
| CreateCheckout.DevOriginForbiddenInProduction | src/pages/api/create-checkout.ts:15-53 | outside a development build, a request from http://localhost:4321 is refused with 403 |
| CreateCheckout.ForbiddenFirst | src/pages/api/create-checkout.ts:45-53 | 403 iff a non-empty origin is not exactly an allowed origin; a 403 neither touches the rate table nor requests a session |
| CreateCheckout.AbsentOriginPasses | src/pages/api/create-checkout.ts:47 | a missing or empty origin header passes the origin check and is rate-checked |
| CreateCheckout.RateCheckedSecond | src/pages/api/create-checkout.ts:55-75 | every non-403 response has gone through one rate check of the client key: 429 iff that check denies, carrying the check's `retryAfter` (table unchanged); any other status means the check allowed it |
| CreateCheckout.NoContentLengthNever413 | src/pages/api/create-checkout.ts:80-89 | an absent or non-numeric content length never gives 413 |
| CreateCheckout.TooLarge | src/pages/api/create-checkout.ts:80-83 | the size test `contentLength && parseInt(contentLength) > MAX_BODY_SIZE`, with no contract of its own; `NoContentLengthNever413` and `CheckOrderAfterRate` state when it gives 413 |
| CreateCheckout.CheckOrderAfterRate | src/pages/api/create-checkout.ts:79-151 | once origin and rate checks pass: 413 iff the declared length exceeds 10 KiB; 500 with no session iff, beyond that, the body does not parse; 400 iff, beyond that, the price id is missing or empty; 200 with the provider's url and id iff a session was requested and created; 500 if the provider failed |
| CreateCheckout.Admitted | src/pages/api/create-checkout.ts:79-151 | after the rate check the table is not touched again, and the answer is never 403 or 429. 413 iff the declared length exceeds 10 KiB; otherwise 500 with no session iff the body does not parse; otherwise 400 iff the price id is missing or empty; otherwise a session is requested, answering 200 iff the provider created it and 500 if it failed |
| CreateCheckout.SessionOnlyWhenAdmitted | src/pages/api/create-checkout.ts:42-134 | a session is requested iff the origin is allowed, the rate slot is free, the size is within 10 KiB, the body parsed and the price id is non-empty; a 400 requests none |
| CreateCheckout.SessionRedirectsToAllowedOrigin | src/pages/api/create-checkout.ts:108-133 | the success and cancel URLs start with an allowed origin; the session has the body's price, quantity 1, and the tier or "pro" in both metadata blocks, and the body's email pre-filled only when present |
| CreateCheckout.SafeOriginIsDeclaredOrigin | src/pages/api/create-checkout.ts:12-16 | for an admitted, present origin the redirect origin is that origin itself (no allowed origin is a prefix of another) |
| CreateCheckout.PrefixNotExact | src/pages/api/create-checkout.ts:47-109 | "https://zodforge.dev/pricing" is refused as an origin, yet a request with no origin header and that referer is redirected to https://zodforge.dev |
| CreateCheckout.Post | src/pages/api/create-checkout.ts:42-176 | the handler run against the limiter: its response, session request and new table are exactly those of `Handle` on the old table |
| CreateCheckout.Handle | src/pages/api/create-checkout.ts:42-176 | the whole checkout handler as a function. A 403 or 429 leaves the table unchanged and requests no session, and a requested session answers 200 or 500. `ForbiddenFirst`, `RateCheckedSecond`, `CheckOrderAfterRate`, `SessionOnlyWhenAdmitted` and `SessionRedirectsToAllowedOrigin` give the rest |
| ApiKeys.HexValue | src/pages/api/webhook.ts:26 | every lowercase hex digit is the digit of exactly one value 0..15 |
| ApiKeys.PadStart | src/pages/api/webhook.ts:26 | `padStart`: the result has length max(len, width), ends with the input, and is filled on the left |
| ApiKeys.ByteToHexIsTwoDigits | src/pages/api/webhook.ts:26 | `byte.toString(16).padStart(2, '0')` is the high nibble's digit followed by the low nibble's |
| ApiKeys.EncodeBytesIsHexEncode | src/pages/api/webhook.ts:26 | `Array.from(bytes, …).join('')` equals the byte-by-byte two-digit encoding |
| ApiKeys.HexEncodeShape | src/pages/api/webhook.ts:26 | the encoding has 2 digits per byte, byte i at positions 2i and 2i+1, all lowercase hex |
| ApiKeys.GenerateApiKey | src/pages/api/webhook.ts:22-27 | the key is "zf_" followed by two lowercase hex digits per byte, the i-th byte's high and low nibble at 3+2i and 4+2i (the script's copy at resend-email-manual.ts:47-51 has the same encoding) |
| ApiKeys.KeyLength | src/pages/api/webhook.ts:24-26 | a key from 32 bytes has 67 characters |
| ApiKeys.DecodeEncode | src/pages/api/webhook.ts:26 | decoding the hex encoding gives back the bytes |
| ApiKeys.EncodeDecode | src/pages/api/webhook.ts:26 | any string that decodes is the encoding of what it decodes to: the decoder accepts exactly the canonical lowercase encodings |
| ApiKeys.ParseGenerate | src/pages/api/webhook.ts:26 | parsing a generated key gives back the random bytes |
| ApiKeys.GenerateInjective | src/pages/api/webhook.ts:26 | different random bytes give different keys |
| ApiKeys.Preview | docs/troubleshooting/resend-email-manual.ts:190 | `substring(0, 20)`: a prefix of the key, of length 20 when the key has at least 20 characters, and the whole key when it is shorter |
| ApiKeys.PreviewOfGeneratedKey | docs/troubleshooting/resend-email-manual.ts:97-190 | the printed preview of a new key is "zf_" and 17 hex digits |
| Customers.SetSubscriptionStatus | src/pages/api/webhook.ts:191-194 | every row of that provider customer gets the new status; every other row and field is unchanged |
| Customers.SetApiKeyHash | docs/troubleshooting/resend-email-manual.ts:103-106 | every row with that email gets the new hash; every other row and field is unchanged |
| Customers.FirstWithEmail | docs/troubleshooting/resend-email-manual.ts:63-67 | the index of the first row with the email, or none only when no row has it |
| Customers.SelectSingleByEmail | docs/troubleshooting/resend-email-manual.ts:63-67 | `.single()` returns a row iff exactly one row has the email, and then that row |
| Customers.CustomerTable.Insert | src/pages/api/webhook.ts:157-173 | a successful insert appends the record; a failed one changes nothing and reports the error |
| Customers.CustomerTable.UpdateSubscriptionStatus | src/pages/api/webhook.ts:191-200 | on success the rows become `SetSubscriptionStatus` of the old rows; otherwise unchanged |
| Customers.CustomerTable.UpdateApiKeyHash | docs/troubleshooting/resend-email-manual.ts:103-111 | on success the rows become `SetApiKeyHash` of the old rows; otherwise unchanged |
| Customers.CustomerTable.SelectSingle | docs/troubleshooting/resend-email-manual.ts:63-73 | a failed call finds nothing; a successful one finds the single row with the email |
| OnboardingEmail.ComposeApiKeyEmail | src/pages/api/webhook.ts:35-40 | the email goes from the onboarding sender to the customer and carries the given key and tier |
| OnboardingEmail.TierCopy | src/pages/api/webhook.ts:84-87 | "5,000" requests and priority support iff the tier is "pro"; "Unlimited" and dedicated support for any other tier |
| Webhook.Post | src/pages/api/webhook.ts:108-220 | the handler run against the table: response, new rows, inserted record and sent email are exactly those of `Handle` on the old rows |
| Webhook.Handle | src/pages/api/webhook.ts:108-220 | the whole webhook handler as a function. An inserted record is appended once and holds the hash of the generated key. Without an insert, no row is added. An email goes out only with a 200 after an insert, and the stored hash is the hash of the key it carries. The lemmas below give each event type |
| Webhook.MissingSignatureRejected | src/pages/api/webhook.ts:111-115 | without a signature the answer is 400 whatever the body verifies to, and nothing changes |
| Webhook.RejectedBeforeAnyEffect | src/pages/api/webhook.ts:111-129 | 400 iff the signature is missing or fails verification; a 400 stores nothing and sends nothing |
| Webhook.CheckoutWithoutEmailFails | src/pages/api/webhook.ts:144-150 | a completed checkout without an email answers 500 before any key, insert or email |
| Webhook.CheckoutProvisions | src/pages/api/webhook.ts:144-181 | a failed insert answers 500 and sends nothing. After a successful insert: exactly one active row is appended, holding the hash of the new key, the tier or "pro", the email and the customer id. The email carries the key whose hash was stored; if the email fails, the answer is 500 but the row stays |
| Webhook.SubscriptionStatusSync | src/pages/api/webhook.ts:184-201 | an update or deletion always answers 200. On success only that customer's statuses change; on failure nothing changes |
| Webhook.OtherEventIgnored | src/pages/api/webhook.ts:204-211 | an event whose type is none of the three handled ones answers 200 and changes nothing |
| Webhook.RetryDuplicatesCustomer | src/pages/api/webhook.ts:157-178 | an email failure followed by the provider's retry leaves two rows for the same customer, holding the hashes of the keys made from the first and the second delivery's random bytes |
| ResendScript.TierOrDefault | docs/troubleshooting/resend-email-manual.ts:118 | `customer.tier \|\| 'pro'`: "pro" when the stored tier is empty, the stored tier otherwise |
| ResendScript.ResendEmail | docs/troubleshooting/resend-email-manual.ts:58-204 | the script run against the table: result, new rows and sent email are exactly those of `Run` on the old rows |
| ResendScript.Run | docs/troubleshooting/resend-email-manual.ts:58-204 | the whole script as a function. An email is sent iff the run ends `Done`, to the given address, with the newly generated key. A lookup or update failure leaves the table unchanged. The lemmas below give each exit |
| ResendScript.LookupFailureStops | docs/troubleshooting/resend-email-manual.ts:63-73 | the script stops at the lookup iff the call fails or the email is not on exactly one row; then nothing is updated or sent; exit code 0 only for a completed run |
| ResendScript.UpdateFailureStops | docs/troubleshooting/resend-email-manual.ts:103-111 | a failed update exits with code 1 before the email, with the table unchanged |
| ResendScript.RekeyOverwritesOnlyHash | docs/troubleshooting/resend-email-manual.ts:83-106 | whether or not a hash already exists, the customer's one row gets the new key's hash and nothing else changes |
| ResendScript.DoneDeliversNewKey | docs/troubleshooting/resend-email-manual.ts:118-190 | a successful run exits 0 and has emailed the new key with the stored tier, or "pro" when that is empty; the stored hash is the hash of the emailed key; the preview is the key's first 20 characters |
| ResendScript.EmailFailureAfterRekey | docs/troubleshooting/resend-email-manual.ts:108-203 | an email failure after the update exits 1 with the new hash already stored and no email handed to a send call that returned |
| ResendScript.EmailedKeyInWebhookFormat | docs/troubleshooting/resend-email-manual.ts:47-51 | the emailed key has the webhook's format (67 characters, "zf_"), and parsing it recovers the 32 bytes |

## Left out

- The payment provider's SDK is not modelled. Webhook signature verification is an input (`Verification`), and checkout-session creation is an input (`SessionResult`). The constant session options (mode, card payment, promotion codes, billing address) are not recorded.
- SHA-256 is a function parameter `hash`. No property of it is assumed beyond being a function.
- Random bytes (`getRandomValues`, `randomFillSync`) are the `Entropy` input.
- The database and email services are given outcomes (`DbResult`, `SendResult`). The insert's returned row, the `created_at` clock and network errors in general are not modelled beyond success or failure.
- The email's HTML, its subject line, `toUpperCase` and the current year are not modelled. Only the sender, the recipient, the key, the tier and the tier-dependent copy are kept.
- Logging, the script's command-line and environment checks, and `process.exit` are not modelled. The script's `ExitCode` stands for how it ends.
- CreateCheckout.Admitted: the 500 response carries no message. The development-only detailed error text (create-checkout.ts:161-168) is not modelled.
- CreateCheckout.Handle: `request.json()` is either a parsed body or a failure (500), and the price id, tier and email are optional strings. A price id that is a non-string truthy JSON value is not modelled.
- CreateCheckout.TooLarge: takes the content length after `parseInt`. `None` stands for an absent or non-numeric header, whose `NaN` never compares greater. The digit-prefix parsing of `parseInt` itself is not modelled.
- RateLimiting.RateLimiter.CheckRateLimit: the in-place `limit.count++` on the stored object is modelled as replacing the map entry. No other reference to that object exists, so nothing is lost by this.
- Concurrent requests racing on the rate table are not modelled; calls are sequential.
- Stale rate-table entries are never removed, as in the code. Memory growth is not modelled.
- `src/middleware.ts` (security headers) is not part of this model.
