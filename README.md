# SwitchBot CO2 monitor worker — a Dafny model

The worker is a scheduled Cloudflare Worker. Each scheduled run does four things:

- It finds the CO2 sensor among the SwitchBot devices.
- It reads that sensor's status.
- It keeps one key, `co2_alert_active`, in a KV namespace.
- It pushes a LINE message when CO2 reaches 3000 ppm.

The alert is edge-triggered. Only the cycle that moves the alert from inactive to active sends a message. Later cycles above the threshold are suppressed. A reading below the threshold clears the key silently. A failed delivery leaves the key absent, so the next cycle tries again. A failed SwitchBot call aborts the cycle and changes nothing.

Modules:

- `Wrappers` (`wrappers.dfy`): `Option` and `Result`.
- `SwitchBot` (`switchbot.dfy`): device and response datatypes. It also holds the response check used by both API calls, the `includes("CO2")` device filter as a recursive search, and `ReadSensor`, which chains discovery and the status fetch.
- `Signer` (`signer.dfy`): the signed message `token + t + nonce`. It also holds the decimal timestamp, ASCII upper-casing, the signature and the request headers. UTF-8 encoding, HMAC-SHA256 (RFC 2104 over FIPS 180-4) and base64 (section 4 of RFC 4648) are uninterpreted. They are fields of a `Crypto` value that callers supply.
- `AlertState` (`alert.dfy`): the decision of one cycle as the function `Cycle`, and the KV namespace as the class `AlertStateStore`. It also holds the `scheduled` handler as the method `Scheduled`. That method changes the store through the three KV helpers, and its contract ties it to `Cycle`.
- `AlertRuns` (`runs.dfy`): a sequence of cycles and what the edge-triggered alert guarantees over time.

The network is modelled as inputs, not as calls:

- `Scheduled` receives the `GET /devices` response.
- It receives a function that gives the status response for each device id.
- `delivered` is the value `sendLineMessage` returns if it is called.
- `now` is the ISO timestamp.

An `Action` result records whether the messaging API was called: `Notified` or `DeliveryFailed`.

A failed delivery leaves the alert absent although the reading was at or above the threshold; `AlertReflectsLastReading` and `OneNotificationPerCrossing` state what holds. The threshold is the constant 3000.

The device filter first tests for the exact type `"MeterPro(CO2)"`. Then it tests whether the type contains `"CO2"`. `CO2SensorIsSubstringMatch` shows that the exact test is subsumed. Any device type that contains `CO2` is accepted, and the first such device in list order is chosen.

## Model

| member | source | states |
|---|---|---|
| SwitchBot.CheckResponse | src/index.ts:96-104 | a response is accepted exactly when the HTTP status is 2xx and the envelope's `statusCode` is 100; otherwise it is an HTTP error carrying status and text, or an API error carrying the message |
| SwitchBot.GetDeviceStatus | src/index.ts:121-137 | the status body is returned exactly when the response is 2xx with `statusCode` 100; its errors are never "device not found" |
| SwitchBot.ContainsIff | src/index.ts:108 | the recursive `includes` holds exactly when the substring occurs at some index |
| SwitchBot.CO2SensorIsSubstringMatch | src/index.ts:106-109 | a device qualifies exactly when its type contains "CO2"; the exact "MeterPro(CO2)" test adds nothing |
| SwitchBot.FirstCO2Sensor | src/index.ts:107-109 | the result is the index of a qualifying device with no qualifying device before it; it is absent only when no device qualifies |
| SwitchBot.FindCO2SensorDeviceId | src/index.ts:91-116 | transport and status-code failures are rejected before filtering; on success the id is that of the first qualifying device; with a valid response and no qualifying device the error is "not found" |
| SwitchBot.ReadSensor | src/index.ts:216-219 | a discovery error is passed on unchanged and no status is read; otherwise the reading succeeds exactly when the status response for the found id is valid, and it is that response's body |
| Signer.SignedMessage | src/index.ts:64 | the message is the token, then the timestamp, then the nonce, with no separators |
| Signer.SignedMessageInjective | src/index.ts:64 | for one token and nonces of equal length, equal messages have equal timestamps and nonces |
| Signer.SignedMessageAmbiguous | src/index.ts:64 | without a fixed nonce length, different timestamp/nonce splits give the same message |
| Signer.Decimal | src/index.ts:75 | `Date.now().toString()` is a non-empty string of decimal digits with no leading zero |
| Signer.DecimalRoundTrip | src/index.ts:75 | reading the timestamp string back as a decimal number gives the original milliseconds |
| Signer.DecimalInjective | src/index.ts:75 | different instants give different timestamp strings |
| Signer.UpperChar | src/index.ts:68 | upper-casing one ASCII character shifts `a`–`z` to `A`–`Z` and leaves everything else alone |
| Signer.UpperAscii | src/index.ts:68 | upper-casing keeps the length and upper-cases each character in place |
| Signer.UpperAsciiIdempotent | src/index.ts:68 | upper-casing twice equals upper-casing once, and no lower-case letter is left |
| Signer.Signature | src/index.ts:63-69 | the signature is the base64 of the HMAC-SHA256 of token, then `t`, then nonce under the secret, upper-cased character by character: same length, each character the ASCII upper case of the base64 character at that position, so no lower-case letter |
| Signer.SignatureDependsOnMessage | src/index.ts:63-69 | the signature is deterministic and depends on token, timestamp and nonce only through their concatenation |
| Signer.Headers | src/index.ts:74-86 | the headers carry the token as `Authorization`, the nonce, as `t` the canonical decimal of the current time (non-empty digits, no leading zero, value `now`), JSON content type, and the signature of exactly that token, `t` and nonce |
| Signer.HeadersSignDistinctMessages | src/index.ts:74-86 | two requests at different instants, or with different nonces of one length, sign different messages |
| AlertState.Cycle | src/index.ts:215-252 | a failed read aborts with the state unchanged; only raising and clearing change state; the message is sent exactly when the alert is inactive and CO2 ≥ 3000; after a reading the alert is active exactly when CO2 ≥ 3000 and it was active or delivery succeeded; raising records the reading and time; an active alert above threshold is `Suppressed`, an inactive one below threshold is `Idle` |
| AlertState.AlertStateStore.IsAlertActive | src/index.ts:172-175 | the alert is reported active exactly when the key is present |
| AlertState.AlertStateStore.SetAlertActive | src/index.ts:180-182 | only the alert key is written, and afterwards it holds the CO2 value and timestamp |
| AlertState.AlertStateStore.ClearAlertState | src/index.ts:187-189 | only the alert key is deleted, and afterwards the alert is inactive |
| AlertState.Scheduled | src/index.ts:215-252 | the new state and action are those of `Cycle` on the old state and the sensor reading; other keys are untouched; one clause per row of the decision table: raise on delivery, retry after a failed delivery, suppress while active, clear on recovery, idle below threshold, swallow read errors with no write |
| AlertRuns.OneNotificationPerCrossing | src/index.ts:225-241 | while no reading is below threshold, the cycles deliver exactly one message if they start inactive and some delivery succeeds, and none otherwise; the run ends active exactly when it started active or some delivery succeeded |
| AlertRuns.NotificationsBoundedByRecoveries | src/index.ts:225-247 | messages delivered, plus one if the run ends inactive, never exceed the below-threshold readings, plus one if it starts inactive |
| AlertRuns.NoRepeatWithoutRecovery | src/index.ts:225-247 | cycles that start from an active alert (every cycle after a delivered message) and deliver a message contain a processed reading below threshold: no two messages arrive without a recovery between them |
| AlertRuns.AlertReflectsLastReading | src/index.ts:215-252 | with no processed reading the state is untouched; if the last processed reading is below threshold the alert is inactive |
| AlertRuns.RunKeepsWellFormed | src/index.ts:225-234 | a stored alert always records a reading at or above the threshold |

## Left out

- Network I/O: the `fetch` calls to SwitchBot and LINE, `response.json()` and `response.text()`. Their results are inputs. JSON that fails to parse, or that lacks `body.deviceList`, is not modelled.
- `sendLineMessage` is not modelled beyond its boolean result. The request it builds (bearer token, recipient, text payload) is I/O formatting.
- `buildAlertMessage` (display text built from JavaScript numbers) and all console logging are left out.
- The debug `fetch` handler returns fixed instructions and has no logic, so it is left out.
- Crypto and randomness are uninterpreted: the `TextEncoder`, `crypto.subtle.importKey`/`sign`, `btoa`, `crypto.randomUUID`, `Date.now` and `new Date().toISOString()`. So are failures of the crypto primitives.
- Signer.Signature: the fixed base64 length and HMAC collision resistance are not stated, because the primitives are uninterpreted. Only distinct signed messages are proved.
- Readings are whole numbers, not JavaScript floating-point numbers. A status body without a `CO2` field is not modelled. In JavaScript `undefined >= 3000` is false, so the code would treat such a reading as below the threshold.
- KV operations are assumed to succeed. The model does not cover `get`, `put` or `delete` throwing. In particular, it does not cover a `put` that fails after a delivered message.
- Overlapping scheduled runs racing on the KV key are not modelled. The model covers sequential cycles only.
- `src/env.d.ts` holds type declarations only.
