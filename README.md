# Pushsafer Java client: `sendPushNotification`

This project models the one operation of the Pushsafer Java client, `DefaultPushsaferClient.sendPushNotification`, and proves its properties.

The operation works in five steps:

1. It builds the form parameters of a Pushsafer API request from a `PushNotification`:
   - first the private key `k`, the message `m` and the device `d`;
   - then one pair for each optional field that is present.
2. It throws a `NullPointerException` when the message or the device is missing.
3. It posts the form to `{baseUrl}/api` with the configured timeouts.
4. It turns the response status into a `SendPushNotificationResponse`.
5. It does the same for an exception raised while the request ran.

The project has three files:

- `wrappers.dfy` holds `Option`. It stands for `java.util.Optional` and for nullable references.
- `java_lang.dfy` models the Java library behaviour whose results reach the wire:
  - `String.valueOf(long)`, together with a reference reader that it is proved to round-trip with;
  - `Duration.toMinutes()`, which truncates toward zero;
  - the `(int)` narrowing cast of a `long`.
- `pushsafer_client.dfy` holds the rest:
  - the data model;
  - the reference definition `FormParameters` of the parameter list;
  - the classifier `Classify`;
  - the step-by-step builder methods and `SendPushNotification`;
  - the lemmas about all of these.

**The builder.** The builder is imperative, as in the source. `BuildUrlParameters` appends to a sequence one call at a time, through `AddIfPresent` and `AddMinutesIfPresent`, which model `ifPresent(... add ...)`. Each step is proved to produce `PairsUpTo(privateKey, n, i)`, the pairs of the first `i` fields that have a value. After the last field this is `FormParameters`. The lemmas about `FormParameters` establish:

- the key order;
- the multiplicity of each key;
- the value of each pair;
- the length of the list;
- that the three mandatory pairs come first.

**The classifier.** The classifier is a pure function. It is split the way the Java is:

- `TryBody` is the conditional chain inside the `try`. It may complete by throwing.
- `CatchClauses` covers the two `catch` clauses.

**Unrecognised status codes.** Line 79 throws `RuntimeException("Unknown error code: …")` inside the `try`. The `catch (Exception)` clause at line 83 turns it into `failureResponse(UNKNOWN)`. So no status code makes the call throw. `UnknownStatusCaught` states this.

## Model

| member | source | states |
|---|---|---|
| JavaLang.DecimalString | src/main/java/staygrounded/pushsafer/client/DefaultPushsaferClient.java:107 | `String.valueOf(long)`; a plain computing function without a contract of its own. `DecimalStringCanonical` states its shape and the value of its digits, and `DecimalRoundTrip` states that it can be read back |
| JavaLang.NatDigitsCanonical | src/main/java/staygrounded/pushsafer/client/DefaultPushsaferClient.java:106-108 | the decimal digits of a natural number are non-empty, all digits, and begin with `0` exactly when the number is 0 (then they are `"0"`) |
| JavaLang.DecimalStringCanonical | src/main/java/staygrounded/pushsafer/client/DefaultPushsaferClient.java:106-108 | `String.valueOf(long)` begins with `-` exactly for negative numbers; the digits after it are non-empty, have no leading zero unless the number is 0, and denote the magnitude |
| JavaLang.NatDigitsRoundTrip | src/main/java/staygrounded/pushsafer/client/DefaultPushsaferClient.java:106-108 | reading back the digits of a natural number gives that number |
| JavaLang.DecimalRoundTrip | src/main/java/staygrounded/pushsafer/client/DefaultPushsaferClient.java:106-108 | parsing the decimal rendering of any integer gives the integer back |
| JavaLang.DecimalStringInjective | src/main/java/staygrounded/pushsafer/client/DefaultPushsaferClient.java:106-108 | distinct numbers get distinct decimal renderings |
| JavaLang.ToMinutes | src/main/java/staygrounded/pushsafer/client/DefaultPushsaferClient.java:62 | whole minutes truncated toward zero: `60*m <= seconds < 60*m + 60` for non-negative durations, and `60*m - 60 < seconds <= 60*m <= 0` for negative ones |
| JavaLang.LongToInt | src/main/java/staygrounded/pushsafer/client/DefaultPushsaferClient.java:95-97 | the `(int)` cast lands in the 32-bit range and agrees with its argument modulo 2^32 |
| JavaLang.LongToIntInRange | src/main/java/staygrounded/pushsafer/client/DefaultPushsaferClient.java:95-97 | a `long` millisecond count that fits in 32 bits reaches the request configuration unchanged |
| PushsaferClient.WithUrlParameter | src/main/java/staygrounded/pushsafer/client/DefaultPushsaferClient.java:102-104 | `withUrlParameter(String, String)`; a plain computing function without a contract of its own. `MandatoryParametersFirst` and `FieldParameterValue` state the pairs it makes |
| PushsaferClient.WithLongUrlParameter | src/main/java/staygrounded/pushsafer/client/DefaultPushsaferClient.java:106-108 | the `long` overload keeps the name and sends the value in canonical decimal form: a `-` exactly for negative numbers, then at least one digit, with no leading zero unless the number is 0; the value parses back to the number it was given |
| PushsaferClient.AddIfPresent | src/main/java/staygrounded/pushsafer/client/DefaultPushsaferClient.java:55-61 | one `ifPresent` step takes the pairs of the fields before `f` to the pairs of the fields up to and including `f` |
| PushsaferClient.AddMinutesIfPresent | src/main/java/staygrounded/pushsafer/client/DefaultPushsaferClient.java:62 | the time-to-live step completes the list with the `l` pair, whole minutes in decimal, when there is a time-to-live |
| PushsaferClient.AddDisplayParameters | src/main/java/staygrounded/pushsafer/client/DefaultPushsaferClient.java:55-59 | after the mandatory pairs, the title, sound, vibration, icon and icon-colour steps give the pairs of every field up to the icon colour |
| PushsaferClient.AddLinkParameters | src/main/java/staygrounded/pushsafer/client/DefaultPushsaferClient.java:60-62 | the URL, URL-text and time-to-live steps complete the list to the full parameter list |
| PushsaferClient.BuildUrlParameters | src/main/java/staygrounded/pushsafer/client/DefaultPushsaferClient.java:51-62 | the builder fails (`requireNonNull`) exactly when the message or the device is missing, and otherwise produces `FormParameters` |
| PushsaferClient.SendPushNotification | src/main/java/staygrounded/pushsafer/client/DefaultPushsaferClient.java:49-99 | throws `NullPointerException`, with no request built, exactly when the message or the device is missing; otherwise posts one request to `baseUrl + "/api"` as a URL-encoded form holding `FormParameters`, with connect and connection-request timeouts from the connection duration and socket timeout from the response duration, and returns `Classify` of what executing it produced |
| PushsaferClient.HttpPostWithUrlEncodedForm | src/main/java/staygrounded/pushsafer/client/DefaultPushsaferClient.java:89-100 | the request keeps the given URI and form and has the URL-encoded content type; the connect and connection-request timeouts are equal; all three timeouts are 32-bit values, equal to the configured millisecond counts whenever those fit in 32 bits |
| PushsaferClient.TryBody | src/main/java/staygrounded/pushsafer/client/DefaultPushsaferClient.java:68-79 | the `try` body returns exactly for the status codes in the table of known codes, and returns that code's entry; it throws `SocketTimeoutException` exactly for a socket timeout |
| PushsaferClient.CatchClauses | src/main/java/staygrounded/pushsafer/client/DefaultPushsaferClient.java:80-86 | the two `catch` clauses; a plain computing function without a contract of its own. `Classify`'s ensures state what they return for every outcome, and `UnknownStatusCaught` states what they do with the line-79 exception |
| PushsaferClient.Classify | src/main/java/staygrounded/pushsafer/client/DefaultPushsaferClient.java:65-86 | for each result, exactly which outcomes produce it: 200 ⇔ Success; 250 or 255 ⇔ InvalidKey; 270 ⇔ InvalidDevice; 275 ⇔ InvalidDeviceGroup; 280 ⇔ ExceededApiCallsQuota; socket timeout ⇔ RequestTimedOut; any other exception or any other code ⇔ Unknown |
| PushsaferClient.ClassifyFollowsStatusTable | src/main/java/staygrounded/pushsafer/client/DefaultPushsaferClient.java:68-78 | a status code is classified by the table of known codes, and every code outside the table as Unknown |
| PushsaferClient.UnknownStatusCaught | src/main/java/staygrounded/pushsafer/client/DefaultPushsaferClient.java:79-85 | an unknown code makes the `try` body throw `RuntimeException("Unknown error code: " + code)`, and the generic `catch` turns it into Failure(Unknown) |
| PushsaferClient.PairsMatchFields | src/main/java/staygrounded/pushsafer/client/DefaultPushsaferClient.java:52-62 | after any number of steps, the list pairs up one to one with the fields so far that have a value, each pair holding that field's key and value |
| PushsaferClient.FieldsUpToOrdered | src/main/java/staygrounded/pushsafer/client/DefaultPushsaferClient.java:52-62 | the fields added so far come in strictly increasing position in the fixed order |
| PushsaferClient.FieldsUpToMembers | src/main/java/staygrounded/pushsafer/client/DefaultPushsaferClient.java:52-62 | a field has been added after `i` steps exactly when it is among the first `i` and has a value |
| PushsaferClient.FormParametersFollowFieldOrder | src/main/java/staygrounded/pushsafer/client/DefaultPushsaferClient.java:52-62 | the list holds one pair per field that has a value, with its key and value; keys follow the order k, m, d, t, s, v, i, c, u, ut, l; no key occurs twice |
| PushsaferClient.NamesDistinct | src/main/java/staygrounded/pushsafer/client/DefaultPushsaferClient.java:52-62 | no key occurs twice in the list |
| PushsaferClient.MandatoryPairs | src/main/java/staygrounded/pushsafer/client/DefaultPushsaferClient.java:51-54 | the first three steps give exactly `(k, privateKey)`, `(m, message)`, `(d, device)` |
| PushsaferClient.MandatoryParametersFirst | src/main/java/staygrounded/pushsafer/client/DefaultPushsaferClient.java:51-54 | the full list has at least three pairs and starts with `(k, privateKey)`, `(m, message)`, `(d, device)` in that order |
| PushsaferClient.PairsPrefix | src/main/java/staygrounded/pushsafer/client/DefaultPushsaferClient.java:55-62 | later steps only append: the list after `i` steps is a prefix of the list after `j >= i` steps |
| PushsaferClient.FieldParameterCount | src/main/java/staygrounded/pushsafer/client/DefaultPushsaferClient.java:55-62 | a field's key occurs exactly once when the field has a value and not at all when it has none |
| PushsaferClient.FieldParameterValue | src/main/java/staygrounded/pushsafer/client/DefaultPushsaferClient.java:55-62 | every pair under a field's key carries that field's value |
| PushsaferClient.FormParametersLength | src/main/java/staygrounded/pushsafer/client/DefaultPushsaferClient.java:51-62 | the list length is 3 plus the number of optional fields that are present |
| PushsaferClient.TimeToLiveParameter | src/main/java/staygrounded/pushsafer/client/DefaultPushsaferClient.java:62 | `l` occurs once exactly when there is a time-to-live; its value is the decimal rendering of the whole-minute count and reads back as that count |
| PushsaferClient.FlightDelayedExample | src/main/java/staygrounded/pushsafer/client/DefaultPushsaferClient.java:51-69 | a notification with a title and a 300-second time-to-live is sent as `k, m, d, t, l=5`, and status 200 is a success |

## Left out

- Executing the request is not modelled. This covers Apache HttpClient execution, connection pooling, TLS and socket I/O (lines 65-66). The transport is a parameter `execute` of `SendPushNotification`. It maps the request to a status code, a socket timeout or another exception.
- The `application/x-www-form-urlencoded` encoding done by `UrlEncodedFormEntity` (line 92) is library code. The model keeps the list of name/value pairs the entity receives. The `UnsupportedEncodingException` the helper declares is not modelled.
- `URL.toExternalForm()` and the sound, vibration and icon `get…Id()` getters are not modelled. Their results are opaque strings in `Notification`.
- `Duration.toMillis()` is not modelled. The two timeouts are given as the `long` millisecond counts it returns. Its `ArithmeticException` on overflow is not modelled either; in the code it would be caught and reported as UNKNOWN.
- JavaLang.Duration: a duration is represented by its `seconds` field alone. The nanosecond part does not change `toMinutes()`.
- Logging (`LOGGER.info`, `printStackTrace`) is left out. It has no effect on the result.
- The close of the try-with-resources response is not modelled. A close that throws would also be caught and reported as UNKNOWN.
- Client construction is not modelled: neither the non-null check on the private key nor the disabling of automatic retries (lines 42-46). The private key is an ordinary string of the `Client` value.
- Thread safety of the shared HTTP client is not part of the client's own logic.
- JVM `Error`s are not modelled. These are throwables that `catch (Exception)` does not catch.
- The configuration, its base URL and its two durations are taken to be non-null. The constructor stores the configuration without a check (line 44). In the code, a null configuration or a null duration throws a `NullPointerException` while the request is being built inside the `try` (lines 66, 95-97). The `catch (Exception)` clause turns that into UNKNOWN, and no request is posted. A null base URL is handed to the transport as `"null/api"`. The model's `SendPushNotification` always posts a request once the message and the device are present.
- The notification is taken to be non-null. In the code, a null `pushNotification` makes `getMessage()` at line 53 throw a `NullPointerException` before any request exists. The `try` has not been entered yet, so the exception leaves the call.
- The base URL is taken to form valid URI syntax once `/api` is added. In the code, `new HttpPost(requestUri)` at line 90 parses the string, and a malformed one (for example `"http://a b/api"`) throws `IllegalArgumentException`. That happens inside the `try`'s resource expression at line 66, so `catch (Exception)` at line 83 returns UNKNOWN and no request is executed. The model's `SendPushNotification` instead posts the request and classifies whatever executing it produced.
