# TryOto SDK core, modelled in Dafny

The TryOto PHP SDK turns calls such as "create a shipment" or "track a
shipment" into authenticated HTTP requests against the TryOto shipping API.
This project models its sequential core and proves properties of it:

- **Configuration holder** (`Config.TryOtoConfig`): a string-keyed array
  built by `array_merge` of the user's options over fixed defaults. It has
  typed getters, a `get` with a fallback and an in-place `set`. The base URL
  getter strips every trailing `/` and then appends exactly one.
- **Request executor** (`Http.HttpClient`): verb helpers build the transport
  options (`query` for GET, `json` for POST and PUT, nothing for DELETE).
  `request` strips leading `/` from the endpoint and adds `debug => true` only
  when the configuration asks for it. It always sets `verify` from the
  configuration, issues one transport call and wraps a transport failure as
  an API error.
- **Shipment and tracking services** (`Shipment.ShipmentService`,
  `Tracking.TrackingService`): required-field validation first, then one call
  with a fixed verb and path. PHP `empty()` is modelled exactly: `""` and `"0"`
  are empty strings, and an absent, null or empty field counts as missing.

The HTTP transport is a recorder (`Transport.Recorder`). It keeps the log of
every request descriptor `(verb, path, options)` it was handed. It answers
every call either with a scripted reply body or with a scripted failure. This
makes "no call" and "exactly one call" statable: every service method's
contract gives the new log in terms of the old one.

PHP values are the tagged datatype `Php.Value` (null, bool, int, string,
list, string-keyed array). The PHP builtins the core relies on are modelled
in module `Php`: `empty`, `(bool)`, `(int)`, scalar-to-string coercion,
`rtrim` and `ltrim` with a one-character mask, `array_merge`, `$a[$k]` and
`??`. PHP raises a TypeError when a getter meets an array where it needs a
string, or null where it must return a string; the model returns `None` there.

Files: `wrappers.dfy` (Option), `php.dfy`, `transport.dfy`, `errors.dfy`
(the validation and API error kinds), `config.dfy` (src/Config/TryOtoConfig.php),
`http.dfy` (src/Http/HttpClient.php), `shipment_service.dfy`
(src/Services/ShipmentService.php), `tracking_service.dfy`
(src/Services/TrackingService.php), and `scenarios.dfy` (end-to-end scenarios:
tracking and creating over a default configuration with a transport that
succeeds, and cancelling with debugging on over a transport that fails).

## Model

| member | source | states |
|---|---|---|
| Php.IsEmptyString | src/Services/ShipmentService.php:68 | `empty($s)` on a string holds exactly for the zero-length string and the one-character string "0" |
| Php.Empty | src/Services/TrackingService.php:69 | `empty($v)` holds exactly for null, false, 0, "", "0", the empty list and the empty array |
| Php.EmptyAt | src/Services/ShipmentService.php:110 | `empty($a[$k])` is `empty` of the value `$a[$k]` reads, so an absent key counts as empty |
| Php.ToBool | src/Config/TryOtoConfig.php:67 | the `(bool)` cast is false exactly for the values PHP `empty()` calls empty (null, false, 0, "", "0", empty arrays) |
| Php.Index | src/Config/TryOtoConfig.php:47 | reading `$config[$k]` yields the stored value when the key exists and null when it does not |
| Php.Coalesce | src/Config/TryOtoConfig.php:99 | `$a[$k] ?? $d` is the stored value when the key exists with a non-null value, and `$d` otherwise |
| Php.ArrayMerge | src/Config/TryOtoConfig.php:37 | the merged keys are the union of both key sets; every user key takes the user's value; every other default key keeps its default |
| Php.TrimRight | src/Config/TryOtoConfig.php:47 | `rtrim(s, '/')` is the prefix of `s` left after removing every trailing `/`: it does not end in `/`, and all removed characters are `/` |
| Php.TrimLeft | src/Http/HttpClient.php:107 | `ltrim(s, '/')` is the suffix of `s` left after removing every leading `/`: it does not start with `/`, all removed characters are `/`, and a string not starting with `/` is unchanged |
| Php.ToInt | src/Config/TryOtoConfig.php:57 | the `(int)` cast keeps integers, maps booleans to 1/0, reads strings by their numeric prefix, and maps null and arrays to 0 when empty and 1 otherwise |
| Php.StringArgument | src/Config/TryOtoConfig.php:47 | the base URL passed to `rtrim` is coerced to a string: a string passes unchanged, an integer becomes its decimal form, true becomes "1" and false "", null becomes ""; only an array fails |
| Php.StringReturn | src/Config/TryOtoConfig.php:85-88 | a value returned as `string`: a string is returned unchanged, an integer as its decimal form, true as "1" and false as ""; it fails exactly when it is null or an array |
| Php.DecimalStringRoundTrip | src/Config/TryOtoConfig.php:57 | `(int)` applied to the decimal string form of an integer gives back that integer |
| Php.DecimalStringRoundTripAll | src/Config/TryOtoConfig.php:57 | the same round trip, stated for all integers at once |
| Transport.Recorder.constructor | src/Http/HttpClient.php:118 | a transport starts with an empty log and the given scripted failure or reply |
| Transport.Recorder.Send | src/Http/HttpClient.php:118 | a call appends exactly its request to the log, and then fails with the scripted failure or delivers the scripted reply |
| Errors.WrapFailure | src/Http/HttpClient.php:122-124 | a transport failure with message m and code c becomes an API error whose message is the fixed marker followed by m, whose code is c and whose cause is the failure |
| Config.NormalizeBaseUrl | src/Config/TryOtoConfig.php:47 | the result ends in `/` and not in `//`; without its final `/` it is a prefix of the input, and everything of the input past that prefix is `/` |
| Config.NormalizeBaseUrlIdempotent | src/Config/TryOtoConfig.php:47 | normalising a normalised URL leaves it unchanged |
| Config.NormalizeBaseUrlIgnoresTrailingSlashes | src/Config/TryOtoConfig.php:47 | appending any number of `/` to a URL does not change its normal form |
| Config.NormalizeBaseUrlExample | src/Config/TryOtoConfig.php:47 | "https://x.test", "https://x.test/" and "https://x.test///" all normalise to "https://x.test/" |
| Config.DefaultBaseUrlNormalized | src/Config/TryOtoConfig.php:16 | the default base URL is already in normal form |
| Config.TryOtoConfig.constructor | src/Config/TryOtoConfig.php:35-38 | the stored array is the user's options merged over the defaults, so every default key is present |
| Config.TryOtoConfig.GetBaseUrl | src/Config/TryOtoConfig.php:45-48 | a stored string base URL comes back normalised; every result ends in exactly one `/` and is a fixed point of normalisation; only an array stored there fails |
| Config.TryOtoConfig.GetTimeout | src/Config/TryOtoConfig.php:55-58 | an integer timeout is returned as stored; a missing or null one gives 0; true gives 1 and false 0; a string is read by the `(int)` cast, so the decimal form of an integer gives that integer |
| Config.TryOtoConfig.GetVerifySsl | src/Config/TryOtoConfig.php:65-68 | true exactly when the stored `verify_ssl` value is not PHP-empty |
| Config.TryOtoConfig.GetDebug | src/Config/TryOtoConfig.php:75-78 | true exactly when the stored `debug` value is not PHP-empty |
| Config.TryOtoConfig.GetVersion | src/Config/TryOtoConfig.php:85-88 | a stored string version is returned as is; null or an array fails |
| Config.TryOtoConfig.Get | src/Config/TryOtoConfig.php:97-100 | returns the stored value when the key is present and non-null, and the given default otherwise |
| Config.TryOtoConfig.Set | src/Config/TryOtoConfig.php:109-112 | the array afterwards is the old one with the key overwritten; `Get` on that key returns the new value (the default if it is null); every other key reads as before; default keys stay present |
| Config.DefaultGetters | src/Config/TryOtoConfig.php:15-21 | with no user options the getters return "https://apis.tryoto.com/", 30, true, false and "v1" |
| Config.MergedGetters | src/Config/TryOtoConfig.php:35-38 | each typed setting the user gave (timeout, verify_ssl, debug, version) is what its getter reads; each one left out reads as its default |
| Config.MergedBaseUrl | src/Config/TryOtoConfig.php:35-48 | a base URL the user gave comes back normalised; without one the default base URL comes back |
| Config.MergedReadBack | src/Config/TryOtoConfig.php:35-38 | every key the user gave, unknown keys included, reads back through `get` as given; every default key the user left out reads as its default |
| Http.TransportOptions | src/Http/HttpClient.php:109-115 | outgoing options always carry `verify` equal to the TLS setting; they carry `debug => true` when debugging and otherwise leave the caller's `debug` key, present or not, as it was; all other keys pass through unchanged |
| Http.Outgoing | src/Http/HttpClient.php:104-118 | the request sent has the given verb, a path with no leading `/` that is the endpoint minus its leading slashes, and the options with the configuration applied |
| Http.LeadingSlashesIgnored | src/Http/HttpClient.php:107 | any number of leading `/` on the endpoint produce the same outgoing request as none |
| Http.LeadingSlashExample | src/Http/HttpClient.php:107 | "/shipments" and "shipments" produce the same request, whose path is "shipments" |
| Http.Completion | src/Http/HttpClient.php:118-124 | a call succeeds exactly when the transport does not fail, returning its reply; a failure surfaces as the wrapped API error |
| Http.HelperOptions | src/Http/HttpClient.php:52-93 | GET sends exactly `query` and `verify`, POST and PUT exactly `json` and `verify`, DELETE only `verify`, each with `debug` added exactly when debugging |
| Http.HttpClient.constructor | src/Http/HttpClient.php:38-42 | the executor keeps the given transport and configuration |
| Http.HttpClient.Get | src/Http/HttpClient.php:52-55 | appends one GET whose options hold the parameters under `query` |
| Http.HttpClient.Post | src/Http/HttpClient.php:65-68 | appends one POST whose options hold the data under `json` |
| Http.HttpClient.Put | src/Http/HttpClient.php:78-81 | appends one PUT whose options hold the data under `json` |
| Http.HttpClient.Delete | src/Http/HttpClient.php:90-93 | appends one DELETE with no body key |
| Http.HttpClient.Request | src/Http/HttpClient.php:104-125 | appends exactly one request, with debug and TLS settings read from the configuration at call time, and returns the reply or the wrapped failure |
| Shipment.FieldRequired | src/Services/ShipmentService.php:111 | the message is the field name in single quotes followed by "' alanı gereklidir." |
| Shipment.FieldRequiredInjective | src/Services/ShipmentService.php:111 | two fields give the same message only if they are the same field |
| Shipment.Validation | src/Services/ShipmentService.php:109-115 | success means every required field is present and non-empty; a failure is the validation error naming a required field that is absent or empty |
| Shipment.FirstMissingIndex | src/Services/ShipmentService.php:109-113 | the position of the first required field that is absent or empty: every earlier field is present and non-empty |
| Shipment.ValidationNamesFirstMissing | src/Services/ShipmentService.php:99-113 | validation passes exactly when all four required fields are present and non-empty, and otherwise names the first missing one in the order alici_adi, adres, telefon, kargo_firmasi |
| Shipment.ValidationExamples | src/Services/ShipmentService.php:102-112 | an empty payload is refused naming `alici_adi`; a payload with all four fields passes |
| Shipment.ShipmentService.constructor | src/Services/ShipmentService.php:38-42 | the service builds its own, newly allocated executor over the shared transport and configuration |
| Shipment.ShipmentService.ValidateShipmentData | src/Services/ShipmentService.php:99-116 | checking the fields in order and stopping at the first missing one gives exactly the specified validation outcome |
| Shipment.ShipmentService.Create | src/Services/ShipmentService.php:51-57 | refused with no call when validation fails; otherwise exactly one POST to `shipments` with the data unchanged as the JSON body |
| Shipment.ShipmentService.Cancel | src/Services/ShipmentService.php:66-73 | refused with no call for "" or "0"; otherwise exactly one DELETE to `shipments/` followed by the tracking number |
| Shipment.ShipmentService.Update | src/Services/ShipmentService.php:83-90 | refused with no call for "" or "0"; otherwise exactly one PUT to `shipments/` followed by the tracking number, with the data unchanged |
| Tracking.BatchBody | src/Services/TrackingService.php:73-75 | the batch body holds the list under `tracking_numbers` and nothing else |
| Tracking.DateRangeQuery | src/Services/TrackingService.php:94-99 | the query holds exactly `start_date`, `end_date`, `page` and `limit` with the given values |
| Tracking.TrackingService.constructor | src/Services/TrackingService.php:38-42 | the service builds its own, newly allocated executor over the shared transport and configuration |
| Tracking.TrackingService.Track | src/Services/TrackingService.php:51-58 | refused with no call for "" or "0"; otherwise exactly one GET to `tracking/` followed by the tracking number, with an empty query |
| Tracking.TrackingService.MultiTrack | src/Services/TrackingService.php:67-76 | refused with no call for an empty list; otherwise exactly one POST to `tracking/batch` whose body is the list under `tracking_numbers` |
| Tracking.TrackingService.TrackByDateRange | src/Services/TrackingService.php:88-100 | refused with no call when either date is empty; otherwise exactly one GET to `tracking/date-range` with the date-range query, page 1 and limit 50 unless given |
| Scenarios.TrackScenario | src/Services/TrackingService.php:51-58 | with default settings, tracking "" is refused and logs nothing, and tracking "TRK123" logs one GET to `tracking/TRK123` with options `query => []` and `verify => true` |
| Scenarios.CreateScenario | src/Services/ShipmentService.php:51-57 | with default settings, creating from an empty payload is refused naming `alici_adi`, and a full payload logs one POST to `shipments` with that payload as the body |
| Scenarios.FailureScenario | src/Http/HttpClient.php:110-124 | with debugging on and a transport failing with "boom" and 500, cancelling makes one DELETE carrying `debug` and `verify`, and returns the API error "API isteği başarısız: boom" with code 500 and the failure as its cause |

## Left out

- src/TryOtoClient.php is not part of this model: building the Guzzle client, the bearer header, the service wiring and the one-line forwarding methods hold no logic of their own.
- The real HTTP transport (TLS, timeouts, headers, debug output) is replaced by the recorder. The recorder answers every call the same scripted way.
- `ResponseHelper::parseResponse` is not part of this model. Its source is not available. The recorder's scripted reply stands for the already-parsed response body.
- The courier, pricing, barcode and webhook services are not part of this model. Their source is not available.
- Php.Value has no floats, so float settings (a timeout of 2.5) and float casts are not modelled. PHP's 64-bit integer width and overflow are not modelled either: integers are unbounded.
- Php.StringToInt reads only leading whitespace, a sign and decimal digits. PHP 8 also reads exponent forms such as "1e3".
- Php.ArrayMerge treats every key as a string key. PHP turns integer-like keys such as "7" into integer keys and renumbers them from 0 when merging. The model does not capture that renumbering, nor the order of array entries.
- Php.StringArgument maps null to "" as PHP 8 does. The deprecation notice PHP 8.1 emits there is not modelled, nor the warning for an undefined index in Php.Index.
- Tracking.TrackingService.MultiTrack takes its tracking numbers as a list. A string-keyed array passed there is not modelled.
- The services keep a reference to the configuration that they never read. The model keeps only the reference inside the request executor.
- Only two error kinds are modelled: a validation error with its message, and an API error with message, code and cause. The getters' TypeErrors appear only as `None` from Config.TryOtoConfig.GetBaseUrl and Config.TryOtoConfig.GetVersion. Other exceptions, and the code a validation error carries, are not modelled.
- Request payloads and query parameters (Http.HttpClient.Get, Post, Put and the service methods that pass them on) are string-keyed maps. A PHP list or an array with integer keys passed as `$data` or `$params`, which would go out as a JSON array, is not modelled.
