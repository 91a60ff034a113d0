# SalesManago API client, modelled in Dafny

A model of the PHP client for the SalesManago marketing-automation REST API
(`Pixers\SalesManagoAPI\Client`). The client is built from a Guzzle HTTP client,
a client id, an endpoint, an API secret and an API key. It normalises the
endpoint to end in exactly one `/` and refuses a PHP-empty configuration value.
Every request:

- goes to the endpoint followed by the API method;
- carries an authentication envelope (`clientId`, `apiKey`, `requestTime` and
  `sha`, the SHA-1 of API key, client id and API secret) merged with the caller's
  data, with nulls dropped;
- is sent with the Guzzle options `json` and `http_errors: false`, which the
  caller's options may override.

The response is accepted only if it decodes as JSON to an object whose `success`
property is truthy. Otherwise an `InvalidRequestException` is raised.

Files:

- `wrappers.dfy`: `Option` and `Result`.
- `php.dfy` (module `Php`): PHP values (`Value`) and PHP's truthiness (`Truthy`).
  It also holds `rtrim` for one character (`RTrim`), `array_merge` on string keys
  (`ArrayMerge`) and `array_filter` that drops nulls (`WithoutNulls`).
- `client.dfy` (module `SalesManago`): the configuration, the errors and the
  class `Client`.
  - The class has the constructor and the configuration loop (`CheckConfig`).
  - `Create` stands for `new Client(...)`, which either returns a client or throws.
  - It also has `AuthData`, `MergeData`, `TransportOptions`, `Classify`,
    `DoRequest`, `DoPost` and `DoGet`.
- `examples.dfy` (module `SalesManagoExamples`): concrete cases, such as the
  merge `{a:1,b:2}` + `{b:null,c:3}` and the `success` bodies.

PHP's `time()`, `sha1()` and Guzzle's `Utils::jsonDecode` are not modelled. They
are the fields of a `Builtins` value passed to each request. The Guzzle client is
a function from the request (method, URL, options) to the response body. It is
stored in the client as the source stores `$guzzleClient`.

Every configuration value is checked with `empty()`. The endpoint is normalised
before the check (`Client.php:38`), so the stored endpoint always ends in `/`, and
the `endpoint` check can never fire:
`""` and `"///"` are accepted and become `"/"` (`ConfigErrorCases`,
`EndpointNeverRejected`). "Empty" means PHP's `empty()`: `""` and `"0"`. A
whitespace-only value is accepted.

## Model

| member | source | states |
|---|---|---|
| Php.RTrim | src/Pixers/SalesManagoAPI/Client.php:38 | `rtrim($s, '/')` is a prefix of s, everything it removes is `/`, and it does not itself end in `/` |
| Php.RTrimUnique | src/Pixers/SalesManagoAPI/Client.php:38 | those three properties determine the result of `rtrim`: no other prefix has them |
| Php.ArrayMerge | src/Pixers/SalesManagoAPI/Client.php:126 | `array_merge` with string keys has every key of both arrays; the second array wins on shared keys, and the other keys keep the first array's value |
| Php.WithoutNulls | src/Pixers/SalesManagoAPI/Client.php:126 | `array_filter(..., fn ($v) => $v !== null)` keeps exactly the entries that are not null, with their values unchanged |
| SalesManago.NormalizedEndpointShape | src/Pixers/SalesManagoAPI/Client.php:38 | the stored endpoint is the input without its trailing `/` plus exactly one `/`; it ends in `/`, never in `//`, and is never PHP-empty |
| SalesManago.NormalizeEndpointIdempotent | src/Pixers/SalesManagoAPI/Client.php:38 | normalising an already normalised endpoint leaves it unchanged |
| SalesManago.FirstEmptyIndex | src/Pixers/SalesManagoAPI/Client.php:43-47 | the index `foreach` stops at: every earlier value is truthy, and the value at the index (if any) is PHP-empty |
| SalesManago.ConfigErrorOrder | src/Pixers/SalesManagoAPI/Client.php:36-47 | the check passes iff all four values are truthy; otherwise it throws `<key> parameter is required` with the value, for the first empty key in the order client_id, endpoint, api_secret, api_key |
| SalesManago.ConfigErrorCases | src/Pixers/SalesManagoAPI/Client.php:28-48 | in terms of the constructor's arguments: construction succeeds iff none of client id, API secret and API key is `""` or `"0"`; otherwise the first of them in that order is named |
| SalesManago.EndpointNeverRejected | src/Pixers/SalesManagoAPI/Client.php:36-47 | no endpoint argument, not even `""` or `"///"`, makes construction throw for the `endpoint` key |
| SalesManago.Client.constructor | src/Pixers/SalesManagoAPI/Client.php:35-41 | stores the transport and the configuration with the endpoint normalised |
| SalesManago.Client.CheckConfig | src/Pixers/SalesManagoAPI/Client.php:43-47 | the loop over the configuration array reports exactly the exception of the first PHP-empty entry, or none |
| SalesManago.Client.Create | src/Pixers/SalesManagoAPI/Client.php:28-48 | `new Client(...)` throws exactly when the configuration check fails, with that check's exception; otherwise it returns a fresh client holding the normalised configuration and the given transport |
| SalesManago.Client.AuthDataShape | src/Pixers/SalesManagoAPI/Client.php:107-115 | the envelope has exactly the keys clientId, apiKey, requestTime and sha; clientId and apiKey are the configured client id and API key; `sha` is the digest of apiKey ++ clientId ++ apiSecret; two envelopes with the same digest function differ only in requestTime |
| SalesManago.Client.MergeData | src/Pixers/SalesManagoAPI/Client.php:124-127 | every result key comes from base or replacements; a non-null replacement wins; a non-null base value without a replacement stays; a null replacement removes the key, and so does a null base value without a replacement; no result value is null; every result value is the replacement's if there is one, else the base's |
| SalesManago.Client.PayloadCarriesAuth | src/Pixers/SalesManagoAPI/Client.php:81 | the data sent keeps each envelope field the caller's data does not mention; its keys come from the envelope or the caller's data; a null in the caller's data removes the key, envelope fields included |
| SalesManago.Client.TransportOptions | src/Pixers/SalesManagoAPI/Client.php:83-89 | the Guzzle options are `json` (the merged data) and `http_errors` (false), overridden key by key by the caller's options; the caller can replace both |
| SalesManago.Client.RequestUrl | src/Pixers/SalesManagoAPI/Client.php:80 | the URL is the endpoint without trailing slashes, then `/`, then the API method exactly as given (a leading `/` is kept, giving `//`) |
| SalesManago.Client.Classify | src/Pixers/SalesManagoAPI/Client.php:90-100 | a decode failure gives a parse failure with the decoder's error as cause; a decoded value is accepted, unchanged, iff it is an object with a `success` property whose value is truthy; anything else is rejected |
| SalesManago.Client.DoRequest | src/Pixers/SalesManagoAPI/Client.php:78-101 | sends one request. It returns the decoded object unchanged exactly when it is accepted, and that object has a truthy `success`. Otherwise it fails with the method, the URL, the merged data and the body. The decoder's error is the previous exception exactly when decoding failed |
| SalesManago.Client.DoPost | src/Pixers/SalesManagoAPI/Client.php:56-59 | `doPost` is `doRequest` with `POST` |
| SalesManago.Client.DoGet | src/Pixers/SalesManagoAPI/Client.php:67-70 | `doGet` is `doRequest` with `GET` |
| SalesManagoExamples.EndpointExamples | src/Pixers/SalesManagoAPI/Client.php:38 | `https://api.test` with zero, one or three trailing slashes becomes `https://api.test/`; `""` and `"///"` become `"/"` |
| SalesManagoExamples.UrlExamples | src/Pixers/SalesManagoAPI/Client.php:80 | endpoint `https://api.test` with `contact/upsert` gives `https://api.test/contact/upsert`, and with `/contact/upsert` gives `https://api.test//contact/upsert` |
| SalesManagoExamples.MergeDataExample | src/Pixers/SalesManagoAPI/Client.php:124-127 | `{a:1,b:2}` merged with `{b:null,c:3}` is `{a:1,c:3}` |
| SalesManagoExamples.ClassifyExamples | src/Pixers/SalesManagoAPI/Client.php:90-100 | some cases. Accepted: `{"success":true,"foo":"bar"}` (unchanged) and `{"success":"false"}`. Rejected: `{"success":false}`, `{}`, `{"success":null}`, `{"success":"0"}`, a JSON array and `null`. A decode error is a parse failure |

## Left out

- The Guzzle transport is a total, deterministic function from the request to the response body. Network failures, transport exceptions and the response status are not modelled. Neither is the JSON encoding of the `json` option.
- `Utils::jsonDecode`, `sha1` and `time()` are foreign. They are the fields of `Builtins`: a decoder outcome (error message or PHP value), a digest function on strings and a clock reading.
- Floating-point JSON numbers are not part of `Php.Value`.
- PHP arrays are ordered, but the model's are maps. The key order of the data sent and of the options is not modelled.
- `array_merge` renumbers numeric keys. The model has string keys only, as the source's docblocks state.
- The exception classes `InvalidArgumentException` and `InvalidRequestException` are not part of this model beyond the values passed to them. `InvalidRequest.response` holds the response body, not the Guzzle response object.
- Default arguments (`$data = []`, `$options = []`) are not modelled. Callers pass the empty map.
- tests/bootstrap.php sets up autoloading and holds no client logic.
