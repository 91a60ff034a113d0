/**
 * The SalesManago API client: configuration checked at construction, a signed
 * authentication envelope merged into every request, and the check that the
 * service answered with a truthy `success` property.
 */
module SalesManago {
  import opened Wrappers
  import opened Php

  const METHOD_POST: string := "POST"
  const METHOD_GET: string := "GET"

  // Guzzle's request option names, `RequestOptions::JSON` and `RequestOptions::HTTP_ERRORS`.
  const JSON_OPTION: string := "json"
  const HTTP_ERRORS_OPTION: string := "http_errors"

  /** One entry of the configuration array. */
  datatype Entry = Entry(key: string, value: string)

  /** The client's configuration; `endpoint` is stored already normalised. */
  datatype Config = Config(clientId: string, endpoint: string, apiSecret: string, apiKey: string)
  {
    /** The configuration array in insertion order, the order `foreach` visits it in. */
    function Entries(): seq<Entry> {
      [Entry("client_id", clientId), Entry("endpoint", endpoint),
       Entry("api_secret", apiSecret), Entry("api_key", apiKey)]
    }
  }

  /** The `InvalidArgumentException` thrown at construction: its message and the offending value. */
  datatype InvalidArgument = InvalidArgument(message: string, parameter: string)

  function RequiredMessage(key: string): string {
    key + " parameter is required"
  }

  /** What `Utils::jsonDecode` does with a body: throws (with a message) or yields a value. */
  datatype Decoded = DecodeError(message: string) | Json(value: Value)

  /** The arguments of one call to the transport's `request($method, $url, $options)`. */
  datatype HttpRequest = HttpRequest(httpMethod: string, url: string, options: map<string, Value>)

  /**
   * The `InvalidRequestException` thrown by a request: the HTTP method, the URL,
   * the data sent, the raw response body and, for a body that is not JSON, the
   * decoder's error as the previous exception.
   */
  datatype InvalidRequest = InvalidRequest(
    httpMethod: string, url: string, data: map<string, Value>, response: string, previous: Option<string>)

  /** How a decoded response body is judged. */
  datatype Verdict = ParseFailure(cause: string) | Rejected | Accepted(response: Value)

  /**
   * The PHP built-ins the client calls but the model does not define: the clock
   * (`time()`), the `sha1` digest and Guzzle's JSON decoder.
   */
  datatype Builtins = Builtins(time: int, sha1: string -> string, jsonDecode: string -> Decoded)

  /** `rtrim($endPoint, '/') . '/'`. */
  function NormalizeEndpoint(endPoint: string): string {
    RTrim(endPoint, '/') + "/"
  }

  /**
   * The normalised endpoint is the input without its trailing slashes followed by
   * exactly one slash: it ends in "/", never in "//", and is never PHP-empty.
   */
  lemma NormalizedEndpointShape(endPoint: string)
    ensures var e := NormalizeEndpoint(endPoint);
      && |e| >= 1 && e[|e| - 1] == '/'
      && (|e| >= 2 ==> e[|e| - 2] != '/')
      && e[..|e| - 1] == endPoint[..|e| - 1]
      && (forall i :: |e| - 1 <= i < |endPoint| ==> endPoint[i] == '/')
      && Truthy(Str(e))
  {
  }

  /** Normalising a normalised endpoint changes nothing. */
  lemma NormalizeEndpointIdempotent(endPoint: string)
    ensures NormalizeEndpoint(NormalizeEndpoint(endPoint)) == NormalizeEndpoint(endPoint)
  {
  }

  /**
   * The index of the first entry whose value is PHP-empty, or |entries| when
   * there is none.
   */
  function FirstEmptyIndex(entries: seq<Entry>): (i: nat)
    ensures i <= |entries|
    ensures forall j :: 0 <= j < i ==> Truthy(Str(entries[j].value))
    ensures i < |entries| ==> !Truthy(Str(entries[i].value))
  {
    if entries == [] || !Truthy(Str(entries[0].value)) then 0
    else 1 + FirstEmptyIndex(entries[1..])
  }

  /** The exception the configuration check throws for `config`, if any. */
  function ConfigError(config: Config): Option<InvalidArgument> {
    var entries := config.Entries();
    var i := FirstEmptyIndex(entries);
    if i < |entries| then Some(InvalidArgument(RequiredMessage(entries[i].key), entries[i].value))
    else None
  }

  /**
   * The configuration check names the first PHP-empty value in the order client
   * id, endpoint, API secret, API key, and passes exactly when there is none.
   */
  lemma ConfigErrorOrder(config: Config)
    ensures ConfigError(config) == None <==>
      Truthy(Str(config.clientId)) && Truthy(Str(config.endpoint))
      && Truthy(Str(config.apiSecret)) && Truthy(Str(config.apiKey))
    ensures !Truthy(Str(config.clientId)) ==>
      ConfigError(config) == Some(InvalidArgument(RequiredMessage("client_id"), config.clientId))
    ensures Truthy(Str(config.clientId)) && !Truthy(Str(config.endpoint)) ==>
      ConfigError(config) == Some(InvalidArgument(RequiredMessage("endpoint"), config.endpoint))
    ensures (Truthy(Str(config.clientId)) && Truthy(Str(config.endpoint))
             && !Truthy(Str(config.apiSecret))) ==>
      ConfigError(config) == Some(InvalidArgument(RequiredMessage("api_secret"), config.apiSecret))
    ensures (Truthy(Str(config.clientId)) && Truthy(Str(config.endpoint))
             && Truthy(Str(config.apiSecret)) && !Truthy(Str(config.apiKey))) ==>
      ConfigError(config) == Some(InvalidArgument(RequiredMessage("api_key"), config.apiKey))
  {
    var entries := config.Entries();
    var i := FirstEmptyIndex(entries);
    assert i == 0 || Truthy(Str(entries[0].value));
    assert i <= 1 || Truthy(Str(entries[1].value));
    assert i <= 2 || Truthy(Str(entries[2].value));
    assert i <= 3 || Truthy(Str(entries[3].value));
  }

  /**
   * For the values a client is constructed from: construction fails exactly when
   * the client id, the API secret or the API key is "" or "0", and names the first
   * of them in that order. The endpoint is never named, whatever was passed for it,
   * because it is checked after normalisation.
   */
  lemma ConfigErrorCases(clientId: string, endPoint: string, apiSecret: string, apiKey: string)
    ensures var err := ConfigError(Config(clientId, NormalizeEndpoint(endPoint), apiSecret, apiKey));
      && (err == None <==>
            clientId != "" && clientId != "0" && apiSecret != "" && apiSecret != "0"
            && apiKey != "" && apiKey != "0")
      && (clientId == "" || clientId == "0" ==>
            err == Some(InvalidArgument(RequiredMessage("client_id"), clientId)))
      && (clientId != "" && clientId != "0" && (apiSecret == "" || apiSecret == "0") ==>
            err == Some(InvalidArgument(RequiredMessage("api_secret"), apiSecret)))
      && (clientId != "" && clientId != "0" && apiSecret != "" && apiSecret != "0"
          && (apiKey == "" || apiKey == "0") ==>
            err == Some(InvalidArgument(RequiredMessage("api_key"), apiKey)))
  {
    NormalizedEndpointShape(endPoint);
    ConfigErrorOrder(Config(clientId, NormalizeEndpoint(endPoint), apiSecret, apiKey));
  }

  /** Construction never throws for the `endpoint` key, even for "" or "///". */
  lemma EndpointNeverRejected(clientId: string, endPoint: string, apiSecret: string, apiKey: string)
    ensures var err := ConfigError(Config(clientId, NormalizeEndpoint(endPoint), apiSecret, apiKey));
      err.Some? ==> err.value.message != RequiredMessage("endpoint")
  {
    ConfigErrorCases(clientId, endPoint, apiSecret, apiKey);
  }

  /** `Client`: its configuration and the injected Guzzle client, both fixed at construction. */
  class Client {
    const config: Config
    /** The Guzzle client: sends a request and yields the response body. */
    const transport: HttpRequest -> string

    /** Stores the transport and the configuration array, the endpoint normalised. */
    constructor (transport: HttpRequest -> string, clientId: string, endPoint: string,
                 apiSecret: string, apiKey: string)
      ensures this.transport == transport
      ensures config == Config(clientId, NormalizeEndpoint(endPoint), apiSecret, apiKey)
    {
      this.transport := transport;
      this.config := Config(clientId, NormalizeEndpoint(endPoint), apiSecret, apiKey);
    }

    /**
     * The `foreach` over the configuration array: stops at the first PHP-empty
     * value and reports the exception that would be thrown for it.
     */
    method CheckConfig() returns (err: Option<InvalidArgument>)
      ensures err == ConfigError(config)
    {
      var entries := config.Entries();
      var i := 0;
      while i < |entries|
        invariant 0 <= i <= |entries|
        invariant forall j :: 0 <= j < i ==> Truthy(Str(entries[j].value))
      {
        if !Truthy(Str(entries[i].value)) {
          return Some(InvalidArgument(RequiredMessage(entries[i].key), entries[i].value));
        }
        i := i + 1;
      }
      return None;
    }

    /** `new Client(...)`: the client, or the exception the constructor throws. */
    static method Create(transport: HttpRequest -> string, clientId: string, endPoint: string,
                         apiSecret: string, apiKey: string)
      returns (r: Result<Client, InvalidArgument>)
      ensures var config := Config(clientId, NormalizeEndpoint(endPoint), apiSecret, apiKey);
        && (r.Failure? <==> ConfigError(config).Some?)
        && (r.Failure? ==> ConfigError(config) == Some(r.error))
        && (r.Success? ==> fresh(r.value) && r.value.config == config && r.value.transport == transport)
    {
      var client := new Client(transport, clientId, endPoint, apiSecret, apiKey);
      var err := client.CheckConfig();
      if err.Some? {
        return Failure(err.value);
      }
      return Success(client);
    }

    /** `createAuthData()`: the authentication envelope sent with every request. */
    function AuthData(builtins: Builtins): map<string, Value> {
      map[
        "clientId" := Str(config.clientId),
        "apiKey" := Str(config.apiKey),
        "requestTime" := Int(builtins.time),
        "sha" := Str(builtins.sha1(config.apiKey + config.clientId + config.apiSecret))
      ]
    }

    /**
     * The envelope has exactly four keys; it carries the configured client id and
     * API key; the signature is the digest of the API key, client id and API secret
     * concatenated in that order; and two envelopes
     * built with the same digest differ at most in the request time.
     */
    lemma AuthDataShape(b1: Builtins, b2: Builtins)
      ensures AuthData(b1).Keys == {"clientId", "apiKey", "requestTime", "sha"}
      ensures AuthData(b1)["clientId"] == Str(config.clientId)
      ensures AuthData(b1)["apiKey"] == Str(config.apiKey)
      ensures AuthData(b1)["sha"] == Str(b1.sha1(config.apiKey + config.clientId + config.apiSecret))
      ensures AuthData(b1)["requestTime"] == Int(b1.time)
      ensures b1.sha1 == b2.sha1 ==>
        AuthData(b1) - {"requestTime"} == AuthData(b2) - {"requestTime"}
    {
    }

    /**
     * `mergeData($base, $replacements)`: the replacements override the base, and
     * then every entry whose value is null is dropped.
     */
    static function MergeData(base: map<string, Value>, replacements: map<string, Value>)
      : (r: map<string, Value>)
      ensures forall k :: k in r ==> k in base || k in replacements
      ensures forall k :: k in replacements && replacements[k] != Null ==>
        k in r && r[k] == replacements[k]
      ensures forall k :: k in base && k !in replacements && base[k] != Null ==>
        k in r && r[k] == base[k]
      ensures forall k :: k in replacements && replacements[k] == Null ==> k !in r
      ensures forall k :: k in base && k !in replacements && base[k] == Null ==> k !in r
      ensures forall k :: k in r ==> r[k] != Null
      ensures forall k :: k in r ==> r[k] == (if k in replacements then replacements[k] else base[k])
    {
      WithoutNulls(ArrayMerge(base, replacements))
    }

    /** The data a request sends: the envelope merged with the caller's data. */
    function Payload(builtins: Builtins, data: map<string, Value>): map<string, Value> {
      MergeData(AuthData(builtins), data)
    }

    /**
     * Every envelope field reaches the wire unless the caller's data has that key;
     * a caller's null removes the field, any other caller value replaces it.
     */
    lemma PayloadCarriesAuth(builtins: Builtins, data: map<string, Value>)
      ensures forall k :: k in AuthData(builtins) && k !in data ==>
        k in Payload(builtins, data) && Payload(builtins, data)[k] == AuthData(builtins)[k]
      ensures forall k :: k in Payload(builtins, data) ==> k in AuthData(builtins) || k in data
      ensures forall k :: k in data && data[k] == Null ==> k !in Payload(builtins, data)
    {
    }

    /**
     * The options handed to Guzzle: the defaults `json` (the payload) and
     * `http_errors` (false), overridden key by key by the caller's options.
     */
    static function TransportOptions(payload: map<string, Value>, options: map<string, Value>)
      : (r: map<string, Value>)
      ensures r.Keys == {JSON_OPTION, HTTP_ERRORS_OPTION} + options.Keys
      ensures forall k :: k in options ==> r[k] == options[k]
      ensures JSON_OPTION !in options ==> r[JSON_OPTION] == Dict(payload)
      ensures HTTP_ERRORS_OPTION !in options ==> r[HTTP_ERRORS_OPTION] == Bool(false)
    {
      ArrayMerge(map[JSON_OPTION := Dict(payload), HTTP_ERRORS_OPTION := Bool(false)], options)
    }

    /** The request `doRequest` hands to the transport. */
    function Request(builtins: Builtins, httpMethod: string, apiMethod: string,
                     data: map<string, Value>, options: map<string, Value>): HttpRequest
    {
      HttpRequest(httpMethod, config.endpoint + apiMethod,
                  TransportOptions(Payload(builtins, data), options))
    }

    /**
     * The request URL is the normalised endpoint followed by the API method exactly
     * as given: nothing of the method is rewritten, so a leading "/" on it yields
     * "//" after the host part.
     */
    lemma RequestUrl(builtins: Builtins, httpMethod: string, apiMethod: string,
                     data: map<string, Value>, options: map<string, Value>, endPoint: string)
      requires config.endpoint == NormalizeEndpoint(endPoint)
      ensures var url := Request(builtins, httpMethod, apiMethod, data, options).url;
        && url == RTrim(endPoint, '/') + "/" + apiMethod
        && url[|config.endpoint|..] == apiMethod
        && url[|config.endpoint| - 1] == '/'
        && (apiMethod != [] && apiMethod[0] == '/' ==> url[|config.endpoint|] == '/')
    {
    }

    /**
     * The success check of `doRequest`: a body that does not decode fails with the
     * decoder's error as cause; a decoded value is accepted, unchanged, exactly when
     * it is an object with a `success` property whose value is truthy.
     */
    static function Classify(decoded: Decoded): (v: Verdict)
      ensures v.ParseFailure? <==> decoded.DecodeError?
      ensures v.ParseFailure? ==> v.cause == decoded.message
      ensures v.Accepted? <==>
        decoded.Json? && decoded.value.Object? && "success" in decoded.value.props
        && Truthy(decoded.value.props["success"])
      ensures v.Accepted? ==> v.response == decoded.value
    {
      match decoded
      case DecodeError(message) => ParseFailure(message)
      case Json(value) =>
        if !value.Object? || "success" !in value.props || !Truthy(value.props["success"]) then Rejected
        else Accepted(value)
    }

    /**
     * `doRequest($httpMethod, $apiMethod, $data, $options)`: sends one request and
     * returns the decoded response object, or the `InvalidRequestException`.
     */
    function DoRequest(builtins: Builtins, httpMethod: string, apiMethod: string,
                       data: map<string, Value>, options: map<string, Value>)
      : (r: Result<Value, InvalidRequest>)
      ensures var request := Request(builtins, httpMethod, apiMethod, data, options);
        var body := transport(request);
        var decoded := builtins.jsonDecode(body);
        && (r.Success? <==> Classify(decoded).Accepted?)
        && (r.Success? ==> decoded == Json(r.value) && r.value.Object?
                           && "success" in r.value.props && Truthy(r.value.props["success"]))
        && (r.Failure? ==> r.error.httpMethod == httpMethod && r.error.url == config.endpoint + apiMethod
                           && r.error.data == Payload(builtins, data) && r.error.response == body)
        && (r.Failure? ==> (r.error.previous.Some? <==> decoded.DecodeError?))
        && (r.Failure? && decoded.DecodeError? ==> r.error.previous == Some(decoded.message))
    {
      var url := config.endpoint + apiMethod;
      var payload := Payload(builtins, data);
      var body := transport(HttpRequest(httpMethod, url, TransportOptions(payload, options)));
      match Classify(builtins.jsonDecode(body))
      case ParseFailure(cause) => Failure(InvalidRequest(httpMethod, url, payload, body, Some(cause)))
      case Rejected => Failure(InvalidRequest(httpMethod, url, payload, body, None))
      case Accepted(response) => Success(response)
    }

    /** `doPost`: `doRequest` with the POST method. */
    function DoPost(builtins: Builtins, apiMethod: string, data: map<string, Value>,
                    options: map<string, Value>): (r: Result<Value, InvalidRequest>)
      ensures r == DoRequest(builtins, METHOD_POST, apiMethod, data, options)
    {
      DoRequest(builtins, METHOD_POST, apiMethod, data, options)
    }

    /** `doGet`: `doRequest` with the GET method. */
    function DoGet(builtins: Builtins, apiMethod: string, data: map<string, Value>,
                   options: map<string, Value>): (r: Result<Value, InvalidRequest>)
      ensures r == DoRequest(builtins, METHOD_GET, apiMethod, data, options)
    {
      DoRequest(builtins, METHOD_GET, apiMethod, data, options)
    }
  }
}
