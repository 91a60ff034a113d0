/** Concrete cases of the client's behaviour, worked out from the model. */
module SalesManagoExamples {
  import opened Php
  import opened SalesManago

  /** Zero, one or many trailing slashes all become exactly one; "" and "///" become "/". */
  lemma EndpointExamples()
    ensures NormalizeEndpoint("https://api.test") == "https://api.test/"
    ensures NormalizeEndpoint("https://api.test/") == "https://api.test/"
    ensures NormalizeEndpoint("https://api.test///") == "https://api.test/"
    ensures NormalizeEndpoint("") == "/"
    ensures NormalizeEndpoint("///") == "/"
  {
    var host := "https://api.test";
    assert host[|host| - 1] == 't';
    RTrimUnique(host, '/', host);
    RTrimUnique(host + "/", '/', host);
    assert "https://api.test///" == host + "///";
    RTrimUnique(host + "///", '/', host);
    RTrimUnique("", '/', "");
    RTrimUnique("///", '/', "");
  }

  /**
   * The URL is the endpoint and the API method side by side: "contact/upsert"
   * gives the expected URL, "/contact/upsert" keeps its slash.
   */
  lemma UrlExamples(client: Client, builtins: Builtins, data: map<string, Value>,
                    options: map<string, Value>)
    requires client.config.endpoint == NormalizeEndpoint("https://api.test")
    ensures client.Request(builtins, METHOD_POST, "contact/upsert", data, options).url
      == "https://api.test/contact/upsert"
    ensures client.Request(builtins, METHOD_POST, "/contact/upsert", data, options).url
      == "https://api.test//contact/upsert"
  {
  }

  /** Base `{a: 1, b: 2}` merged with `{b: null, c: 3}` is `{a: 1, c: 3}`. */
  lemma MergeDataExample()
    ensures Client.MergeData(map["a" := Int(1), "b" := Int(2)], map["b" := Null, "c" := Int(3)])
      == map["a" := Int(1), "c" := Int(3)]
  {
  }

  /** How some response bodies are judged once decoded. */
  lemma ClassifyExamples(cause: string)
    ensures var ok := Object(map["success" := Bool(true), "foo" := Str("bar")]);
      Client.Classify(Json(ok)) == Accepted(ok)
    ensures Client.Classify(Json(Object(map["success" := Bool(false)]))) == Rejected
    ensures Client.Classify(Json(Object(map[]))) == Rejected
    ensures Client.Classify(DecodeError(cause)) == ParseFailure(cause)
    ensures Client.Classify(Json(Object(map["success" := Null]))) == Rejected
    ensures Client.Classify(Json(Object(map["success" := Str("0")]))) == Rejected
    ensures Client.Classify(Json(Object(map["success" := Str("false")]))).Accepted?
    ensures Client.Classify(Json(List([Object(map["success" := Bool(true)])]))) == Rejected
    ensures Client.Classify(Json(Null)) == Rejected
  {
  }
}
