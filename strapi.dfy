/** The two entry points and the fetch gateway. The network call is not modelled: the
    response it produced is a parameter, and the request it was given is a result. */
module Strapi {
  import opened Wrappers
  import opened Errors
  import opened JsonValues
  import Records
  import opened UrlSearch
  import opened Query
  import opened Schema

  /** `StrapiConfig`; only `apiUrl` is read. */
  datatype Config = Config(storeSlug: string, apiUrl: string, syncInterval: int)

  /** What `fetch` resolved to: `response.ok`, `response.statusText`, and the body as
      `response.json()` decodes it (None when it is not JSON). */
  datatype Response = Response(ok: bool, statusText: string, body: Option<Json>)

  /** The GET fetchFromStrapi issues: `path` resolved against `baseUrl`, with its query. */
  datatype Request = Request(baseUrl: string, path: string, query: seq<Entry>)

  /** The end of fetchFromStrapi: a non-ok status fails with its status text; otherwise the
      decoded body, or a failure when the body does not decode. */
  function Outcome(response: Response): (r: Result<Json, Error>)
    ensures r.Ok? <==> response.ok && response.body.Some?
    ensures r.Ok? ==> r.value == response.body.value
    ensures !response.ok ==> r == Err(FailedToFetch(response.statusText))
    ensures !response.ok ==> Message(r.error) == "Failed to fetch: " + response.statusText
    ensures response.ok && response.body.None? ==> r == Err(UndecodableBody)
  {
    if !response.ok then Err(FailedToFetch(response.statusText))
    else if response.body.None? then Err(UndecodableBody)
    else Ok(response.body.value)
  }

  /** fetchFromStrapi: builds the request from the parameter object, then reports the
      response. */
  method FetchFromStrapi(path: string, params: Records.Record<string>, baseUrl: string, response: Response)
    returns (request: Request, result: Result<Json, Error>)
    requires params.Valid()
    ensures request == Request(baseUrl, path, QueryOf(params))
    ensures result == Outcome(response)
  {
    var query := BuildQuery(params);
    request := Request(baseUrl, path, query);
    result := Outcome(response);
  }

  /** The body's `data` member, when the body has one and it is an array. */
  function ContentPosts(body: Json): (r: Result<seq<Json>, Error>)
    ensures r.Ok? <==> Get(body, "data").Some? && Get(body, "data").value.JArr?
    ensures r.Ok? ==> Get(body, "data") == Some(JArr(r.value))
    ensures r.Err? ==> r.error == InvalidData
    ensures r.Err? ==> Message(r.error) == "Invalid data received from Strapi"
  {
    match Get(body, "data")
    case Some(JArr(posts)) => Ok(posts)
    case _ => Err(InvalidData)
  }

  /** The schema generated from the body's `attributes` member, when that member is truthy. */
  function SchemaOf(body: Json): (r: Result<Validator, Error>)
    ensures Get(body, "attributes").None? ==> r == Err(InvalidSchemaData)
    ensures Get(body, "attributes").None? ==> Message(r.error) == "Invalid schema data received from Strapi"
    ensures Get(body, "attributes").Some? && !Truthy(Get(body, "attributes").value) ==> r == Err(InvalidSchemaData)
    ensures Get(body, "attributes").Some? && Truthy(Get(body, "attributes").value) ==>
      r == GenerateSchema(Get(body, "attributes").value)
  {
    match Get(body, "attributes")
    case None => Err(InvalidSchemaData)
    case Some(attributes) =>
      if Truthy(attributes) then GenerateSchema(attributes) else Err(InvalidSchemaData)
  }

  /** fetchStrapiContent: the content request, and the posts of the response. */
  method FetchStrapiContent(query: QueryOptions, config: Config, response: Response)
    returns (request: Request, result: Result<seq<Json>, Error>)
    ensures request == Request(config.apiUrl, ContentPath(query.contentType), ContentQuery(query))
    ensures result.Ok? <==> response.ok && response.body.Some? && ContentPosts(response.body.value).Ok?
    ensures result.Ok? ==> Get(response.body.value, "data") == Some(JArr(result.value))
    ensures result.Err? ==> result.error == (if !response.ok then FailedToFetch(response.statusText)
                                             else if response.body.None? then UndecodableBody
                                             else InvalidData)
  {
    var params := ContentParams(query);
    var body;
    request, body := FetchFromStrapi(ContentPath(query.contentType), params, config.apiUrl, response);
    match body
    case Err(e) => result := Err(e);
    case Ok(data) => result := ContentPosts(data);
  }

  /** fetchStrapiSchema: the schema request (it has no parameters), and the translated
      attributes of the response. */
  method FetchStrapiSchema(contentType: string, apiUrl: string, response: Response)
    returns (request: Request, result: Result<Validator, Error>)
    ensures request == Request(apiUrl, SchemaPath(contentType), [])
    ensures result == match Outcome(response)
                      case Err(e) => Err(e)
                      case Ok(body) => SchemaOf(body)
  {
    var none: Records.Record<string> := Records.Empty();
    var body;
    request, body := FetchFromStrapi(SchemaPath(contentType), none, apiUrl, response);
    match body
    case Err(e) => result := Err(e);
    case Ok(data) => result := SchemaOf(data);
  }

  /** A content body whose `data` is `"not-an-array"` is rejected as invalid data. */
  lemma NotAnArrayRejected()
    ensures ContentPosts(JObj([("data", JStr("not-an-array"))])) == Err(InvalidData)
  {
  }
}
