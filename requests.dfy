/**
 How the trace.moe client describes its two calls to the transport: the
 query parameters, form body, headers and method of a search, and the shape
 of the quota lookup.
 */
module Requests {
  import opened Http

  /** The only query keys a search ever sends. */
  const SearchKeys: set<string> := {"url", "cutBorders", "anilistID", "anilistInfo"}

  /** The credential header: present exactly when the key is set and non-empty. */
  function Headers(apiKey: Option<string>): (h: Option<map<string, string>>)
    ensures h.Some? <==> apiKey.Some? && apiKey.value != ""
    ensures h.Some? ==> h.value.Keys == {"x-trace-key"} && h.value["x-trace-key"] == apiKey.value
  {
    if apiKey.Some? && apiKey.value != "" then Some(map["x-trace-key" := apiKey.value]) else None
  }

  /** A call without a body is a GET; a call with one is a POST. */
  function MethodFor(data: Option<Form>): (m: Method)
    ensures m == Get <==> data.None?
  {
    if data.None? then Get else Post
  }

  /**
   What a search request looks like for the given arguments. The flags are
   Python's `Optional[bool]`, read with `is True`: None, False and True.
   */
  predicate IsSearchRequest(
    req: Request, image: Image, cutBorders: Option<bool>, anilistId: Option<int>,
    anilistInfo: Option<bool>, apiKey: Option<string>)
  {
    && req.url == SearchUrl
    && req.params.Keys <= SearchKeys
    && ("url" in req.params <==> image.Url?)
    && (image.Url? ==> req.params["url"] == Text(image.url) && req.data.None?)
    && (image.Binary? ==> req.data == Some(ImageForm(image.handle)))
    && ("cutBorders" in req.params <==> cutBorders == Some(true))
    && ("cutBorders" in req.params ==> req.params["cutBorders"] == Text(""))
    && ("anilistID" in req.params <==> anilistId.Some?)
    && ("anilistID" in req.params ==> req.params["anilistID"] == Int(anilistId.value))
    && ("anilistInfo" in req.params <==> anilistInfo == Some(true))
    && ("anilistInfo" in req.params ==> req.params["anilistInfo"] == Text(""))
    && (req.verb == Get <==> image.Url?)
    && req.headers == Headers(apiKey)
  }

  /** Builds the search request, adding each query parameter in turn. */
  method BuildSearch(
    image: Image, cutBorders: Option<bool>, anilistId: Option<int>,
    anilistInfo: Option<bool>, apiKey: Option<string>)
    returns (req: Request)
    ensures IsSearchRequest(req, image, cutBorders, anilistId, anilistInfo, apiKey)
  {
    var params: map<string, Value> := map[];
    var data: Option<Form> := None;
    match image {
      case Url(u) => params := params["url" := Text(u)];
      case Binary(h) => data := Some(ImageForm(h));
    }
    if cutBorders == Some(true) {
      params := params["cutBorders" := Text("")];
    }
    if anilistId.Some? {
      params := params["anilistID" := Int(anilistId.value)];
    }
    if anilistInfo == Some(true) {
      params := params["anilistInfo" := Text("")];
    }
    var headers := Headers(apiKey);
    var verb := MethodFor(data);
    req := Request(verb, SearchUrl, params, headers, data);
  }

  /** The search arguments as the remote service can see them. */
  datatype SearchInputs = SearchInputs(
    image: Image, cutBorders: bool, anilistId: Option<int>, anilistInfo: bool)

  /** Reads the search arguments back out of a request. */
  function DecodeSearch(req: Request): Option<SearchInputs> {
    var image :=
      if req.data.Some? then Some(Binary(req.data.value.handle))
      else if "url" in req.params && req.params["url"].Text? then Some(Url(req.params["url"].s))
      else None;
    var anilistId :=
      if "anilistID" in req.params && req.params["anilistID"].Int? then Some(req.params["anilistID"].n)
      else None;
    if image.None? then None
    else Some(SearchInputs(image.value, "cutBorders" in req.params, anilistId, "anilistInfo" in req.params))
  }

  /**
   A search request carries its arguments without loss, except that a flag
   given as None and one given as False look the same.
   */
  lemma SearchRequestDecodes(
    req: Request, image: Image, cutBorders: Option<bool>, anilistId: Option<int>,
    anilistInfo: Option<bool>, apiKey: Option<string>)
    requires IsSearchRequest(req, image, cutBorders, anilistId, anilistInfo, apiKey)
    ensures DecodeSearch(req) == Some(SearchInputs(image, cutBorders == Some(true), anilistId, anilistInfo == Some(true)))
  {
  }

  /** The arguments determine the search request completely. */
  lemma SearchRequestUnique(
    r1: Request, r2: Request, image: Image, cutBorders: Option<bool>, anilistId: Option<int>,
    anilistInfo: Option<bool>, apiKey: Option<string>)
    requires IsSearchRequest(r1, image, cutBorders, anilistId, anilistInfo, apiKey)
    requires IsSearchRequest(r2, image, cutBorders, anilistId, anilistInfo, apiKey)
    ensures r1 == r2
  {
  }

  /** The quota lookup as written: a bare GET, with no parameters and no headers. */
  function MeRequestAsWritten(): (req: Request)
    ensures req.verb == Get && req.url == MeUrl
    ensures req.params == map[] && req.headers.None? && req.data.None?
  {
    Request(Get, MeUrl, map[], None, None)
  }

  /** The quota lookup as documented: a bare GET that carries the credential. */
  function MeRequest(apiKey: Option<string>): (req: Request)
    ensures req.verb == Get && req.url == MeUrl
    ensures req.params == map[] && req.data.None?
    ensures req.headers == Headers(apiKey)
  {
    Request(Get, MeUrl, map[], Headers(apiKey), None)
  }

  /** As written, a client holding a key looks up the quota without sending it. */
  lemma MeAsWrittenDropsKey(key: string)
    requires key != ""
    ensures MeRequestAsWritten().headers != Headers(Some(key))
    ensures MeRequest(Some(key)).headers == Headers(Some(key))
  {
  }

  /** Corrected, the quota lookup authenticates exactly as a search of the same client does. */
  lemma MeHeadersMatchSearch(
    req: Request, image: Image, cutBorders: Option<bool>, anilistId: Option<int>,
    anilistInfo: Option<bool>, apiKey: Option<string>)
    requires IsSearchRequest(req, image, cutBorders, anilistId, anilistInfo, apiKey)
    ensures MeRequest(apiKey).headers == req.headers
  {
  }
}
