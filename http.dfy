/**
 The values that cross the boundary between the trace.moe client and its HTTP
 transport: the request the client asks the transport to send, and the
 response the transport hands back. The transport itself (aiohttp) is not
 modelled; a response is an input to the model.
 */
module Http {

  datatype Option<+T> = None | Some(value: T)

  /** A decoded JSON value, as the remote service sends it. */
  datatype Json =
    | Null
    | Bool(b: bool)
    | Num(n: int)
    | Str(s: string)
    | Arr(items: seq<Json>)
    | Obj(fields: map<string, Json>)

  /** The screenshot to search for: a URL string, or an opened binary file. */
  datatype Image = Url(url: string) | Binary(handle: nat)

  /** A query-parameter value: the URL or an empty flag string, or the AniList id. */
  datatype Value = Text(s: string) | Int(n: int)

  /** The form body of an upload: `{'image': <file>}`. */
  datatype Form = ImageForm(handle: nat)

  /** The two transport methods the client uses. */
  datatype Method = Get | Post

  /** Everything the client passes to the transport for one call. */
  datatype Request = Request(
    verb: Method,
    url: string,
    params: map<string, Value>,
    headers: Option<map<string, string>>,
    data: Option<Form>)

  /**
   What the transport returns. `isJson` says whether the body has a JSON
   content type; `body` is the decoded JSON object; `errorField` is the text
   of that object's `error` member (None when the member is missing); `text`
   is the raw body.
   */
  datatype Response = Response(
    status: int,
    isJson: bool,
    body: map<string, Json>,
    errorField: Option<string>,
    text: string)

  const BaseUrl: string := "https://api.trace.moe/"
  const SearchUrl: string := BaseUrl + "search"
  const MeUrl: string := BaseUrl + "me"

  /** `d.get(key)` on a decoded JSON object. */
  function Lookup(d: map<string, Json>, key: string): (r: Option<Json>)
    ensures r.Some? <==> key in d
    ensures r.Some? ==> r.value == d[key]
  {
    if key in d then Some(d[key]) else None
  }
}
