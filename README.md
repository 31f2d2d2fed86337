# trace.moe client, modelled in Dafny

A model of `tracemoe`, a small asynchronous Python client for the trace.moe
reverse-image-search service. The client does three things that can be stated
and proved apart from the network:

- **Search request construction** (`TraceMoe.search`). A URL image becomes the
  `url` query parameter of a GET. An uploaded file becomes the form body
  `{'image': file}` of a POST. `cutBorders` and `anilistInfo` are empty-valued
  flags, sent only when the argument `is True`. `anilistID` is sent when the id
  is not None. The `x-trace-key` header is sent when the API key is truthy.
  `Requests.BuildSearch` builds the parameter map one insertion at a time, as
  the source does. `Requests.IsSearchRequest` specifies the result.
  `Requests.DecodeSearch` reads the arguments back out of the request.
- **Status-to-error translation** (`_request` and the exception table). A 200
  response yields its decoded JSON body. Nine statuses map to fixed exception
  kinds. Each kind's message is a fixed prefix, `": "`, and the JSON `error`
  member, or the raw body when the body is not JSON. `Errors.ParseMessage`
  takes a message apart again. The proof that it inverts `Errors.Message`
  shows that a message determines both its kind and its error text.
- **Session lifecycle** (`_session`, `close`, `__aenter__`/`__aexit__`).
  `Client.TraceMoe` holds an optional session. A session is created lazily and
  reused afterwards. `close` closes the held session, whether the caller
  supplied it or the client created it. Without a session, `close` does
  nothing. The field is never reset, so a client that was closed keeps handing
  its closed session to the transport.

Modules: `Http` (the values exchanged with the transport), `Errors`,
`Requests` and `Client`. The transport's response to a call is a parameter
of the model (`Http.Response`).

## Model

| member | source | states |
|---|---|---|
| `Errors.KindOfStatus` | tracemoe/__init__.py:89-99 | the table has an entry exactly for 400, 402, 403, 404, 405, 429, 500, 503 and 504, and each entry's kind answers back that very status |
| `Errors.StatusOf` | tracemoe/__init__.py:89-99 | every kind answers one status of the table |
| `Errors.KindOfStatusOf` | tracemoe/__init__.py:89-99 | looking up the status a kind answers gives back that kind, so the table is one-to-one in both directions |
| `Errors.Prefix` | tracemoe/__init__.py:44-86 | each kind's fixed message text, as the exception classes write it; only the three database kinds share a first character |
| `Errors.Message` | tracemoe/__init__.py:44-86 | a message is the kind's fixed prefix, then `": "`, then the error text |
| `Errors.TagsDisagree` | tracemoe/__init__.py:44-86 | no kind's prefix and separator begin the message of a different kind |
| `Errors.ParseMessageRoundTrip` | tracemoe/__init__.py:44-86 | parsing any exception message gives back its kind and its error text |
| `Errors.MessageInjective` | tracemoe/__init__.py:44-86 | two exceptions with equal messages have the same kind and the same error text |
| `Errors.ErrorText` | tracemoe/__init__.py:139-142 | the error text is the JSON `error` member, the text `None` when a JSON body lacks it, or the raw body when the body is not JSON |
| `Errors.Translate` | tracemoe/__init__.py:137-145 | a call succeeds with the decoded body exactly on 200 with a JSON body. A 200 body that is not JSON fails to decode. A tabled status raises the kind of that status with that kind's message. Every other status is an unrecognized-status failure |
| `Errors.TranslatedMessageParses` | tracemoe/__init__.py:137-143 | the exception raised for a tabled status reads back as that status's kind and the response's error text |
| `Errors.JsonErrorMessage` | tracemoe/__init__.py:138-143 | a tabled status with a JSON `error` member `x` raises its kind with message prefix + `": "` + `x` |
| `Errors.TextErrorMessage` | tracemoe/__init__.py:138-143 | a tabled status with a body that is not JSON raises its kind with message prefix + `": "` + raw text |
| `Requests.Headers` | tracemoe/__init__.py:185 | the header map is present exactly when the key is set and non-empty, and then holds only `x-trace-key` with the key |
| `Requests.MethodFor` | tracemoe/__init__.py:186 | the call is a GET exactly when there is no body |
| `Requests.BuildSearch` | tracemoe/__init__.py:168-188 | the built request is a search request for its arguments: the `url` parameter and a GET exactly for a URL image, the image form body for an upload, each flag present with value `''` exactly when it is True, `anilistID` exactly when an id is given, no other keys, and the credential header |
| `Requests.SearchRequestDecodes` | tracemoe/__init__.py:168-183 | a search request gives back its image, id and flags, except that a False flag and an absent one look the same |
| `Requests.SearchRequestUnique` | tracemoe/__init__.py:168-188 | the arguments determine the search request completely |
| `Requests.MeRequestAsWritten` | tracemoe/__init__.py:201-202 | as written, the quota lookup is a GET to the `me` endpoint with no parameters, no body and no headers |
| `Requests.MeRequest` | tracemoe/__init__.py:192-202 | the quota lookup as documented: the same GET, carrying the credential header exactly as a search does |
| `Requests.MeAsWrittenDropsKey` | tracemoe/__init__.py:192-202 | with a non-empty key, the lookup as written lacks the header that the documented lookup sends |
| `Requests.MeHeadersMatchSearch` | tracemoe/__init__.py:185-202 | the documented lookup authenticates exactly as a search of the same client |
| `Http.Lookup` | tracemoe/__init__.py:190 | `dict.get`: a value exactly when the key is present, and then the key's value |
| `Client.ResultField` | tracemoe/__init__.py:190 | `search` returns the body's `result` member, or None when the member is absent. Failures pass through unchanged |
| `Client.SearchResultPassThrough` | tracemoe/__init__.py:144-190 | a 200 JSON response with a `result` member makes `search` return that member exactly as decoded |
| `Client.Session.Send` | tracemoe/__init__.py:135 | the transport records the request unless the session is closed, and then refuses it |
| `Client.TraceMoe.constructor` | tracemoe/__init__.py:105-113 | the client holds the given session, or none, and the given key |
| `Client.TraceMoe.Enter` | tracemoe/__init__.py:115-116 | entering the scope yields the client itself |
| `Client.TraceMoe.GetSession` | tracemoe/__init__.py:126-130 | a held session is returned unchanged. Without one, a fresh open session is created, stored and returned |
| `Client.TraceMoe.Close` | tracemoe/__init__.py:121-124 | a held session is closed once more, whoever created it. Without one nothing changes. The field is never reset |
| `Client.TraceMoe.Exit` | tracemoe/__init__.py:118-119 | leaving the scope closes the held session exactly once |
| `Client.TraceMoe.Perform` | tracemoe/__init__.py:132-145 | acquires the session and hands it the request. A closed session refuses the request. Otherwise the outcome is the status dispatch of the response |
| `Client.TraceMoe.Search` | tracemoe/__init__.py:147-190 | sends a search request for its arguments on the acquired session and returns the `result` member of the outcome |
| `Client.TraceMoe.Me` | tracemoe/__init__.py:192-203 | sends the quota lookup as written (no parameters, no headers, whatever the key) on the acquired session and returns the whole outcome |
| `Client.ScopedSearch` | tracemoe/__init__.py:115-124 | a search inside `async with` sends its search request on the session it used, unless that session was already closed, and closes that session exactly once, whatever the search returned |

## Findings

| source | as written | input that shows it | evidently intended | confidence | as-written member | corrected member |
|---|---|---|---|---|---|---|
| tracemoe/__init__.py:192-202 | `me()` calls `_request('get', url=url)` without the `x-trace-key` header, although its docstring says it reports the quota of your account when an API key is set | a client built with `api_key='k'` calling `me()` | send `{'x-trace-key': api_key}` when the key is truthy, as `search` does | medium, not executed | `Requests.MeAsWrittenDropsKey` | `Requests.MeRequest` |

`Requests.MeRequestAsWritten` models the code as written, and
`Client.TraceMoe.Me` sends it. `Requests.MeRequest` is the corrected lookup;
`Requests.MeHeadersMatchSearch` proves that it authenticates as a search does.

## Left out

- The aiohttp transport is not modelled. The GET/POST call, `getattr(session, method)` and reading the body are replaced by the `Http.Response` parameter. `Client.Session` keeps only what the client relies on: closed or not, close calls, requests handed over.
- A closed aiohttp session raises `RuntimeError` when asked to send. The model shows this as the `SessionClosed` outcome.
- JSON decoding and the content-type test are reduced to the `isJson` flag. A body with a JSON content type that fails to parse raises an uncaught decode error in the source. The model does not cover that case.
- `Http.Response.errorField` stands for the text of `body.get('error')`. How Python's `str()` renders a non-string `error` value is not modelled. The model does not relate `errorField` to `body`.
- A JSON body whose top level is not an object is not modelled. Calling `.get` on it raises `AttributeError`. JSON numbers are integers only.
- The flags are modelled as `Optional[bool]`. Truthy non-boolean values such as `1` are not `True`, so the source omits those flags too. The model has no such values.
- An uploaded image is an opaque handle. Its bytes are not modelled.
- `urljoin` is the constant concatenation `BaseUrl + "search"` or `BaseUrl + "me"`, because the base ends in `/` and the suffixes are fixed.
- `log.debug` is not modelled.
- The possible race when concurrent first calls each create a session is not modelled. Scheduling in async code is out of scope.
- setup.py is not part of this model. It only reads files to produce build metadata.
