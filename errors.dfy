/**
 The status-to-error translation of the trace.moe client: the fixed table
 from HTTP status to error kind, the message each kind carries, and the
 outcome of one HTTP call once its status has been inspected.
 */
module Errors {
  import opened Http

  /** One kind per exception class of the client. */
  datatype ErrorKind =
    | BadRequest
    | PaymentRequired
    | Forbidden
    | NotFound
    | MethodNotAllowed
    | TooManyRequests
    | InternalServerError
    | ServiceUnavailable
    | GatewayTimeout

  /** Every kind, in the order of the status table. */
  const AllKinds: seq<ErrorKind> := [
    BadRequest, PaymentRequired, Forbidden, NotFound, MethodNotAllowed,
    TooManyRequests, InternalServerError, ServiceUnavailable, GatewayTimeout]

  /** The statuses the table knows. */
  const TableStatuses: set<int> := {400, 402, 403, 404, 405, 429, 500, 503, 504}

  /** The status-to-kind table; None where the table has no entry. */
  function KindOfStatus(status: int): (r: Option<ErrorKind>)
    ensures r.Some? <==> status in TableStatuses
    ensures r.Some? ==> StatusOf(r.value) == status
  {
    if status == 400 then Some(BadRequest)
    else if status == 402 then Some(PaymentRequired)
    else if status == 403 then Some(Forbidden)
    else if status == 404 then Some(NotFound)
    else if status == 405 then Some(MethodNotAllowed)
    else if status == 429 then Some(TooManyRequests)
    else if status == 500 then Some(InternalServerError)
    else if status == 503 then Some(ServiceUnavailable)
    else if status == 504 then Some(GatewayTimeout)
    else None
  }

  /** The status each kind answers; the table read backwards. */
  function StatusOf(kind: ErrorKind): (status: int)
    ensures status in TableStatuses
  {
    match kind
    case BadRequest => 400
    case PaymentRequired => 402
    case Forbidden => 403
    case NotFound => 404
    case MethodNotAllowed => 405
    case TooManyRequests => 429
    case InternalServerError => 500
    case ServiceUnavailable => 503
    case GatewayTimeout => 504
  }

  /** Looking up the status a kind answers gives back that kind: the table is one-to-one. */
  lemma KindOfStatusOf(kind: ErrorKind)
    ensures KindOfStatus(StatusOf(kind)) == Some(kind)
  {
  }

  /**
   The fixed text each exception class puts before the error. The longer
   texts are written in two pieces because the verifier reads a literal from
   its end, and the proofs below need the first characters.
   */
  function Prefix(kind: ErrorKind): (p: string)
    ensures |p| > 12 && p[0] == Initial(kind)
  {
    match kind
    case BadRequest => "Image is malformed, " + "or some params are incorrect"
    case PaymentRequired => "Search quota " + "or concurrency limit exceeded"
    case Forbidden => "No permission to access"
    case NotFound => "The requested " + "resource is not found"
    case MethodNotAllowed => "Wrong HTTP method used"
    case TooManyRequests => "HTTP rate limit exceeded"
    case InternalServerError => "Database error"
    case ServiceUnavailable => "Database is overloaded"
    case GatewayTimeout => "Database is not responding"
  }

  /** The prefix together with the separator that follows it. */
  function Tag(kind: ErrorKind): string {
    Prefix(kind) + ": "
  }

  /** The message of an exception of the given kind raised with `error`. */
  function Message(kind: ErrorKind, error: string): (m: string)
    ensures |m| == |Prefix(kind)| + 2 + |error|
    ensures m[..|Prefix(kind)|] == Prefix(kind) && m[|Prefix(kind)|..|Prefix(kind)| + 2] == ": "
    ensures m[|Prefix(kind)| + 2..] == error
  {
    Tag(kind) + error
  }

  /**
   Recovers the kind and the error from a message: the first kind of `kinds`
   whose tag begins `m`, and the rest of `m`.
   */
  function ParseWith(kinds: seq<ErrorKind>, m: string): Option<(ErrorKind, string)> {
    if kinds == [] then None
    else if Tag(kinds[0]) <= m then Some((kinds[0], m[|Tag(kinds[0])|..]))
    else ParseWith(kinds[1..], m)
  }

  /** The inverse of Message. */
  function ParseMessage(m: string): Option<(ErrorKind, string)> {
    ParseWith(AllKinds, m)
  }

  /** The first character of each prefix; only the three database kinds share one. */
  function Initial(kind: ErrorKind): char {
    match kind
    case BadRequest => 'I'
    case PaymentRequired => 'S'
    case Forbidden => 'N'
    case NotFound => 'T'
    case MethodNotAllowed => 'W'
    case TooManyRequests => 'H'
    case InternalServerError => 'D'
    case ServiceUnavailable => 'D'
    case GatewayTimeout => 'D'
  }

  /** The three "Database ..." prefixes part at offset 9 or at offset 12. */
  lemma DatabasePrefixesDiffer(k1: ErrorKind, k2: ErrorKind)
    requires k1 != k2 && Initial(k1) == 'D' == Initial(k2)
    ensures Prefix(k1)[9] != Prefix(k2)[9] || Prefix(k1)[12] != Prefix(k2)[12]
  {
  }

  /** No kind's tag begins the message of another kind. */
  lemma TagsDisagree(k1: ErrorKind, k2: ErrorKind, error: string)
    requires k1 != k2
    ensures !(Tag(k1) <= Message(k2, error))
  {
    var p1, p2 := Prefix(k1), Prefix(k2);
    var i := 0;
    if Initial(k1) == Initial(k2) {
      DatabasePrefixesDiffer(k1, k2);
      i := if p1[9] != p2[9] then 9 else 12;
    }
    assert p1[i] != p2[i];
    assert Tag(k1)[i] == p1[i];
    assert Message(k2, error)[i] == p2[i];
  }

  lemma {:induction false} ParseWithFinds(kinds: seq<ErrorKind>, k: ErrorKind, error: string)
    requires k in kinds
    ensures ParseWith(kinds, Message(k, error)) == Some((k, error))
  {
    if kinds[0] == k {
      assert Message(k, error)[|Tag(k)|..] == error;
    } else {
      TagsDisagree(kinds[0], k, error);
      ParseWithFinds(kinds[1..], k, error);
    }
  }

  /** Every message can be taken apart again into its kind and its error. */
  lemma ParseMessageRoundTrip(k: ErrorKind, error: string)
    ensures ParseMessage(Message(k, error)) == Some((k, error))
  {
    ParseWithFinds(AllKinds, k, error);
  }

  /** Two exceptions with the same message have the same kind and the same error. */
  lemma MessageInjective(k1: ErrorKind, e1: string, k2: ErrorKind, e2: string)
    requires Message(k1, e1) == Message(k2, e2)
    ensures k1 == k2 && e1 == e2
  {
    ParseMessageRoundTrip(k1, e1);
    ParseMessageRoundTrip(k2, e2);
  }

  /**
   The result of one HTTP call once its status is inspected: the decoded body
   on 200, the raised exception on a tabled status, the table lookup failure
   on any other status, the content-type failure of decoding a 200 body that
   is not JSON, or the transport refusing a session that was already closed.
   */
  datatype Outcome<+T> =
    | Ok(value: T)
    | Err(kind: ErrorKind, message: string)
    | Unrecognized(status: int)
    | Undecodable(text: string)
    | SessionClosed

  /** The text an exception is raised with: the JSON `error` member, or the raw body. */
  function ErrorText(r: Response): (e: string)
    ensures !r.isJson ==> e == r.text
    ensures r.isJson && r.errorField.Some? ==> e == r.errorField.value
    ensures r.isJson && r.errorField.None? ==> e == "None"
  {
    if r.isJson then
      match r.errorField
      case Some(e) => e
      case None => "None"
    else r.text
  }

  /** The status dispatch of one call. */
  function Translate(r: Response): (o: Outcome<map<string, Json>>)
    ensures o.Ok? <==> r.status == 200 && r.isJson
    ensures o.Ok? ==> o.value == r.body
    ensures o.Undecodable? <==> r.status == 200 && !r.isJson
    ensures o.Undecodable? ==> o.text == r.text
    ensures o.Err? <==> r.status in TableStatuses
    ensures o.Err? ==> StatusOf(o.kind) == r.status
    ensures o.Err? ==> o.message == Message(o.kind, ErrorText(r))
    ensures o.Unrecognized? <==> r.status != 200 && r.status !in TableStatuses
    ensures o.Unrecognized? ==> o.status == r.status
    ensures !o.SessionClosed?
  {
    if r.status != 200 then
      match KindOfStatus(r.status)
      case None => Unrecognized(r.status)
      case Some(kind) => Err(kind, Message(kind, ErrorText(r)))
    else if r.isJson then Ok(r.body)
    else Undecodable(r.text)
  }

  /** The exception raised for a tabled status reads back as its kind and the error text. */
  lemma TranslatedMessageParses(r: Response)
    requires r.status in TableStatuses
    ensures Translate(r).Err?
    ensures ParseMessage(Translate(r).message) == Some((KindOfStatus(r.status).value, ErrorText(r)))
  {
    ParseMessageRoundTrip(KindOfStatus(r.status).value, ErrorText(r));
  }

  /** A tabled status with a JSON `error` member `x` raises its kind with `x` after the prefix. */
  lemma JsonErrorMessage(r: Response, x: string)
    requires r.status in TableStatuses && r.isJson && r.errorField == Some(x)
    ensures Translate(r) == Err(KindOfStatus(r.status).value, Prefix(KindOfStatus(r.status).value) + ": " + x)
  {
  }

  /** A tabled status with a body that is not JSON raises its kind with the raw text. */
  lemma TextErrorMessage(r: Response)
    requires r.status in TableStatuses && !r.isJson
    ensures Translate(r) == Err(KindOfStatus(r.status).value, Prefix(KindOfStatus(r.status).value) + ": " + r.text)
  {
  }
}
