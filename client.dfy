/**
 The trace.moe client object: its lazily created connection context, the
 release of that context, and the two calls `search` and `me` built on one
 request routine. The transport's answer to a call is a parameter.
 */
module Client {
  import opened Http
  import opened Errors
  import opened Requests

  /**
   The transport's connection context (an aiohttp client session), reduced to
   whether it is closed, how often it was asked to close, and the requests it
   was handed.
   */
  class Session {
    var closed: bool
    ghost var closeCalls: nat
    ghost var sent: seq<Request>

    constructor ()
      ensures !closed && closeCalls == 0 && sent == []
    {
      closed := false;
      closeCalls := 0;
      sent := [];
    }

    method Close()
      modifies this
      ensures closed && closeCalls == old(closeCalls) + 1 && sent == old(sent)
    {
      closed := true;
      closeCalls := closeCalls + 1;
    }

    /** Hands a request to the transport; a closed session refuses it. */
    method Send(req: Request) returns (ok: bool)
      modifies this
      ensures ok == !closed
      ensures closed == old(closed) && closeCalls == old(closeCalls)
      ensures sent == if ok then old(sent) + [req] else old(sent)
    {
      ok := !closed;
      if ok {
        sent := sent + [req];
      }
    }
  }

  /** What `search` returns: the `result` member of a successful body; failures unchanged. */
  function ResultField(o: Outcome<map<string, Json>>): (r: Outcome<Option<Json>>)
    ensures r.Ok? <==> o.Ok?
    ensures o.Ok? && "result" in o.value ==> r == Ok(Some(o.value["result"]))
    ensures o.Ok? && "result" !in o.value ==> r == Ok(None)
    ensures o.Err? ==> r == Err(o.kind, o.message)
    ensures o.Unrecognized? ==> r == Unrecognized(o.status)
    ensures o.Undecodable? ==> r == Undecodable(o.text)
    ensures o.SessionClosed? ==> r == SessionClosed
  {
    match o
    case Ok(body) => Ok(Lookup(body, "result"))
    case Err(kind, message) => Err(kind, message)
    case Unrecognized(status) => Unrecognized(status)
    case Undecodable(text) => Undecodable(text)
    case SessionClosed => SessionClosed
  }

  /** A successful search hands back the body's `result` member exactly as decoded. */
  lemma SearchResultPassThrough(r: Response)
    requires r.status == 200 && r.isJson && "result" in r.body
    ensures ResultField(Translate(r)) == Ok(Some(r.body["result"]))
  {
  }

  class TraceMoe {
    var session: Session?
    const apiKey: Option<string>

    constructor (session: Session?, apiKey: Option<string>)
      ensures this.session == session && this.apiKey == apiKey
    {
      this.session := session;
      this.apiKey := apiKey;
    }

    /**
     The session after a call that needed one: the one held before, untouched
     by the call's acquisition, or a new open one when there was none.
     */
    twostate predicate Acquired()
      reads this, session
    {
      && session != null
      && (old(session) != null ==>
            session == old(session) && session.closed == old(session.closed)
            && session.closeCalls == old(session.closeCalls))
      && (old(session) == null ==> fresh(session) && !session.closed && session.closeCalls == 0)
    }

    /** The session was handed `req`, unless it was already closed. */
    twostate predicate Dispatched(req: Request)
      requires Acquired()
      reads this, session
    {
      && (old(session) != null ==>
            session.sent == old(session.sent) + (if session.closed then [] else [req]))
      && (old(session) == null ==> session.sent == [req])
    }

    /** `__aenter__`: the client itself. */
    method Enter() returns (client: TraceMoe)
      ensures client == this
    {
      client := this;
    }

    /** Returns the held session, creating and keeping one only when there is none. */
    method GetSession() returns (s: Session)
      modifies this
      ensures session == s && Acquired()
      ensures s.sent == if old(session) == null then [] else old(session.sent)
    {
      if session == null {
        session := new Session();
      }
      s := session;
    }

    /**
     Closes the held session, whether the client created it or the caller
     supplied it; without one it does nothing. The field keeps the session.
     */
    method Close()
      modifies session
      ensures session == old(session)
      ensures session != null ==>
        session.closed && session.closeCalls == old(session.closeCalls) + 1 && session.sent == old(session.sent)
    {
      if session != null {
        session.Close();
      }
    }

    /** `__aexit__`: releases the session on every way out of the scope. */
    method Exit()
      modifies session
      ensures session == old(session)
      ensures session != null ==>
        session.closed && session.closeCalls == old(session.closeCalls) + 1 && session.sent == old(session.sent)
    {
      Close();
    }

    /** `_request`: sends `req` on the session and inspects the status of the transport's `response`. */
    method Perform(req: Request, response: Response) returns (o: Outcome<map<string, Json>>)
      modifies this, session
      ensures Acquired() && Dispatched(req)
      ensures o == if session.closed then SessionClosed else Translate(response)
    {
      var s := GetSession();
      var ok := s.Send(req);
      if ok {
        o := Translate(response);
      } else {
        o := SessionClosed;
      }
    }

    /** `search`: builds the request from the arguments and returns the `result` member. */
    method Search(
      image: Image, cutBorders: Option<bool>, anilistId: Option<int>,
      anilistInfo: Option<bool>, response: Response)
      returns (req: Request, o: Outcome<Option<Json>>)
      modifies this, session
      ensures IsSearchRequest(req, image, cutBorders, anilistId, anilistInfo, apiKey)
      ensures Acquired() && Dispatched(req)
      ensures o == ResultField(if session.closed then SessionClosed else Translate(response))
    {
      req := BuildSearch(image, cutBorders, anilistId, anilistInfo, apiKey);
      var data := Perform(req, response);
      o := ResultField(data);
    }

    /** `me`: the quota lookup as written, without the credential; returns the whole decoded body. */
    method Me(response: Response) returns (req: Request, o: Outcome<map<string, Json>>)
      modifies this, session
      ensures req == MeRequestAsWritten()
      ensures Acquired() && Dispatched(req)
      ensures o == if session.closed then SessionClosed else Translate(response)
    {
      req := MeRequestAsWritten();
      o := Perform(req, response);
    }
  }

  /**
   `async with TraceMoe(session, api_key) as client: await client.search(...)`:
   the session used is closed exactly once, whatever the search returned.
   */
  method ScopedSearch(
    session: Session?, apiKey: Option<string>, image: Image, cutBorders: Option<bool>,
    anilistId: Option<int>, anilistInfo: Option<bool>, response: Response)
    returns (used: Session, req: Request, o: Outcome<Option<Json>>)
    modifies session
    ensures IsSearchRequest(req, image, cutBorders, anilistId, anilistInfo, apiKey)
    ensures session == null ==> used.sent == [req]
    ensures session != null ==>
      used.sent == old(session.sent) + (if old(session.closed) then [] else [req])
    ensures session != null ==> used == session && used.closeCalls == old(session.closeCalls) + 1
    ensures session == null ==> fresh(used) && used.closeCalls == 1
    ensures used.closed
    ensures o == ResultField(
      if session != null && old(session.closed) then SessionClosed else Translate(response))
  {
    var client := new TraceMoe(session, apiKey);
    var c := client.Enter();
    req, o := c.Search(image, cutBorders, anilistId, anilistInfo, response);
    c.Exit();
    used := c.session;
  }
}
