/** An abstract view of the parts of net/http the package touches: the
    request fields it reads, cookies, the ordered effects a handler has on
    its ResponseWriter, and what a client receives from those effects. */
module Http {
  import opened Wrappers
  import opened Types

  /** The three things the package reads from a request:
      `authorization` is r.Header.Get("Authorization") ("" when absent),
      `sessionCookie` is the value of the first admin_session cookie, if any,
      `formToken` is r.FormValue("token") ("" when absent). */
  datatype Request = Request(authorization: string, sessionCookie: Option<string>, formToken: string)

  /** http.SameSite; `SameSiteUnset` is Go's zero value (no attribute). */
  datatype SameSite = SameSiteUnset | SameSiteDefault | SameSiteLax | SameSiteStrict | SameSiteNone

  /** The attributes of a cookie directive the package sets. */
  datatype Cookie = Cookie(
    name: string,
    value: string,
    path: string,
    httpOnly: bool,
    secure: bool,
    sameSite: SameSite,
    maxAge: int)

  /** What a compliant client presents on later requests after receiving
      cookie `c`: a negative MaxAge deletes the cookie at once. */
  function Returned(c: Cookie): Option<string> {
    if c.maxAge < 0 then None else Some(c.value)
  }

  /** A JSON body: the `{error: msg}` object or any other encoded value. */
  datatype JsonBody = ErrorObject(error: string) | Encoded(value: Payload)

  /** One effect on a ResponseWriter, in the order the handler performs it. */
  datatype Action =
    | SetHeader(key: string, value: string)             // w.Header().Set
    | WriteHeader(status: int)                          // w.WriteHeader
    | EncodeJson(body: JsonBody)                        // json.NewEncoder(w).Encode
    | SetCookie(cookie: Cookie)                         // http.SetCookie
    | Redirect(location: string, status: int)           // http.Redirect
    | HttpError(message: string, status: int)           // http.Error
    | Execute(source: string, entry: string, data: PageData)  // t.ExecuteTemplate(w, entry, data)
    | Panic(reason: string)                             // a run-time panic ends the handler

  /** A piece of response body. */
  datatype Part = JsonPart(json: JsonBody) | TextPart(text: string) | PagePart(source: string, data: PageData)

  /** What the client receives: any interim 1xx status lines, the final
      status line with the header and cookies as they stood when it was
      written, then the body. `aborted` records a panic in the handler:
      the status, header fields, cookies and body recorded up to then are
      kept in the value, but net/http closes the connection and none of
      them reach the client. */
  datatype Response = Response(
    status: Option<int>,
    interim: seq<int>,
    headers: map<string, string>,
    cookies: seq<Cookie>,
    body: seq<Part>,
    aborted: bool)

  const Fresh := Response(None, [], map[], [], [], false)

  /** A 1xx status other than 101 Switching Protocols is sent at once as an
      interim response and does not end the header phase. */
  predicate IsInterim(status: int) {
    100 <= status < 200 && status != 101
  }

  /** Whether a response with this final status may carry a body: not 1xx,
      204 No Content or 304 Not Modified. */
  predicate BodyAllowed(status: int) {
    !(100 <= status < 200) && status != 204 && status != 304
  }

  /** WriteHeader: once a final status is written, calls have no effect;
      before that, a code outside 100..999 panics, an interim status is
      sent and leaves the response open, and any other becomes final, a
      final 304 dropping the Content-Type field. */
  function Commit(s: Response, status: int): (s': Response)
    ensures 100 <= status <= 999 && !IsInterim(status) ==> s'.status.Some?
  {
    if s.status.Some? then s
    else if !(100 <= status <= 999) then s.(aborted := true)
    else if IsInterim(status) then s.(interim := s.interim + [status])
    else if status == 304 then s.(status := Some(status), headers := s.headers - {"Content-Type"})
    else s.(status := Some(status))
  }

  /** A body write: it commits an implicit 200 first, and under a final
      status that allows no body the bytes are refused. Nothing is written
      once the handler has panicked. */
  function Write(s: Response, p: Part): (s': Response) {
    if s.aborted then s else
    var c := Commit(s, 200);
    if BodyAllowed(c.status.value) then c.(body := c.body + [p]) else c
  }

  /** Sets a header field; once the final status is written, header changes are lost. */
  function Header(s: Response, key: string, value: string): (s': Response) {
    if s.status.None? then s.(headers := s.headers[key := value]) else s
  }

  /** The effect of one action on the response seen by the client; nothing
      happens after a panic. */
  function Step(s: Response, a: Action): (s': Response) {
    if s.aborted then s
    else match a
      case SetHeader(k, v) => Header(s, k, v)
      case WriteHeader(code) => Commit(s, code)
      case EncodeJson(b) => Write(s, JsonPart(b))
      case SetCookie(ck) => if s.status.None? then s.(cookies := s.cookies + [ck]) else s
      case Redirect(loc, code) => Commit(Header(s, "Location", loc), code)
      case HttpError(msg, code) =>
        var c := Commit(Header(Header(s, "Content-Type", "text/plain; charset=utf-8"),
                               "X-Content-Type-Options", "nosniff"), code);
        Write(c, TextPart(msg + "\n"))
      case Execute(src, _, pd) => Write(s, PagePart(src, pd))
      case Panic(_) => s.(aborted := true)
  }

  function Replay(s: Response, log: seq<Action>): (s': Response)
    decreases |log|
  {
    if log == [] then s else Replay(Step(s, log[0]), log[1..])
  }

  /** The response a fresh writer has put on the wire after `log`, while the
      handler is still running. When a handler returns having written
      nothing, net/http itself then sends a 200; that step is not part of
      this function. */
  function Sent(log: seq<Action>): (s': Response) {
    Replay(Fresh, log)
  }

  /** Replaying a log in two pieces is replaying it whole. */
  lemma {:induction false} ReplayAppend(s: Response, a: seq<Action>, b: seq<Action>)
    ensures Replay(s, a + b) == Replay(Replay(s, a), b)
    decreases |a|
  {
    if a == [] {
      assert a + b == b;
    } else {
      assert (a + b)[0] == a[0];
      assert (a + b)[1..] == a[1..] + b;
      ReplayAppend(Step(s, a[0]), a[1..], b);
    }
  }

  /** Once the status is written, no later action changes the status line,
      the header or the cookies: only body can follow. */
  lemma {:induction false} CommittedIsFinal(s: Response, log: seq<Action>)
    requires s.status.Some?
    ensures Replay(s, log).status == s.status
    ensures Replay(s, log).headers == s.headers
    ensures Replay(s, log).cookies == s.cookies
    decreases |log|
  {
    if log != [] {
      CommittedIsFinal(Step(s, log[0]), log[1..]);
    }
  }

  /** Replaying two actions from a fresh writer. */
  lemma SentPair(acts: seq<Action>)
    requires |acts| == 2
    ensures Sent(acts) == Step(Step(Fresh, acts[0]), acts[1])
  {
    assert Replay(Fresh, acts) == Replay(Step(Fresh, acts[0]), acts[1..]);
    assert Replay(Step(Fresh, acts[0]), acts[1..])
        == Replay(Step(Step(Fresh, acts[0]), acts[1]), acts[2..]);
    assert acts[2..] == [];
  }

  /** Replaying three actions. */
  lemma ReplayThree(s: Response, acts: seq<Action>)
    requires |acts| == 3
    ensures Replay(s, acts) == Step(Step(Step(s, acts[0]), acts[1]), acts[2])
  {
    assert Replay(s, acts) == Replay(Step(s, acts[0]), acts[1..]);
    assert Replay(Step(s, acts[0]), acts[1..]) == Replay(Step(Step(s, acts[0]), acts[1]), acts[2..]);
    assert Replay(Step(Step(s, acts[0]), acts[1]), acts[2..])
        == Replay(Step(Step(Step(s, acts[0]), acts[1]), acts[2]), acts[3..]);
    assert acts[3..] == [];
  }

  /** The writer a handler is given; every call appends its effect. */
  class ResponseWriter {
    var actions: seq<Action>

    constructor ()
      ensures actions == []
    {
      actions := [];
    }

    method SetHeader(key: string, value: string)
      modifies this
      ensures actions == old(actions) + [Action.SetHeader(key, value)]
    {
      actions := actions + [Action.SetHeader(key, value)];
    }

    method WriteHeader(status: int)
      modifies this
      ensures actions == old(actions) + [Action.WriteHeader(status)]
    {
      actions := actions + [Action.WriteHeader(status)];
    }

    method Encode(body: JsonBody)
      modifies this
      ensures actions == old(actions) + [EncodeJson(body)]
    {
      actions := actions + [EncodeJson(body)];
    }

    method SetCookie(c: Cookie)
      modifies this
      ensures actions == old(actions) + [Action.SetCookie(c)]
    {
      actions := actions + [Action.SetCookie(c)];
    }

    method Redirect(location: string, status: int)
      modifies this
      ensures actions == old(actions) + [Action.Redirect(location, status)]
    {
      actions := actions + [Action.Redirect(location, status)];
    }

    method Error(message: string, status: int)
      modifies this
      ensures actions == old(actions) + [HttpError(message, status)]
    {
      actions := actions + [HttpError(message, status)];
    }

    method Execute(source: string, entry: string, data: PageData)
      modifies this
      ensures actions == old(actions) + [Action.Execute(source, entry, data)]
    {
      actions := actions + [Action.Execute(source, entry, data)];
    }

    method Panic(reason: string)
      modifies this
      ensures actions == old(actions) + [Action.Panic(reason)]
    {
      actions := actions + [Action.Panic(reason)];
    }
  }
}
