/** The two authorization gates and the JSON response writers. */
module Middleware {
  import opened Wrappers
  import opened Types
  import opened Http
  import opened HydraWeb

  /** A handler, seen through what it appends to its writer. */
  type Handler = Request -> seq<Action>

  /** WriteJSON / WriteError's effects: content type, then status, then body. */
  function JsonActions(status: int, body: JsonBody): (acts: seq<Action>) {
    [Action.SetHeader("Content-Type", "application/json"), Action.WriteHeader(status), EncodeJson(body)]
  }

  method WriteJSON(wr: ResponseWriter, status: int, v: Payload)
    modifies wr
    ensures wr.actions == old(wr.actions) + JsonActions(status, Encoded(v))
  {
    wr.SetHeader("Content-Type", "application/json");
    wr.WriteHeader(status);
    wr.Encode(Encoded(v));
  }

  method WriteError(wr: ResponseWriter, status: int, msg: string)
    modifies wr
    ensures wr.actions == old(wr.actions) + JsonActions(status, ErrorObject(msg))
  {
    wr.SetHeader("Content-Type", "application/json");
    wr.WriteHeader(status);
    wr.Encode(ErrorObject(msg));
  }

  /** Because the header is set before the status, a client that has seen
      no final status yet receives that status with Content-Type
      application/json, and the body last. An interim 1xx status is sent
      as such, and the body then goes out under an implicit 200. A final
      status that allows no body (101, 204, 304) refuses the JSON, and a
      304 also drops the Content-Type field. A code outside 100..999 makes
      WriteHeader panic: no status is sent and the body is not written. */
  lemma JsonResponseSent(log: seq<Action>, status: int, body: JsonBody)
    requires Sent(log).status.None? && !Sent(log).aborted
    ensures var before, after := Sent(log), Sent(log + JsonActions(status, body));
      var final := if IsInterim(status) then 200 else status;
      100 <= status <= 999 ==>
      && after.status == Some(final)
      && after.interim == before.interim + (if IsInterim(status) then [status] else [])
      && after.headers == (if final == 304 then before.headers - {"Content-Type"}
                           else before.headers["Content-Type" := "application/json"])
      && after.cookies == before.cookies
      && after.body == before.body + (if BodyAllowed(final) then [JsonPart(body)] else [])
      && !after.aborted
    ensures var before, after := Sent(log), Sent(log + JsonActions(status, body));
      !(100 <= status <= 999) ==>
      && after.aborted
      && after.status.None?
      && after.interim == before.interim
      && after.cookies == before.cookies
      && after.body == before.body
  {
    var acts := JsonActions(status, body);
    ReplayAppend(Fresh, log, acts);
    ReplayThree(Sent(log), acts);
  }

  /** The order matters: with a final status written first, the
      Content-Type application/json set afterwards never reaches the client. */
  lemma StatusFirstLosesContentType(status: int, body: JsonBody)
    requires !IsInterim(status)
    ensures var h := Sent([Action.WriteHeader(status), Action.SetHeader("Content-Type", "application/json"), EncodeJson(body)]).headers;
      !("Content-Type" in h && h["Content-Type"] == "application/json")
  {
    var acts := [Action.WriteHeader(status), Action.SetHeader("Content-Type", "application/json"), EncodeJson(body)];
    ReplayThree(Fresh, acts);
  }

  /** RequireAuth: delegates to `next` when the request is authenticated,
      otherwise answers 401 with {error: "unauthorized"}. */
  function RequireAuth(w: Web, next: Handler): (h: Handler) {
    r => if w.IsAuthenticated(r) then next(r) else JsonActions(StatusUnauthorized, ErrorObject("unauthorized"))
  }

  /** RequireWebAuth: the same test, but a failure is a 303 to /login. */
  function RequireWebAuth(w: Web, next: Handler): (h: Handler) {
    r => if w.IsAuthenticated(r) then next(r) else [Action.Redirect("/login", StatusSeeOther)]
  }

  /** A gate calls `next` on `r` when its answer depends on which handler
      it wraps. */
  ghost predicate CallsNext(gate: Handler -> Handler, r: Request) {
    exists n1: Handler, n2: Handler :: gate(n1)(r) != gate(n2)(r)
  }

  /** Two handlers that answer every request differently. */
  const Silent: Handler := _ => []
  const Panicking: Handler := _ => [Panic("next")]

  /** RequireAuth calls next exactly when the request is authenticated; an
      authenticated request gets next's answer, any other the fixed 401. */
  lemma RequireAuthGate(w: Web, r: Request)
    ensures CallsNext(n => RequireAuth(w, n), r) <==> w.IsAuthenticated(r)
    ensures w.IsAuthenticated(r) ==> forall next: Handler :: RequireAuth(w, next)(r) == next(r)
    ensures !w.IsAuthenticated(r) ==>
      forall next: Handler :: RequireAuth(w, next)(r) == JsonActions(401, ErrorObject("unauthorized"))
  {
    var gate := (n: Handler) => RequireAuth(w, n);
    if w.IsAuthenticated(r) {
      assert gate(Silent)(r) != gate(Panicking)(r);
    }
  }

  /** RequireWebAuth calls next exactly when the request is authenticated;
      any other request is redirected 303 to /login. */
  lemma RequireWebAuthGate(w: Web, r: Request)
    ensures CallsNext(n => RequireWebAuth(w, n), r) <==> w.IsAuthenticated(r)
    ensures w.IsAuthenticated(r) ==> forall next: Handler :: RequireWebAuth(w, next)(r) == next(r)
    ensures !w.IsAuthenticated(r) ==>
      forall next: Handler :: RequireWebAuth(w, next)(r) == [Action.Redirect("/login", 303)]
  {
    var gate := (n: Handler) => RequireWebAuth(w, n);
    if w.IsAuthenticated(r) {
      assert gate(Silent)(r) != gate(Panicking)(r);
    }
  }

  /** Both gates let exactly the same requests through. */
  lemma GatesAgree(w: Web, r: Request)
    ensures CallsNext(n => RequireAuth(w, n), r) <==> CallsNext(n => RequireWebAuth(w, n), r)
  {
    RequireAuthGate(w, r);
    RequireWebAuthGate(w, r);
  }

  /** A rejected API request reaches the client as a 401 JSON error. */
  lemma RequireAuthRejectionSent(w: Web, next: Handler, r: Request)
    requires !w.IsAuthenticated(r)
    ensures Sent(RequireAuth(w, next)(r))
         == Response(Some(401), [], map["Content-Type" := "application/json"], [], [JsonPart(ErrorObject("unauthorized"))], false)
  {
    JsonResponseSent([], 401, ErrorObject("unauthorized"));
    assert [] + JsonActions(401, ErrorObject("unauthorized")) == RequireAuth(w, next)(r);
  }
}
