/**
 * The request/response behaviour of the client operations in
 * pywebhdfs/tornado/webhdfs.py, as pure functions over a World: the
 * transport's remaining canned outcomes, the log of everything the client
 * did (ticket acquisitions and requests sent), and the count of tickets
 * handed out so far. The class in module WebHdfs runs these steps
 * imperatively and is proved to agree with the functions here; the lemmas
 * here state what the source promises about them.
 */
module Protocol {
  import opened Wrappers
  import opened Strings
  import opened Uri
  import opened Errors

  datatype Method = GET | PUT | POST | DELETE

  /** A Kerberos service ticket from the provider; `serial` counts acquisitions, so no two are equal. */
  datatype Ticket = Ticket(primary: string, host: string, serial: nat)

  datatype HeaderValue = Text(s: string) | Token(ticket: Ticket)
  type Headers = map<string, HeaderValue>

  datatype Request = Request(verb: Method, uri: string, headers: Headers, body: Option<string>, followRedirects: bool)
  datatype Response = Response(code: int, headers: seq<(string, string)>, body: string)

  /**
   * What one `fetch` gives: a response, a raised HTTPError that may carry a
   * response, or a raised exception of another class (a socket error such as
   * a refused connection), which no `except` clause of the client catches.
   */
  datatype Outcome = Reply(response: Response) | Raised(carried: Option<Response>) | RaisedOther

  datatype Event = Acquired(ticket: Ticket) | Sent(request: Request)
  datatype World = World(script: seq<Outcome>, log: seq<Event>, issued: nat)

  /** The client's settings from `__init__`; `krb` says whether `krb_instance` is set. */
  datatype Config = Config(host: string, userName: Option<string>, krb: bool, krbPrimary: string, baseUri: string)

  /** Every way a client call can end in an exception. */
  datatype Failure =
    | Http(error: PyWebHdfsError)                  // raised by _raise_pywebhdfs_exception
    | TransportError(carried: Option<Response>)    // an HTTPError of fetch the client lets through
    | FetchFailed                                  // an exception of fetch other than HTTPError, passed on as is
    | MissingLocation                              // KeyError: a 307 without a location header
    | TypeError                                    // a keyword argument given twice to _create_uri
    | FormatError                                  // base_uri_pattern.format raised
    | AttributeError                               // reading an attribute the response object does not have

  datatype Run<T> = Run(result: Result<T, Failure>, world: World)

  /** The decoded JSON document of a response, represented by the text it was decoded from. */
  datatype Json = Json(text: string)

  const AUTHORIZATION: string := "Authorization"
  const CONTENT_TYPE: string := "Content-Type"
  const OCTET_STREAM: string := "application/octet-stream"
  const LOCATION: string := "location"

  // The WebHDFS operation names of the `operations` module.
  const CREATE: string := "CREATE"
  const APPEND: string := "APPEND"
  const OPEN: string := "OPEN"
  const MKDIRS: string := "MKDIRS"
  const RENAME: string := "RENAME"
  const DELETE_OP: string := "DELETE"
  const GETFILESTATUS: string := "GETFILESTATUS"
  const LISTSTATUS: string := "LISTSTATUS"
  const SETOWNER: string := "SETOWNER"
  const GETACLSTATUS: string := "GETACLSTATUS"

  // ----- Response headers (case-insensitive names; repeated values joined by ',') -----

  function HeaderValues(hs: seq<(string, string)>, name: string): seq<string>
    decreases |hs|
  {
    if hs == [] then []
    else (if LowerStr(hs[0].0) == LowerStr(name) then [hs[0].1] else []) + HeaderValues(hs[1..], name)
  }

  /** `response.headers[name]`, or None where Python raises KeyError. */
  function GetHeader(hs: seq<(string, string)>, name: string): Option<string>
  {
    var vs := HeaderValues(hs, name);
    if vs == [] then None else Some(Join(',', vs))
  }

  /** A response with one `Location` header, in any letter case, is redirected to exactly that value. */
  lemma SingleLocation(pre: seq<(string, string)>, key: string, v: string, post: seq<(string, string)>)
    requires LowerStr(key) == LowerStr(LOCATION)
    requires forall i :: 0 <= i < |pre| ==> LowerStr(pre[i].0) != LowerStr(LOCATION)
    requires forall i :: 0 <= i < |post| ==> LowerStr(post[i].0) != LowerStr(LOCATION)
    ensures GetHeader(pre + [(key, v)] + post, LOCATION) == Some(v)
  {
    SingleLocationValues(pre, key, v, post);
  }

  lemma {:induction false} SingleLocationValues(pre: seq<(string, string)>, key: string, v: string, post: seq<(string, string)>)
    requires LowerStr(key) == LowerStr(LOCATION)
    requires forall i :: 0 <= i < |pre| ==> LowerStr(pre[i].0) != LowerStr(LOCATION)
    requires forall i :: 0 <= i < |post| ==> LowerStr(post[i].0) != LowerStr(LOCATION)
    ensures HeaderValues(pre + [(key, v)] + post, LOCATION) == [v]
    decreases |pre|
  {
    if pre == [] {
      var hs := [(key, v)] + post;
      assert pre + [(key, v)] + post == hs;
      assert hs[1..] == post;
      NoMatchingHeader(post, LOCATION);
    } else {
      var hs := pre + [(key, v)] + post;
      assert hs[0] == pre[0];
      assert hs[1..] == pre[1..] + [(key, v)] + post;
      SingleLocationValues(pre[1..], key, v, post);
    }
  }

  lemma {:induction false} NoMatchingHeader(hs: seq<(string, string)>, name: string)
    requires forall i :: 0 <= i < |hs| ==> LowerStr(hs[i].0) != LowerStr(name)
    ensures HeaderValues(hs, name) == []
    decreases |hs|
  {
    if hs != [] {
      NoMatchingHeader(hs[1..], name);
    }
  }

  // ----- Steps shared by all operations -----

  /** `krb_instance.acquire_kerberos_ticket(krb_primary, host)`: a fresh ticket, logged. */
  function Acquire(c: Config, w: World): (Ticket, World)
  {
    var t := Ticket(c.krbPrimary, c.host, w.issued);
    (t, World(w.script, w.log + [Acquired(t)], w.issued + 1))
  }

  /** `if self.krb_instance: headers['Authorization'] = <fresh ticket>`. */
  function WithTicket(c: Config, h: Headers, w: World): (Headers, World)
  {
    if c.krb then
      var (t, w') := Acquire(c, w);
      (h[AUTHORIZATION := Token(t)], w')
    else (h, w)
  }

  /** `http_client.fetch(request)`: the next canned outcome; an exhausted script raises without a response. */
  function Send(w: World, req: Request): (Outcome, World)
  {
    if w.script == [] then (Raised(None), World([], w.log + [Sent(req)], w.issued))
    else (w.script[0], World(w.script[1..], w.log + [Sent(req)], w.issued))
  }

  /** `try: r = fetch(..) except HTTPError as e: r = e.response`; None where no response is left to read. */
  function Unwrap(o: Outcome): Option<Response>
  {
    match o
    case Reply(r) => Some(r)
    case Raised(carried) => carried
    case RaisedOther => None
  }

  /** `if not response.code == expected: _raise_pywebhdfs_exception(response.code, response.body)`. */
  function CheckStatus(resp: Response, expected: int): (r: Result<Response, Failure>)
  {
    if resp.code == expected then Ok(resp)
    else Err(Http(RaisePyWebHdfsException(resp.code, resp.body)))
  }

  /** The requests in a log, in order. */
  function Requests(log: seq<Event>): (rs: seq<Request>)
    ensures |rs| <= |log|
  {
    if log == [] then []
    else (if log[0].Sent? then [log[0].request] else []) + Requests(log[1..])
  }

  /** The tickets acquired in a log, in order. */
  function Tickets(log: seq<Event>): (ts: seq<Ticket>)
    ensures |ts| <= |log|
  {
    if log == [] then []
    else (if log[0].Acquired? then [log[0].ticket] else []) + Tickets(log[1..])
  }

  /** The events a call added on top of the log it started from (none if the log did not grow). */
  function NewEvents(before: World, after: World): seq<Event>
  {
    if |before.log| <= |after.log| then after.log[|before.log|..] else []
  }

  /** The events `WithTicket` logs: one acquisition when Kerberos is configured. */
  function TicketEvents(c: Config, w: World): seq<Event>
  {
    if c.krb then [Acquired(Ticket(c.krbPrimary, c.host, w.issued))] else []
  }

  // ----- create_file and append_file: the two-phase redirect upload -----

  datatype Upload = Create | Append

  function UploadMethod(u: Upload): Method
  {
    if u == Create then PUT else POST
  }

  function UploadOperation(u: Upload): string
  {
    if u == Create then CREATE else APPEND
  }

  function UploadSuccess(u: Upload): int
  {
    if u == Create then CREATED else OK
  }

  /** The phase-1 request to the namenode: empty body, redirects not followed. */
  function Phase1Request(c: Config, u: Upload, path: string, args: Kwargs, h: Headers): Request
  {
    Request(UploadMethod(u), BuildUri(c.baseUri, path, UploadOperation(u), args, c.userName), h, Some(""), false)
  }

  /** The phase-2 request to the datanode: the redirect target, the data, Tornado's default redirect policy. */
  function Phase2Request(u: Upload, location: string, data: string, h: Headers): Request
  {
    Request(UploadMethod(u), location, h, Some(data), true)
  }

  /** The end of an upload once the phase-2 request is out: True only on 201 (create) or 200 (append). */
  function Phase2Result(u: Upload, o: Outcome): Result<bool, Failure>
  {
    match o
    case Raised(carried) => Err(TransportError(carried))
    case RaisedOther => Err(FetchFailed)
    case Reply(resp) =>
      if resp.code != UploadSuccess(u) then Err(Http(RaisePyWebHdfsException(resp.code, resp.body)))
      else Ok(true)
  }

  /** `create_file` (u == Create) and `append_file` (u == Append). */
  function UploadSpec(c: Config, u: Upload, path: string, data: string, kwargs: Kwargs, w: World): Run<bool>
  {
    var (h1, w1) := WithTicket(c, map[], w);
    var args := CallArgs([], kwargs);
    if args.None? then Run(Err(TypeError), w1)
    else
      var (o1, w2) := Send(w1, Phase1Request(c, u, path, args.value, h1));
      var init := Unwrap(o1);
      if o1.RaisedOther? then Run(Err(FetchFailed), w2)
      else if init.None? then Run(Err(AttributeError), w2)
      else if init.value.code != TEMPORARY_REDIRECT then
        Run(Err(Http(RaisePyWebHdfsException(init.value.code, init.value.body))), w2)
      else
        var location := GetHeader(init.value.headers, LOCATION);
        if location.None? then Run(Err(MissingLocation), w2)
        else UploadFinish(c, u, data, h1, location.value, w2)
  }

  /** Phase 2 of an upload: a fresh ticket if configured, the data sent to `location`, the status checked. */
  function UploadFinish(c: Config, u: Upload, data: string, h1: Headers, location: string, w: World): Run<bool>
  {
    var (h2, w3) := WithTicket(c, h1[CONTENT_TYPE := Text(OCTET_STREAM)], w);
    var (o2, w4) := Send(w3, Phase2Request(u, location, data, h2));
    Run(Phase2Result(u, o2), w4)
  }

  /** The outcome the next `fetch` reads from a world. */
  function NextOutcome(w: World): Outcome
  {
    if w.script == [] then Raised(None) else w.script[0]
  }

  /** Phase 2 in closed form. */
  lemma UploadFinishRun(c: Config, u: Upload, data: string, h1: Headers, location: string, w: World)
    ensures var run := UploadFinish(c, u, data, h1, location, w);
      var h := h1[CONTENT_TYPE := Text(OCTET_STREAM)];
      var h2 := if c.krb then h[AUTHORIZATION := Token(Ticket(c.krbPrimary, c.host, w.issued))] else h;
      && run.world.log == w.log + TicketEvents(c, w) + [Sent(Phase2Request(u, location, data, h2))]
      && run.world.issued == w.issued + (if c.krb then 1 else 0)
      && run.world.script == (if w.script == [] then [] else w.script[1..])
      && run.result == Phase2Result(u, NextOutcome(w))
  {
  }

  /** Phase 1 reached the server and answered 307 with a location to go on to. */
  predicate Redirected(kwargs: Kwargs, w: World)
  {
    && CallArgs([], kwargs).Some?
    && w.script != []
    && Unwrap(w.script[0]).Some?
    && Unwrap(w.script[0]).value.code == TEMPORARY_REDIRECT
    && GetHeader(Unwrap(w.script[0]).value.headers, LOCATION).Some?
  }

  /** The `location` of the namenode's 307. */
  function RedirectTarget(kwargs: Kwargs, w: World): string
    requires Redirected(kwargs, w)
  {
    GetHeader(Unwrap(w.script[0]).value.headers, LOCATION).value
  }

  /** The headers of the phase-1 request: the first ticket, if Kerberos is configured. */
  function Phase1Headers(c: Config, w: World): Headers
  {
    if c.krb then map[AUTHORIZATION := Token(Ticket(c.krbPrimary, c.host, w.issued))] else map[]
  }

  /** The headers of the phase-2 request: the content type, and the second ticket in place of the first. */
  function Phase2Headers(c: Config, w: World): Headers
  {
    var h := Phase1Headers(c, w)[CONTENT_TYPE := Text(OCTET_STREAM)];
    if c.krb then h[AUTHORIZATION := Token(Ticket(c.krbPrimary, c.host, w.issued + 1))] else h
  }

  /** The outcome phase 2 reads: the second canned outcome, or a failure without response if none is left. */
  function SecondOutcome(w: World): Outcome
  {
    if |w.script| >= 2 then w.script[1] else Raised(None)
  }

  /** The first `WithTicket` of a call, on the empty header map, in closed form. */
  lemma WithTicketEmpty(c: Config, w: World)
    ensures WithTicket(c, map[], w)
         == (Phase1Headers(c, w), World(w.script, w.log + TicketEvents(c, w), w.issued + (if c.krb then 1 else 0)))
  {
    if c.krb {
      assert map[][AUTHORIZATION := Token(Ticket(c.krbPrimary, c.host, w.issued))]
          == map[AUTHORIZATION := Token(Ticket(c.krbPrimary, c.host, w.issued))];
    } else {
      assert w.log + [] == w.log;
    }
  }

  /** The world once a redirected phase 1 is out: the first outcome consumed, the ticket and request logged. */
  function AfterPhase1(c: Config, u: Upload, path: string, kwargs: Kwargs, w: World): World
    requires Redirected(kwargs, w)
  {
    var q1 := Phase1Request(c, u, path, CallArgs([], kwargs).value, Phase1Headers(c, w));
    World(w.script[1..], w.log + TicketEvents(c, w) + [Sent(q1)], w.issued + (if c.krb then 1 else 0))
  }

  lemma UploadSpecRedirected(c: Config, u: Upload, path: string, data: string, kwargs: Kwargs, w: World)
    requires Redirected(kwargs, w)
    ensures UploadSpec(c, u, path, data, kwargs, w)
         == UploadFinish(c, u, data, Phase1Headers(c, w), RedirectTarget(kwargs, w), AfterPhase1(c, u, path, kwargs, w))
  {
    WithTicketEmpty(c, w);
  }

  /** Phase 2 run on the world phase 1 left behind, in closed form. */
  lemma UploadFinishAfterPhase1(c: Config, u: Upload, path: string, data: string, kwargs: Kwargs, w: World)
    requires Redirected(kwargs, w)
    ensures var run := UploadFinish(c, u, data, Phase1Headers(c, w), RedirectTarget(kwargs, w), AfterPhase1(c, u, path, kwargs, w));
      var q1 := Phase1Request(c, u, path, CallArgs([], kwargs).value, Phase1Headers(c, w));
      var q2 := Phase2Request(u, RedirectTarget(kwargs, w), data, Phase2Headers(c, w));
      var t1, t2 := Ticket(c.krbPrimary, c.host, w.issued), Ticket(c.krbPrimary, c.host, w.issued + 1);
      && run.world.log == w.log + (if c.krb then [Acquired(t1), Sent(q1), Acquired(t2), Sent(q2)] else [Sent(q1), Sent(q2)])
      && run.world.issued == w.issued + (if c.krb then 2 else 0)
      && run.world.script == (if |w.script| >= 2 then w.script[2..] else [])
      && run.result == Phase2Result(u, SecondOutcome(w))
  {
    var q1 := Phase1Request(c, u, path, CallArgs([], kwargs).value, Phase1Headers(c, w));
    FinishAfter(c, u, data, RedirectTarget(kwargs, w), q1, w, AfterPhase1(c, u, path, kwargs, w));
  }

  /** Phase 2 after any phase-1 request `q1` that consumed the first outcome. */
  lemma FinishAfter(c: Config, u: Upload, data: string, loc: string, q1: Request, w: World, w2: World)
    requires w.script != []
    requires w2 == World(w.script[1..], w.log + TicketEvents(c, w) + [Sent(q1)], w.issued + (if c.krb then 1 else 0))
    ensures var run := UploadFinish(c, u, data, Phase1Headers(c, w), loc, w2);
      var q2 := Phase2Request(u, loc, data, Phase2Headers(c, w));
      var t1, t2 := Ticket(c.krbPrimary, c.host, w.issued), Ticket(c.krbPrimary, c.host, w.issued + 1);
      && run.world.log == w.log + (if c.krb then [Acquired(t1), Sent(q1), Acquired(t2), Sent(q2)] else [Sent(q1), Sent(q2)])
      && run.world.issued == w.issued + (if c.krb then 2 else 0)
      && run.world.script == (if |w.script| >= 2 then w.script[2..] else [])
      && run.result == Phase2Result(u, SecondOutcome(w))
  {
    var t1, t2 := Ticket(c.krbPrimary, c.host, w.issued), Ticket(c.krbPrimary, c.host, w.issued + 1);
    var h1 := Phase1Headers(c, w);
    var run := UploadFinish(c, u, data, h1, loc, w2);
    UploadFinishRun(c, u, data, h1, loc, w2);
    var q2 := Phase2Request(u, loc, data, Phase2Headers(c, w));
    assert run.world.log == w2.log + TicketEvents(c, w2) + [Sent(q2)];
    if |w.script| >= 2 {
      assert w.script[1..][1..] == w.script[2..];
    }
    assert NextOutcome(w2) == SecondOutcome(w);
    LogShape(c.krb, w.log, TicketEvents(c, w), Sent(q1), TicketEvents(c, w2), Sent(q2), t1, t2);
  }

  lemma LogShape(krb: bool, log: seq<Event>, a: seq<Event>, s1: Event, b: seq<Event>, s2: Event, t1: Ticket, t2: Ticket)
    requires a == (if krb then [Acquired(t1)] else [])
    requires b == (if krb then [Acquired(t2)] else [])
    ensures log + a + [s1] + b + [s2] == log + (if krb then [Acquired(t1), s1, Acquired(t2), s2] else [s1, s2])
  {
    if krb {
      assert log + a + [s1] + b + [s2] == log + [Acquired(t1), s1, Acquired(t2), s2];
    } else {
      assert log + a + [s1] + b + [s2] == log + [s1, s2];
    }
  }

  /** The whole redirected upload in closed form: the events it logs, what it consumes, what it returns. */
  lemma UploadRedirectedRun(c: Config, u: Upload, path: string, data: string, kwargs: Kwargs, w: World)
    requires Redirected(kwargs, w)
    ensures var run := UploadSpec(c, u, path, data, kwargs, w);
      var q1 := Phase1Request(c, u, path, CallArgs([], kwargs).value, Phase1Headers(c, w));
      var q2 := Phase2Request(u, RedirectTarget(kwargs, w), data, Phase2Headers(c, w));
      var t1, t2 := Ticket(c.krbPrimary, c.host, w.issued), Ticket(c.krbPrimary, c.host, w.issued + 1);
      && run.world.log == w.log + (if c.krb then [Acquired(t1), Sent(q1), Acquired(t2), Sent(q2)] else [Sent(q1), Sent(q2)])
      && run.world.issued == w.issued + (if c.krb then 2 else 0)
      && run.world.script == (if |w.script| >= 2 then w.script[2..] else [])
      && run.result == Phase2Result(u, SecondOutcome(w))
  {
    UploadSpecRedirected(c, u, path, data, kwargs, w);
    UploadFinishAfterPhase1(c, u, path, data, kwargs, w);
  }

  /**
   * Phase-1 rejection: when the namenode's answer -- returned normally or
   * carried by an HTTPError -- is anything but 307, the call fails with the
   * classified error for that status and body, and no second request is
   * issued: the log grows by the optional ticket and the one phase-1 request.
   */
  lemma UploadPhase1Rejected(c: Config, u: Upload, path: string, data: string, kwargs: Kwargs, w: World, resp: Response)
    requires CallArgs([], kwargs).Some?
    requires w.script != [] && Unwrap(w.script[0]) == Some(resp)
    requires resp.code != TEMPORARY_REDIRECT
    ensures var run := UploadSpec(c, u, path, data, kwargs, w);
      && run.result == Err(Http(RaisePyWebHdfsException(resp.code, resp.body)))
      && run.world.log == w.log + TicketEvents(c, w) + [Sent(Phase1Request(c, u, path, CallArgs([], kwargs).value, Phase1Headers(c, w)))]
      && run.world.script == w.script[1..]
  {
    assert WithTicket(c, map[], w).0 == Phase1Headers(c, w);
  }

  /**
   * An exception of a class other than HTTPError in phase 1 escapes the
   * `except HTTPError` clause: the call fails with it, after only the
   * phase-1 request.
   */
  lemma UploadPhase1Failed(c: Config, u: Upload, path: string, data: string, kwargs: Kwargs, w: World)
    requires CallArgs([], kwargs).Some?
    requires w.script != [] && w.script[0].RaisedOther?
    ensures var run := UploadSpec(c, u, path, data, kwargs, w);
      && run.result == Err(FetchFailed)
      && run.world.log == w.log + TicketEvents(c, w) + [Sent(Phase1Request(c, u, path, CallArgs([], kwargs).value, Phase1Headers(c, w)))]
      && run.world.script == w.script[1..]
  {
    assert WithTicket(c, map[], w).0 == Phase1Headers(c, w);
  }

  /**
   * Request shapes: once phase 1 is redirected, the call sends exactly two
   * requests. The first goes to the built URI with an empty body and
   * redirects off; the second has the same method, targets exactly the
   * `location` value, carries the data and `Content-Type:
   * application/octet-stream`. With Kerberos, a ticket is acquired right
   * before each request, the two tickets differ, and each request carries the
   * one acquired just before it; without Kerberos no request has an
   * Authorization header.
   */
  lemma UploadRedirectedTrace(c: Config, u: Upload, path: string, data: string, kwargs: Kwargs, w: World)
    requires Redirected(kwargs, w)
    ensures var run := UploadSpec(c, u, path, data, kwargs, w);
      var q1 := Phase1Request(c, u, path, CallArgs([], kwargs).value, Phase1Headers(c, w));
      var q2 := Phase2Request(u, RedirectTarget(kwargs, w), data, Phase2Headers(c, w));
      var t1, t2 := Ticket(c.krbPrimary, c.host, w.issued), Ticket(c.krbPrimary, c.host, w.issued + 1);
      && q1.verb == q2.verb == UploadMethod(u)
      && q1.uri == BuildUri(c.baseUri, path, UploadOperation(u), kwargs, c.userName)
      && q1.body == Some("") && !q1.followRedirects && CONTENT_TYPE !in q1.headers
      && q2.uri == RedirectTarget(kwargs, w) && q2.body == Some(data)
      && q2.headers[CONTENT_TYPE] == Text(OCTET_STREAM)
      && (c.krb ==> run.world.log == w.log + [Acquired(t1), Sent(q1), Acquired(t2), Sent(q2)])
      && (c.krb ==> t1 != t2 && q1.headers[AUTHORIZATION] == Token(t1) && q2.headers[AUTHORIZATION] == Token(t2))
      && (!c.krb ==> run.world.log == w.log + [Sent(q1), Sent(q2)])
      && (!c.krb ==> AUTHORIZATION !in q1.headers && AUTHORIZATION !in q2.headers)
  {
    UploadRedirectedRun(c, u, path, data, kwargs, w);
    UploadRequestShapes(c, u, path, data, CallArgs([], kwargs).value, RedirectTarget(kwargs, w), w);
    assert CallArgs([], kwargs).value == [] + kwargs == kwargs;
  }

  /** The two requests of an upload, whatever the world: their methods, targets, bodies and headers. */
  lemma UploadRequestShapes(c: Config, u: Upload, path: string, data: string, args: Kwargs, loc: string, w: World)
    ensures var q1 := Phase1Request(c, u, path, args, Phase1Headers(c, w));
      var q2 := Phase2Request(u, loc, data, Phase2Headers(c, w));
      var t1, t2 := Ticket(c.krbPrimary, c.host, w.issued), Ticket(c.krbPrimary, c.host, w.issued + 1);
      && q1.verb == q2.verb == UploadMethod(u)
      && q1.uri == BuildUri(c.baseUri, path, UploadOperation(u), args, c.userName)
      && q1.body == Some("") && !q1.followRedirects && CONTENT_TYPE !in q1.headers
      && q2.uri == loc && q2.body == Some(data)
      && q2.headers[CONTENT_TYPE] == Text(OCTET_STREAM)
      && (c.krb ==> t1 != t2 && q1.headers[AUTHORIZATION] == Token(t1) && q2.headers[AUTHORIZATION] == Token(t2))
      && (!c.krb ==> AUTHORIZATION !in q1.headers && AUTHORIZATION !in q2.headers)
  {
    assert AUTHORIZATION[0] != CONTENT_TYPE[0];
  }

  /**
   * Success status: the call returns True exactly when phase 1 is redirected
   * and phase 2 answers 201 (create) or 200 (append); a phase-2 answer with
   * any other status raises the classified error carrying the phase-2 body.
   */
  lemma UploadSucceedsIff(c: Config, u: Upload, path: string, data: string, kwargs: Kwargs, w: World)
    ensures var run := UploadSpec(c, u, path, data, kwargs, w);
      && (run.result.Ok? ==> run.result.value)
      && (run.result.Ok? <==>
            Redirected(kwargs, w) && SecondOutcome(w).Reply? && SecondOutcome(w).response.code == UploadSuccess(u))
      && ((Redirected(kwargs, w) && SecondOutcome(w).Reply? && SecondOutcome(w).response.code != UploadSuccess(u))
            ==> run.result == Err(Http(RaisePyWebHdfsException(SecondOutcome(w).response.code, SecondOutcome(w).response.body))))
      && (Redirected(kwargs, w) && SecondOutcome(w).RaisedOther? ==> run.result == Err(FetchFailed))
  {
    if Redirected(kwargs, w) {
      UploadRedirectedRun(c, u, path, data, kwargs, w);
    } else {
      var (h1, w1) := WithTicket(c, map[], w);
      assert w1.script == w.script;
      var args := CallArgs([], kwargs);
      if args.Some? {
        var (o1, w2) := Send(w1, Phase1Request(c, u, path, args.value, h1));
        assert w.script != [] ==> o1 == w.script[0];
        assert w.script == [] ==> o1 == Raised(None);
      }
    }
  }

  lemma EventsCons(e: Event, rest: seq<Event>)
    ensures Requests([e] + rest) == (if e.Sent? then [e.request] else []) + Requests(rest)
    ensures Tickets([e] + rest) == (if e.Acquired? then [e.ticket] else []) + Tickets(rest)
  {
    assert ([e] + rest)[1..] == rest;
  }

  /** The requests and tickets of the two event lists a redirected upload can log. */
  lemma UploadEventLists(t1: Ticket, q1: Request, t2: Ticket, q2: Request)
    ensures Requests([Acquired(t1), Sent(q1), Acquired(t2), Sent(q2)]) == [q1, q2]
    ensures Tickets([Acquired(t1), Sent(q1), Acquired(t2), Sent(q2)]) == [t1, t2]
    ensures Requests([Sent(q1), Sent(q2)]) == [q1, q2]
    ensures Tickets([Sent(q1), Sent(q2)]) == []
  {
    var l1 := [Sent(q2)];
    EventsCons(Sent(q2), []);
    assert [Sent(q2)] + [] == l1;
    var l2 := [Acquired(t2)] + l1;
    EventsCons(Acquired(t2), l1);
    var l3 := [Sent(q1)] + l2;
    EventsCons(Sent(q1), l2);
    var l4 := [Acquired(t1)] + l3;
    EventsCons(Acquired(t1), l3);
    assert l4 == [Acquired(t1), Sent(q1), Acquired(t2), Sent(q2)];
    var m := [Sent(q1)] + l1;
    EventsCons(Sent(q1), l1);
    assert m == [Sent(q1), Sent(q2)];
  }

  /** A successful upload sent exactly two requests and, with Kerberos, acquired exactly two distinct tickets. */
  lemma UploadSuccessCounts(c: Config, u: Upload, path: string, data: string, kwargs: Kwargs, w: World)
    requires UploadSpec(c, u, path, data, kwargs, w).result.Ok?
    ensures var run := UploadSpec(c, u, path, data, kwargs, w);
      && |w.log| <= |run.world.log|
      && |Requests(NewEvents(w, run.world))| == 2
      && |Tickets(NewEvents(w, run.world))| == (if c.krb then 2 else 0)
      && (c.krb ==> Tickets(NewEvents(w, run.world))[0] != Tickets(NewEvents(w, run.world))[1])
  {
    UploadSucceedsIff(c, u, path, data, kwargs, w);
    UploadRedirectedRun(c, u, path, data, kwargs, w);
    var run := UploadSpec(c, u, path, data, kwargs, w);
    var q1 := Phase1Request(c, u, path, CallArgs([], kwargs).value, Phase1Headers(c, w));
    var q2 := Phase2Request(u, RedirectTarget(kwargs, w), data, Phase2Headers(c, w));
    var t1, t2 := Ticket(c.krbPrimary, c.host, w.issued), Ticket(c.krbPrimary, c.host, w.issued + 1);
    var d := if c.krb then [Acquired(t1), Sent(q1), Acquired(t2), Sent(q2)] else [Sent(q1), Sent(q2)];
    assert run.world.log == w.log + d;
    assert NewEvents(w, run.world) == d;
    UploadEventLists(t1, q1, t2, q2);
  }

  /**
   * Without Kerberos, a create against a namenode that answers 307 with a
   * `Location` header naming `target`, and a datanode that answers 201,
   * returns True, and its second request goes to `target` with the data.
   */
  lemma CreateScenario(c: Config, path: string, data: string, target: string)
    requires !c.krb
    ensures var w := World([Reply(Response(TEMPORARY_REDIRECT, [("Location", target)], "")),
                            Reply(Response(CREATED, [], ""))], [], 0);
      var run := UploadSpec(c, Create, path, data, [], w);
      && run.result == Ok(true)
      && |run.world.log| == 2
      && run.world.log[1] == Sent(Request(PUT, target, map[CONTENT_TYPE := Text(OCTET_STREAM)], Some(data), true))
  {
    var w := World([Reply(Response(TEMPORARY_REDIRECT, [("Location", target)], "")),
                    Reply(Response(CREATED, [], ""))], [], 0);
    CapitalizedLocation(target);
    assert Redirected([], w);
    assert RedirectTarget([], w) == target;
    UploadRedirectedRun(c, Create, path, data, [], w);
    assert Phase2Headers(c, w) == map[CONTENT_TYPE := Text(OCTET_STREAM)];
  }

  /** A `Location` header spelled with a capital letter is found by the lookup of `location`. */
  lemma CapitalizedLocation(target: string)
    ensures GetHeader([("Location", target)], LOCATION) == Some(target)
  {
    LocationCase();
    OneLocationHeader("Location", target);
  }

  lemma LocationCase()
    ensures LowerStr("Location") == LowerStr(LOCATION)
  {
    assert forall i :: 0 <= i < 8 ==> LowerStr("Location")[i] == LowerStr(LOCATION)[i];
  }

  lemma OneLocationHeader(key: string, v: string)
    requires LowerStr(key) == LowerStr(LOCATION)
    ensures GetHeader([(key, v)], LOCATION) == Some(v)
  {
    SingleLocation([], key, v, []);
    assert [] + [(key, v)] + [] == [(key, v)];
  }

  // ----- The single-request operations -----

  /**
   * One request with redirects followed: `read_file`, `make_dir`,
   * `rename_file_dir`, `delete_file_dir`, `get_file_dir_status`, `list_dir`,
   * `set_owner` and `get_acl_status` differ only in the method, the operation,
   * the keyword arguments and the body given here, and in what they make of
   * the response.
   */
  function SingleSpec(c: Config, m: Method, op: string, path: string, explicit: Kwargs, kwargs: Kwargs,
                      body: Option<string>, w: World): Run<Response>
  {
    var (h, w1) := WithTicket(c, map[], w);
    var args := CallArgs(explicit, kwargs);
    if args.None? then Run(Err(TypeError), w1)
    else
      var (o, w2) := Send(w1, Request(m, BuildUri(c.baseUri, path, op, args.value, c.userName), h, body, true));
      match o
      case Raised(carried) => Run(Err(TransportError(carried)), w2)
      case RaisedOther => Run(Err(FetchFailed), w2)
      case Reply(resp) => Run(CheckStatus(resp, OK), w2)
  }

  /**
   * A single-request operation issues exactly one request, with the given
   * method and the built URI, after at most one ticket acquisition; it
   * succeeds exactly when the reply's status is 200 and then hands back that
   * reply unchanged.
   */
  lemma SingleTrace(c: Config, m: Method, op: string, path: string, explicit: Kwargs, kwargs: Kwargs,
                    body: Option<string>, w: World)
    requires CallArgs(explicit, kwargs).Some?
    ensures var run := SingleSpec(c, m, op, path, explicit, kwargs, body, w);
      var h := WithTicket(c, map[], w).0;
      var q := Request(m, BuildUri(c.baseUri, path, op, CallArgs(explicit, kwargs).value, c.userName), h, body, true);
      && run.world.log == w.log + TicketEvents(c, w) + [Sent(q)]
      && (c.krb <==> AUTHORIZATION in q.headers)
      && (run.result.Ok? <==> w.script != [] && w.script[0].Reply? && w.script[0].response.code == OK)
      && (run.result.Ok? ==> run.result.value == w.script[0].response)
      && (w.script != [] && w.script[0].Reply? && w.script[0].response.code != OK ==>
            run.result == Err(Http(RaisePyWebHdfsException(w.script[0].response.code, w.script[0].response.body))))
      && (w.script != [] && w.script[0].Raised? ==> run.result == Err(TransportError(w.script[0].carried)))
      && (w.script != [] && w.script[0].RaisedOther? ==> run.result == Err(FetchFailed))
  {
  }

  /** A keyword argument that repeats one the call passes itself stops the call before any request. */
  lemma DuplicateArgumentSendsNothing(c: Config, m: Method, op: string, path: string, explicit: Kwargs, kwargs: Kwargs,
                                      body: Option<string>, w: World)
    requires CallArgs(explicit, kwargs).None?
    ensures var run := SingleSpec(c, m, op, path, explicit, kwargs, body, w);
      run.result == Err(TypeError) && run.world.log == w.log + TicketEvents(c, w) && Requests(TicketEvents(c, w)) == []
  {
  }

  function MapResult<T, U>(r: Result<T, Failure>, f: T -> U): Result<U, Failure>
  {
    match r
    case Ok(v) => Ok(f(v))
    case Err(e) => Err(e)
  }

  /** `read_file`: GET ?op=OPEN; the body of the 200 response. */
  function ReadFileSpec(c: Config, path: string, kwargs: Kwargs, w: World): Run<string>
  {
    var run := SingleSpec(c, GET, OPEN, path, [], kwargs, None, w);
    Run(MapResult(run.result, (r: Response) => r.body), run.world)
  }

  /** `make_dir`: PUT ?op=MKDIRS with an empty body. */
  function MakeDirSpec(c: Config, path: string, kwargs: Kwargs, w: World): Run<bool>
  {
    var run := SingleSpec(c, PUT, MKDIRS, path, [], kwargs, Some(""), w);
    Run(MapResult(run.result, (r: Response) => true), run.world)
  }

  /** `rename_file_dir`: PUT ?op=RENAME&destination=<dest> with an empty body. */
  function RenameFileDirSpec(c: Config, path: string, destination: string, kwargs: Kwargs, w: World): Run<bool>
  {
    var run := SingleSpec(c, PUT, RENAME, path, [("destination", StrArg(destination))], kwargs, Some(""), w);
    Run(MapResult(run.result, (r: Response) => true), run.world)
  }

  /** `delete_file_dir`: DELETE ?op=DELETE&recursive=<recursive>; the caller's default is False. */
  function DeleteFileDirSpec(c: Config, path: string, recursive: ArgValue, kwargs: Kwargs, w: World): Run<bool>
  {
    var run := SingleSpec(c, DELETE, DELETE_OP, path, [("recursive", recursive)], kwargs, None, w);
    Run(MapResult(run.result, (r: Response) => true), run.world)
  }

  /** `get_file_dir_status`: GET ?op=GETFILESTATUS; the decoded body. */
  function GetFileDirStatusSpec(c: Config, path: string, kwargs: Kwargs, w: World): Run<Json>
  {
    var run := SingleSpec(c, GET, GETFILESTATUS, path, [], kwargs, None, w);
    Run(MapResult(run.result, (r: Response) => Json(r.body)), run.world)
  }

  /** `list_dir`: GET ?op=LISTSTATUS; the decoded body. */
  function ListDirSpec(c: Config, path: string, kwargs: Kwargs, w: World): Run<Json>
  {
    var run := SingleSpec(c, GET, LISTSTATUS, path, [], kwargs, None, w);
    Run(MapResult(run.result, (r: Response) => Json(r.body)), run.world)
  }

  /** The keyword arguments of `set_owner` after `optional_args['owner'] = owner; optional_args['group'] = group`. */
  function SetOwnerArgs(owner: string, group: string, kwargs: Kwargs): Kwargs
  {
    Put(Put(kwargs, "owner", StrArg(owner)), "group", StrArg(group))
  }

  /** `set_owner`: PUT ?op=SETOWNER&owner=..&group=..; True on 200 (the check its authors intended). */
  function SetOwnerSpec(c: Config, path: string, owner: string, group: string, kwargs: Kwargs, w: World): Run<bool>
  {
    var run := SingleSpec(c, PUT, SETOWNER, path, [], SetOwnerArgs(owner, group, kwargs), None, w);
    Run(MapResult(run.result, (r: Response) => true), run.world)
  }

  /** `get_acl_status`: GET ?op=GETACLSTATUS; the decoded body. */
  function GetAclStatusSpec(c: Config, path: string, kwargs: Kwargs, w: World): Run<Json>
  {
    var run := SingleSpec(c, GET, GETACLSTATUS, path, [], kwargs, None, w);
    Run(MapResult(run.result, (r: Response) => Json(r.body)), run.world)
  }

  /**
   * The result table of the single-request operations: each one that gets
   * past argument merging succeeds exactly on a 200 reply. `read_file`
   * returns the body unchanged, the JSON operations the document decoded from
   * it, the others True. The request each sends is the one SingleTrace states
   * for the method, operation and arguments its specification function passes.
   */
  lemma OperationTable(c: Config, path: string, dest: string, recursive: ArgValue, owner: string, group: string,
                       kwargs: Kwargs, w: World)
    ensures var ok := w.script != [] && w.script[0].Reply? && w.script[0].response.code == OK;
      var body := if w.script != [] && w.script[0].Reply? then w.script[0].response.body else "";
      && ReadFileSpec(c, path, kwargs, w).world == SingleSpec(c, GET, OPEN, path, [], kwargs, None, w).world
      && (CallArgs([], kwargs).Some? ==> (ReadFileSpec(c, path, kwargs, w).result.Ok? <==> ok))
      && (ReadFileSpec(c, path, kwargs, w).result.Ok? ==> ReadFileSpec(c, path, kwargs, w).result.value == body)
      && (CallArgs([], kwargs).Some? ==> (MakeDirSpec(c, path, kwargs, w).result.Ok? <==> ok))
      && (CallArgs([("destination", StrArg(dest))], kwargs).Some? ==>
            (RenameFileDirSpec(c, path, dest, kwargs, w).result.Ok? <==> ok))
      && (CallArgs([("recursive", recursive)], kwargs).Some? ==>
            (DeleteFileDirSpec(c, path, recursive, kwargs, w).result.Ok? <==> ok))
      && (CallArgs([], kwargs).Some? ==> (GetFileDirStatusSpec(c, path, kwargs, w).result.Ok? <==> ok))
      && (GetFileDirStatusSpec(c, path, kwargs, w).result.Ok? ==> GetFileDirStatusSpec(c, path, kwargs, w).result.value == Json(body))
      && (CallArgs([], kwargs).Some? ==> (ListDirSpec(c, path, kwargs, w).result.Ok? <==> ok))
      && (ListDirSpec(c, path, kwargs, w).result.Ok? ==> ListDirSpec(c, path, kwargs, w).result.value == Json(body))
      && (CallArgs([], SetOwnerArgs(owner, group, kwargs)).Some? ==>
            (SetOwnerSpec(c, path, owner, group, kwargs, w).result.Ok? <==> ok))
      && (CallArgs([], kwargs).Some? ==> (GetAclStatusSpec(c, path, kwargs, w).result.Ok? <==> ok))
      && (GetAclStatusSpec(c, path, kwargs, w).result.Ok? ==> GetAclStatusSpec(c, path, kwargs, w).result.value == Json(body))
  {
    if CallArgs([], kwargs).Some? {
      SingleTrace(c, GET, OPEN, path, [], kwargs, None, w);
      SingleTrace(c, PUT, MKDIRS, path, [], kwargs, Some(""), w);
      SingleTrace(c, GET, GETFILESTATUS, path, [], kwargs, None, w);
      SingleTrace(c, GET, LISTSTATUS, path, [], kwargs, None, w);
      SingleTrace(c, GET, GETACLSTATUS, path, [], kwargs, None, w);
    }
    if CallArgs([("destination", StrArg(dest))], kwargs).Some? {
      SingleTrace(c, PUT, RENAME, path, [("destination", StrArg(dest))], kwargs, Some(""), w);
    }
    if CallArgs([("recursive", recursive)], kwargs).Some? {
      SingleTrace(c, DELETE, DELETE_OP, path, [("recursive", recursive)], kwargs, None, w);
    }
    if CallArgs([], SetOwnerArgs(owner, group, kwargs)).Some? {
      SingleTrace(c, PUT, SETOWNER, path, [], SetOwnerArgs(owner, group, kwargs), None, w);
    }
  }

  /** A single-request operation that gets past argument merging logs exactly one request. */
  lemma SingleOneRequest(c: Config, m: Method, op: string, path: string, explicit: Kwargs, kwargs: Kwargs,
                         body: Option<string>, w: World)
    requires CallArgs(explicit, kwargs).Some?
    ensures var run := SingleSpec(c, m, op, path, explicit, kwargs, body, w);
      && |w.log| <= |run.world.log|
      && Requests(NewEvents(w, run.world))
         == [Request(m, BuildUri(c.baseUri, path, op, explicit + kwargs, c.userName), WithTicket(c, map[], w).0, body, true)]
  {
    SingleTrace(c, m, op, path, explicit, kwargs, body, w);
    var run := SingleSpec(c, m, op, path, explicit, kwargs, body, w);
    var q := Request(m, BuildUri(c.baseUri, path, op, explicit + kwargs, c.userName), WithTicket(c, map[], w).0, body, true);
    var d := TicketEvents(c, w) + [Sent(q)];
    assert NewEvents(w, run.world) == d;
    assert Requests([Sent(q)]) == [q];
    if c.krb {
      assert d[1..] == [Sent(q)];
    } else {
      assert d == [Sent(q)];
    }
  }

  /** The first keyword field of a URI whose arguments start with `key=v`. */
  lemma FirstKeywordField(base: string, path: string, op: string, key: string, v: ArgValue, kwargs: Kwargs,
                          user: Option<string>)
    requires AmpersandFree(op, [(key, v)] + kwargs, user)
    ensures QueryFieldAt(BuildUri(base, path, op, [(key, v)] + kwargs, user), |base| + |path|, 1)
            == Some(key + "=" + ParamValue(v))
  {
    var args := [(key, v)] + kwargs;
    ParseQuery(base, path, op, args, user);
    var fs := Split('&', BuildUri(base, path, op, args, user)[|base| + |path| + 1..]);
    assert fs[1..|args| + 1][0] == KeywordFields(args)[0];
  }

  /**
   * A single-request operation whose own argument is `key=v` sends one
   * request, and the first keyword field of its query string is `key=`
   * followed by the lower-cased `str(v)`.
   */
  lemma SingleSendsFirstField(c: Config, m: Method, op: string, path: string, key: string, v: ArgValue,
                              kwargs: Kwargs, body: Option<string>, w: World)
    requires CallArgs([(key, v)], kwargs).Some?
    requires AmpersandFree(op, [(key, v)] + kwargs, c.userName)
    ensures var run := SingleSpec(c, m, op, path, [(key, v)], kwargs, body, w);
      var q := Requests(NewEvents(w, run.world));
      && |q| == 1 && q[0].verb == m && q[0].body == body
      && QueryFieldAt(q[0].uri, |c.baseUri| + |path|, 1) == Some(key + "=" + ParamValue(v))
  {
    var run := SingleSpec(c, m, op, path, [(key, v)], kwargs, body, w);
    var q := Requests(NewEvents(w, run.world));
    SingleOneRequest(c, m, op, path, [(key, v)], kwargs, body, w);
    FirstKeywordField(c.baseUri, path, op, key, v, kwargs, c.userName);
  }

  /** `delete_file_dir` always sends `recursive=`, and its default False is written `recursive=false`. */
  lemma DeleteSendsRecursive(c: Config, path: string, kwargs: Kwargs, w: World)
    requires CallArgs([("recursive", BoolArg(false))], kwargs).Some?
    requires AmpersandFree(DELETE_OP, [("recursive", BoolArg(false))] + kwargs, c.userName)
    ensures var run := DeleteFileDirSpec(c, path, BoolArg(false), kwargs, w);
      var q := Requests(NewEvents(w, run.world));
      && |q| == 1 && q[0].verb == DELETE && q[0].body == None
      && QueryFieldAt(q[0].uri, |c.baseUri| + |path|, 1) == Some("recursive" + "=" + "false")
  {
    SingleSendsFirstField(c, DELETE, DELETE_OP, path, "recursive", BoolArg(false), kwargs, None, w);
    BoolParam("recursive", false);
    assert ParamValue(BoolArg(false)) == "false";
  }

  /** `rename_file_dir` sends the destination as the first keyword field, lower-cased like every value. */
  lemma RenameSendsDestination(c: Config, path: string, dest: string, kwargs: Kwargs, w: World)
    requires CallArgs([("destination", StrArg(dest))], kwargs).Some?
    requires AmpersandFree(RENAME, [("destination", StrArg(dest))] + kwargs, c.userName)
    ensures var run := RenameFileDirSpec(c, path, dest, kwargs, w);
      var q := Requests(NewEvents(w, run.world));
      && |q| == 1 && q[0].verb == PUT && q[0].body == Some("")
      && QueryFieldAt(q[0].uri, |c.baseUri| + |path|, 1) == Some("destination" + "=" + LowerStr(dest))
  {
    SingleSendsFirstField(c, PUT, RENAME, path, "destination", StrArg(dest), kwargs, Some(""), w);
  }

  /** `set_owner` passes `owner` and `group` with the given values and leaves the other arguments alone. */
  lemma SetOwnerAddsOwnerAndGroup(owner: string, group: string, kwargs: Kwargs, other: string)
    requires DistinctKeys(kwargs)
    ensures var args := SetOwnerArgs(owner, group, kwargs);
      && Get(args, "owner") == Some(StrArg(owner))
      && Get(args, "group") == Some(StrArg(group))
      && (other != "owner" && other != "group" ==> Get(args, other) == Get(kwargs, other))
      && DistinctKeys(args)
  {
    var once := Put(kwargs, "owner", StrArg(owner));
    PutGet(kwargs, "owner", StrArg(owner), other);
    PutGet(kwargs, "owner", StrArg(owner), "group");
    PutGet(once, "group", StrArg(group), other);
    PutGet(once, "group", StrArg(group), "owner");
  }

  /**
   * `set_owner` with the intended check: True exactly on a 200 reply; any
   * other status raises the classified error carrying the reply's body.
   */
  lemma SetOwnerSucceedsIff(c: Config, path: string, owner: string, group: string, kwargs: Kwargs, w: World)
    requires CallArgs([], SetOwnerArgs(owner, group, kwargs)).Some?
    ensures var r := SetOwnerSpec(c, path, owner, group, kwargs, w).result;
      && (r.Ok? <==> w.script != [] && w.script[0].Reply? && w.script[0].response.code == OK)
      && (r.Ok? ==> r.value)
      && (w.script != [] && w.script[0].Reply? && w.script[0].response.code != OK ==>
            r == Err(Http(RaisePyWebHdfsException(w.script[0].response.code, w.script[0].response.body))))
  {
    SingleTrace(c, PUT, SETOWNER, path, [], SetOwnerArgs(owner, group, kwargs), None, w);
  }

  // ----- set_owner as written -----

  /**
   * The response check of `set_owner` as written: it reads
   * `response.status_code` and `response.content`, which a Tornado response
   * does not have, so every reply ends in AttributeError.
   */
  function SetOwnerCheckAsWritten(o: Outcome): Result<bool, Failure>
  {
    match o
    case Raised(carried) => Err(TransportError(carried))
    case RaisedOther => Err(FetchFailed)
    case Reply(resp) => Err(AttributeError)
  }

  /**
   * As written, `set_owner` cannot succeed: every reply ends in
   * AttributeError, including the 200 that the intended check accepts.
   */
  lemma SetOwnerAsWrittenRejectsSuccess(c: Config, path: string, owner: string, group: string, kwargs: Kwargs,
                                        w: World)
    requires CallArgs([], SetOwnerArgs(owner, group, kwargs)).Some?
    requires w.script != [] && w.script[0].Reply?
    ensures SetOwnerCheckAsWritten(w.script[0]) == Err(AttributeError)
    ensures w.script[0].response.code == OK ==> SetOwnerSpec(c, path, owner, group, kwargs, w).result == Ok(true)
  {
    SingleTrace(c, PUT, SETOWNER, path, [], SetOwnerArgs(owner, group, kwargs), None, w);
  }
}
