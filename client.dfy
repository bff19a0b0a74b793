/**
 * The class `PyWebHdfsClient` of pywebhdfs/tornado/webhdfs.py. Its
 * configuration is fixed at construction; what changes as it works is the
 * transport it talks to and the Kerberos provider it asks for tickets. Both
 * are modelled as fields: `script`, the outcomes the transport will give to
 * the next `fetch` calls; `log`, every ticket acquisition and request in
 * order; `issued`, the number of tickets acquired so far. Each operation is
 * a method proved to agree with its specification function in module
 * Protocol, where the properties of those functions are proved.
 */
module WebHdfs {
  import opened Wrappers
  import opened Strings
  import opened Uri
  import opened Errors
  import opened Protocol

  class PyWebHdfsClient {
    const host: string
    const port: string
    const userName: Option<string>
    const krbEnabled: bool        // whether `krb_instance` is set
    const krbPrimary: string
    const baseUri: string

    var script: seq<Outcome>
    var log: seq<Event>
    var issued: nat

    function Cfg(): Config
    {
      Config(host, userName, krbEnabled, krbPrimary, baseUri)
    }

    function State(): World
      reads this
    {
      World(script, log, issued)
    }

    /** `__init__` once `base_uri_pattern.format(host=host, port=port)` has succeeded. */
    constructor (host: string, port: string, userName: Option<string>, krbEnabled: bool, krbPrimary: string,
                 basePattern: string, script: seq<Outcome>)
      requires FormatBaseUri(basePattern, host, port).Some?
      ensures this.host == host && this.port == port && this.userName == userName
      ensures this.krbEnabled == krbEnabled && this.krbPrimary == krbPrimary
      ensures baseUri == FormatBaseUri(basePattern, host, port).value
      ensures State() == World(script, [], 0)
    {
      this.host := host;
      this.port := port;
      this.userName := userName;
      this.krbEnabled := krbEnabled;
      this.krbPrimary := krbPrimary;
      this.baseUri := FormatBaseUri(basePattern, host, port).value;
      this.script := script;
      this.log := [];
      this.issued := 0;
    }

    /** `__init__` in full: a pattern that `str.format` rejects makes construction raise. */
    static method New(host: string, port: string, userName: Option<string>, krbEnabled: bool, krbPrimary: string,
                      basePattern: string, script: seq<Outcome>) returns (r: Result<PyWebHdfsClient, Failure>)
      ensures r.Ok? <==> FormatBaseUri(basePattern, host, port).Some?
      ensures r.Err? ==> r.error == FormatError
      ensures r.Ok? ==> fresh(r.value) && r.value.Cfg() == Config(host, userName, krbEnabled, krbPrimary,
                                                                  FormatBaseUri(basePattern, host, port).value)
      ensures r.Ok? ==> r.value.port == port && r.value.State() == World(script, [], 0)
    {
      if FormatBaseUri(basePattern, host, port).None? {
        return Err(FormatError);
      }
      var client := new PyWebHdfsClient(host, port, userName, krbEnabled, krbPrimary, basePattern, script);
      return Ok(client);
    }

    /** `self.krb_instance.acquire_kerberos_ticket(self.krb_primary, self.host)`. */
    method AcquireTicket() returns (t: Ticket)
      modifies this
      ensures (t, State()) == Acquire(Cfg(), old(State()))
    {
      t := Ticket(krbPrimary, host, issued);
      log := log + [Acquired(t)];
      issued := issued + 1;
    }

    /** `self.http_client.fetch(request)`. */
    method Fetch(request: Request) returns (o: Outcome)
      modifies this
      ensures (o, State()) == Send(old(State()), request)
    {
      log := log + [Sent(request)];
      if script == [] {
        o := Raised(None);
      } else {
        o := script[0];
        script := script[1..];
      }
    }

    /** `headers['Authorization'] = <ticket>` when `krb_instance` is set. */
    method AddTicket(headers: Headers) returns (h: Headers)
      modifies this
      ensures (h, State()) == WithTicket(Cfg(), headers, old(State()))
    {
      h := headers;
      if krbEnabled {
        var t := AcquireTicket();
        h := h[AUTHORIZATION := Token(t)];
      }
    }

    /**
     * `_create_uri`: the operation, then `&key=value` for each keyword
     * argument with the value lower-cased, then `&user.name=` when a
     * non-empty user name is configured.
     */
    method CreateUri(path: string, operation: string, kwargs: Kwargs) returns (uri: string)
      ensures uri == BuildUri(baseUri, path, operation, kwargs, userName)
    {
      var pathParam := path;
      var operationParam := "?op=" + operation;
      var authParam := "";
      if userName.Some? && userName.value != "" {
        authParam := "&" + USER_NAME_KEY + "=" + userName.value;
      }
      var keywordParams := "";
      var i := 0;
      while i < |kwargs|
        invariant 0 <= i <= |kwargs|
        invariant keywordParams == KeywordParams(kwargs[..i])
      {
        var (key, value) := kwargs[i];
        var param := "&" + key + "=" + LowerStr(PyStr(value));
        assert kwargs[..i + 1][..i] == kwargs[..i];
        assert param == KeywordParam(key, value);
        keywordParams := keywordParams + param;
        i := i + 1;
      }
      assert kwargs[..i] == kwargs;
      uri := baseUri + pathParam + operationParam + keywordParams + authParam;
    }

    /** The status check of phase 2: True on 201 (create) or 200 (append). */
    static method FinishCheck(u: Upload, response: Outcome) returns (r: Result<bool, Failure>)
      ensures r == Phase2Result(u, response)
      ensures r.Ok? <==> response.Reply? && response.response.code == UploadSuccess(u)
    {
      if response.Raised? {
        return Err(TransportError(response.carried));
      }
      if response.RaisedOther? {
        return Err(FetchFailed);
      }
      if response.response.code != UploadSuccess(u) {
        return Err(Http(RaisePyWebHdfsException(response.response.code, response.response.body)));
      }
      return Ok(true);
    }

    /** `create_file` (u == Create) and `append_file` (u == Append). */
    method Upload(u: Upload, path: string, fileData: string, kwargs: Kwargs) returns (r: Result<bool, Failure>)
      modifies this
      ensures Run(r, State()) == UploadSpec(Cfg(), u, path, fileData, kwargs, old(State()))
    {
      var headers: Headers := map[];
      headers := AddTicket(headers);
      var args := CallArgs([], kwargs);
      if args.None? {
        return Err(TypeError);
      }
      var uri := CreateUri(path, UploadOperation(u), args.value);
      var request := Request(UploadMethod(u), uri, headers, Some(""), false);
      assert request == Phase1Request(Cfg(), u, path, args.value, headers);
      var initOutcome := Fetch(request);
      if initOutcome.RaisedOther? {
        return Err(FetchFailed);
      }
      var initResponse := Unwrap(initOutcome);
      if initResponse.None? {
        return Err(AttributeError);
      }
      if initResponse.value.code != TEMPORARY_REDIRECT {
        return Err(Http(RaisePyWebHdfsException(initResponse.value.code, initResponse.value.body)));
      }
      var location := GetHeader(initResponse.value.headers, LOCATION);
      if location.None? {
        return Err(MissingLocation);
      }
      ghost var h1, w2 := headers, State();
      assert UploadSpec(Cfg(), u, path, fileData, kwargs, old(State()))
          == UploadFinish(Cfg(), u, fileData, h1, location.value, w2);
      headers := headers[CONTENT_TYPE := Text(OCTET_STREAM)];
      headers := AddTicket(headers);
      var response := Fetch(Request(UploadMethod(u), location.value, headers, Some(fileData), true));
      r := FinishCheck(u, response);
    }

    method CreateFile(path: string, fileData: string, kwargs: Kwargs) returns (r: Result<bool, Failure>)
      modifies this
      ensures Run(r, State()) == UploadSpec(Cfg(), Create, path, fileData, kwargs, old(State()))
    {
      r := Upload(Create, path, fileData, kwargs);
    }

    method AppendFile(path: string, fileData: string, kwargs: Kwargs) returns (r: Result<bool, Failure>)
      modifies this
      ensures Run(r, State()) == UploadSpec(Cfg(), Append, path, fileData, kwargs, old(State()))
    {
      r := Upload(Append, path, fileData, kwargs);
    }

    /** The steps every single-request operation shares: ticket, URI, one fetch, the 200 check. */
    method SingleRequest(m: Method, op: string, path: string, explicit: Kwargs, kwargs: Kwargs, body: Option<string>)
      returns (r: Result<Response, Failure>)
      modifies this
      ensures Run(r, State()) == SingleSpec(Cfg(), m, op, path, explicit, kwargs, body, old(State()))
    {
      var headers: Headers := map[];
      headers := AddTicket(headers);
      var args := CallArgs(explicit, kwargs);
      if args.None? {
        return Err(TypeError);
      }
      var uri := CreateUri(path, op, args.value);
      var response := Fetch(Request(m, uri, headers, body, true));
      if response.Raised? {
        return Err(TransportError(response.carried));
      }
      if response.RaisedOther? {
        return Err(FetchFailed);
      }
      if response.response.code != OK {
        return Err(Http(RaisePyWebHdfsException(response.response.code, response.response.body)));
      }
      return Ok(response.response);
    }

    method ReadFile(path: string, kwargs: Kwargs) returns (r: Result<string, Failure>)
      modifies this
      ensures Run(r, State()) == ReadFileSpec(Cfg(), path, kwargs, old(State()))
    {
      var response := SingleRequest(GET, OPEN, path, [], kwargs, None);
      r := if response.Ok? then Ok(response.value.body) else Err(response.error);
    }

    method MakeDir(path: string, kwargs: Kwargs) returns (r: Result<bool, Failure>)
      modifies this
      ensures Run(r, State()) == MakeDirSpec(Cfg(), path, kwargs, old(State()))
    {
      var response := SingleRequest(PUT, MKDIRS, path, [], kwargs, Some(""));
      r := if response.Ok? then Ok(true) else Err(response.error);
    }

    method RenameFileDir(path: string, destinationPath: string, kwargs: Kwargs) returns (r: Result<bool, Failure>)
      modifies this
      ensures Run(r, State()) == RenameFileDirSpec(Cfg(), path, destinationPath, kwargs, old(State()))
    {
      var response := SingleRequest(PUT, RENAME, path, [("destination", StrArg(destinationPath))], kwargs, Some(""));
      r := if response.Ok? then Ok(true) else Err(response.error);
    }

    /** `delete_file_dir(path, recursive=False, **kwargs)`: pass BoolArg(false) for the default. */
    method DeleteFileDir(path: string, recursive: ArgValue, kwargs: Kwargs) returns (r: Result<bool, Failure>)
      modifies this
      ensures Run(r, State()) == DeleteFileDirSpec(Cfg(), path, recursive, kwargs, old(State()))
    {
      var response := SingleRequest(DELETE, DELETE_OP, path, [("recursive", recursive)], kwargs, None);
      r := if response.Ok? then Ok(true) else Err(response.error);
    }

    method GetFileDirStatus(path: string, kwargs: Kwargs) returns (r: Result<Json, Failure>)
      modifies this
      ensures Run(r, State()) == GetFileDirStatusSpec(Cfg(), path, kwargs, old(State()))
    {
      var response := SingleRequest(GET, GETFILESTATUS, path, [], kwargs, None);
      r := if response.Ok? then Ok(Json(response.value.body)) else Err(response.error);
    }

    method ListDir(path: string, kwargs: Kwargs) returns (r: Result<Json, Failure>)
      modifies this
      ensures Run(r, State()) == ListDirSpec(Cfg(), path, kwargs, old(State()))
    {
      var response := SingleRequest(GET, LISTSTATUS, path, [], kwargs, None);
      r := if response.Ok? then Ok(Json(response.value.body)) else Err(response.error);
    }

    /** `set_owner` with the 200 check its authors intended (see SetOwnerCheckAsWritten for the code as written). */
    method SetOwner(path: string, owner: string, group: string, kwargs: Kwargs) returns (r: Result<bool, Failure>)
      modifies this
      ensures Run(r, State()) == SetOwnerSpec(Cfg(), path, owner, group, kwargs, old(State()))
    {
      var optionalArgs := kwargs;
      optionalArgs := Put(optionalArgs, "owner", StrArg(owner));
      optionalArgs := Put(optionalArgs, "group", StrArg(group));
      var response := SingleRequest(PUT, SETOWNER, path, [], optionalArgs, None);
      r := if response.Ok? then Ok(true) else Err(response.error);
    }

    method GetAclStatus(path: string, kwargs: Kwargs) returns (r: Result<Json, Failure>)
      modifies this
      ensures Run(r, State()) == GetAclStatusSpec(Cfg(), path, kwargs, old(State()))
    {
      var response := SingleRequest(GET, GETACLSTATUS, path, [], kwargs, None);
      r := if response.Ok? then Ok(Json(response.value.body)) else Err(response.error);
    }
  }
}
