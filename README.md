# PyWebHdfsClient (Tornado) in Dafny

This project models the Tornado WebHDFS client `PyWebHdfsClient` of
`pywebhdfs/tornado/webhdfs.py`. The client turns method calls into HTTP requests
against the Hadoop WebHDFS REST API. Each request may be authenticated by a
Kerberos ticket that is acquired right before the request is sent.

The model has six modules:

- `Wrappers` (`wrappers.dfy`): Option and Result.
- `Strings` (`strings.dfy`):
  - Python 2 ASCII `str.lower()`.
  - `str()` of integers.
  - `sep.join` and `str.split`. Splitting undoes joining (`SplitJoin`).
- `Uri` (`uri.dfy`):
  - `_create_uri` as the function `BuildUri`, with an independent reading of the URI as `&`-separated query fields.
  - `str(value).lower()` for the keyword values.
  - Merging of the keyword arguments of a call. A repeated keyword is a TypeError.
  - `d[key] = v` on an argument dictionary.
  - `base_uri_pattern.format(host=..., port=...)`.
- `Errors` (`errors.dfy`): `_raise_pywebhdfs_exception`, the mapping from HTTP status to exception class.
- `Protocol` (`protocol.dfy`):
  - Every client operation as a pure function over a `World`. A `World` holds three things:
    - the outcomes the transport will give to the next `fetch` calls;
    - the log of ticket acquisitions and requests sent;
    - the number of tickets acquired so far.
  - The lemmas that state what the operations promise.
- `WebHdfs` (`client.dfy`):
  - The class `PyWebHdfsClient`. Its configuration is `const` fields; the transport and ticket state are mutable fields.
  - One method per operation. Each method builds headers in place, runs `_create_uri`'s loop and issues requests in order. Each is proved equal to its `Protocol` function.

The Kerberos provider is a counter. Ticket number `n` is the `n`-th ticket
acquired, so two acquisitions never return the same ticket. The HTTP transport is a
script of canned outcomes. An outcome is a reply, a raised `HTTPError` that may
carry a response, or a raised exception of another class, such as a socket error
for a refused connection. An exhausted script raises an `HTTPError` without a response.

## Model

| member | source | states |
|---|---|---|
| `WebHdfs.PyWebHdfsClient.constructor` | pywebhdfs/tornado/webhdfs.py:38-47 | the client keeps host, user name, Kerberos setting and primary; the base URI is the formatted pattern; no request or ticket has happened yet |
| `WebHdfs.PyWebHdfsClient.New` | pywebhdfs/tornado/webhdfs.py:20-47 | construction succeeds exactly when `base_uri_pattern.format` succeeds; otherwise it raises; on success the configuration is as given |
| `WebHdfs.PyWebHdfsClient.AcquireTicket` | pywebhdfs/tornado/webhdfs.py:100 | a ticket for the configured primary and host; acquisition is logged and the counter advances |
| `WebHdfs.PyWebHdfsClient.Fetch` | pywebhdfs/tornado/webhdfs.py:109 | every request is logged; the transport's next outcome is returned and consumed |
| `WebHdfs.PyWebHdfsClient.AddTicket` | pywebhdfs/tornado/webhdfs.py:99-100 | an Authorization header with a fresh ticket exactly when Kerberos is configured; the headers and state are otherwise unchanged |
| `WebHdfs.PyWebHdfsClient.CreateUri` | pywebhdfs/tornado/webhdfs.py:536-565 | the loop leaves the URI `BuildUri` describes: base, path, `?op=`, one `&key=value` per argument in order, `&user.name=` when a user name is set |
| `WebHdfs.PyWebHdfsClient.FinishCheck` | pywebhdfs/tornado/webhdfs.py:127-132 | phase 2 returns True exactly on a reply with the success status; a raised fetch propagates |
| `WebHdfs.PyWebHdfsClient.Upload` | pywebhdfs/tornado/webhdfs.py:97-132 | the result and new state of an upload equal `UploadSpec` of the old state |
| `WebHdfs.PyWebHdfsClient.CreateFile` | pywebhdfs/tornado/webhdfs.py:60-132 | `create_file` is the upload with PUT, `op=CREATE` and success status 201 |
| `WebHdfs.PyWebHdfsClient.AppendFile` | pywebhdfs/tornado/webhdfs.py:135-202 | `append_file` is the upload with POST, `op=APPEND` and success status 200 |
| `WebHdfs.PyWebHdfsClient.SingleRequest` | pywebhdfs/tornado/webhdfs.py:230-242 | result and new state equal `SingleSpec` of the old state |
| `WebHdfs.PyWebHdfsClient.ReadFile` | pywebhdfs/tornado/webhdfs.py:205-242 | result and new state equal `ReadFileSpec`: GET `op=OPEN`, the body of the 200 reply |
| `WebHdfs.PyWebHdfsClient.MakeDir` | pywebhdfs/tornado/webhdfs.py:245-282 | result and new state equal `MakeDirSpec`: PUT `op=MKDIRS` with an empty body, True on 200 |
| `WebHdfs.PyWebHdfsClient.RenameFileDir` | pywebhdfs/tornado/webhdfs.py:285-320 | result and new state equal `RenameFileDirSpec`: PUT `op=RENAME`, with `destination` ahead of the other arguments |
| `WebHdfs.PyWebHdfsClient.DeleteFileDir` | pywebhdfs/tornado/webhdfs.py:324-360 | result and new state equal `DeleteFileDirSpec`: DELETE `op=DELETE`, with `recursive` ahead of the other arguments |
| `WebHdfs.PyWebHdfsClient.GetFileDirStatus` | pywebhdfs/tornado/webhdfs.py:363-426 | result and new state equal `GetFileDirStatusSpec`: GET `op=GETFILESTATUS`, the decoded body |
| `WebHdfs.PyWebHdfsClient.ListDir` | pywebhdfs/tornado/webhdfs.py:429-489 | result and new state equal `ListDirSpec`: GET `op=LISTSTATUS`, the decoded body |
| `WebHdfs.PyWebHdfsClient.SetOwner` | pywebhdfs/tornado/webhdfs.py:492-518 | result and new state equal `SetOwnerSpec`: `owner` and `group` set in the arguments, PUT `op=SETOWNER`, True on 200 (the intended check) |
| `WebHdfs.PyWebHdfsClient.GetAclStatus` | pywebhdfs/tornado/webhdfs.py:521-534 | result and new state equal `GetAclStatusSpec`: GET `op=GETACLSTATUS`, the decoded body |
| `Strings.LowerStr` | pywebhdfs/tornado/webhdfs.py:557 | lower-casing keeps the length and changes exactly the ASCII capitals, position by position |
| `Strings.LowerStrIdempotent` | pywebhdfs/tornado/webhdfs.py:557 | a value lower-cased once is not changed by lower-casing again |
| `Strings.LowerStrKeepsAbsent` | pywebhdfs/tornado/webhdfs.py:557 | lower-casing neither adds nor removes a character that is not a letter, such as `&` |
| `Strings.NatToString` | pywebhdfs/tornado/webhdfs.py:557 | `str()` of a natural number is a non-empty string of decimal digits whose value is the number, with a leading `0` only for 0 itself |
| `Strings.IntToString` | pywebhdfs/tornado/webhdfs.py:557 | `str()` of an integer starts with `-` exactly when it is negative; the rest is decimal digits without a leading zero whose value is the absolute value |
| `Uri.UriDecomposition` | pywebhdfs/tornado/webhdfs.py:544-563 | the built URI is base, path, `?`, then the `&`-join of `op=OP`, the `key=value` fields in argument order and the `user.name=` field |
| `Uri.ParseQuery` | pywebhdfs/tornado/webhdfs.py:536-565 | when no field contains `&`, splitting the query gives back `op=OP` first, every keyword field exactly once in order, and a last `user.name=` field exactly when the user name is non-empty |
| `Uri.KeywordParamsAsFields` | pywebhdfs/tornado/webhdfs.py:554-557 | the accumulated `keyword_params` behind `?op=OP` is the `&`-join of the operation field and the keyword fields |
| `Uri.BoolParam` | pywebhdfs/tornado/webhdfs.py:557 | `True` and `False` are sent as `true` and `false` |
| `Uri.IntParam` | pywebhdfs/tornado/webhdfs.py:557 | an integer argument is sent as its decimal digits, unchanged by lower-casing |
| `Uri.StrParamLowered` | pywebhdfs/tornado/webhdfs.py:557 | a string argument is lower-cased too: its field is `&key=` and the lower-cased string, which differs from the string exactly when it holds an upper-case ASCII letter (so `destination=user/Hdfs` is sent as `destination=user/hdfs`) |
| `Uri.Get` | pywebhdfs/tornado/webhdfs.py:508-509 | a lookup finds nothing exactly when the key is absent |
| `Uri.PutGet` | pywebhdfs/tornado/webhdfs.py:508-509 | after `d[key] = v`, `d[key]` is `v`, every other key reads as before, keys stay distinct, and the size grows only for a new key |
| `Uri.CallArgsMerge` | pywebhdfs/tornado/webhdfs.py:309-311 | in a call `_create_uri(path, OP, k=v, **kwargs)` that Python accepts, each explicit keyword keeps its explicit value, every other key reads as in `kwargs`, and when `kwargs` has distinct keys every key of the merged arguments occurs once |
| `Uri.FormatBaseUri` | pywebhdfs/tornado/webhdfs.py:47 | a pattern without braces formats to itself |
| `Uri.FormatLiteralPrefix` | pywebhdfs/tornado/webhdfs.py:47 | text without braces is copied through formatting unchanged |
| `Uri.FormatField` | pywebhdfs/tornado/webhdfs.py:47 | `{host}` and `{port}` are replaced by the host and port passed to `format` |
| `Uri.FormatHostPort` | pywebhdfs/tornado/webhdfs.py:47 | a pattern of literal text around one `{host}` and one `{port}` formats to the text with host and port in place |
| `Uri.DefaultBaseUri` | pywebhdfs/tornado/webhdfs.py:22 | the default pattern formats to `http://<host>:<port>/webhdfs/v1/` |
| `Uri.FormatRejectsUnmatched` | pywebhdfs/tornado/webhdfs.py:47 | after brace-free text, a `}` that does not start `}}` makes `format` raise whatever follows, and so does a `{` that does not start `{{` and is never closed |
| `Errors.RaisePyWebHdfsException` | pywebhdfs/tornado/webhdfs.py:568-579 | statuses 400, 401, 404 and 405 raise their own exception class, any other status the generic one; the message is carried unchanged |
| `Errors.ClassificationIsExact` | pywebhdfs/tornado/webhdfs.py:568-579 | a specific exception class identifies its status; the generic class is raised exactly for statuses outside 400, 401, 404 and 405 |
| `Protocol.SingleLocation` | pywebhdfs/tornado/webhdfs.py:120 | a reply with one `location` header, in any letter case, redirects to exactly its value |
| `Protocol.UploadFinishRun` | pywebhdfs/tornado/webhdfs.py:121-132 | phase 2 logs an optional fresh ticket and one request with `Content-Type` set, consumes one outcome and checks the success status |
| `Protocol.UploadRedirectedRun` | pywebhdfs/tornado/webhdfs.py:97-132 | a redirected upload, in closed form: the exact events logged, two tickets when Kerberos is on, the outcomes consumed, the result of the second outcome |
| `Protocol.UploadPhase1Rejected` | pywebhdfs/tornado/webhdfs.py:108-115 | a phase-1 reply, normal or carried by an HTTPError, other than 307 raises the classified error with that body, after only the one phase-1 request |
| `Protocol.UploadRedirectedTrace` | pywebhdfs/tornado/webhdfs.py:98-126 | phase 1 goes to the built URI with an empty body and no redirects; phase 2 has the same method, goes to exactly `location`, carries the data and `application/octet-stream`; with Kerberos each request carries the distinct ticket acquired just before it, and without it neither has an Authorization header |
| `Protocol.UploadSucceedsIff` | pywebhdfs/tornado/webhdfs.py:113-132 | an upload returns True exactly when phase 1 was redirected and phase 2 replied with 201 (create) or 200 (append); another phase-2 status raises the classified error with the phase-2 body; an exception of phase 2's `fetch` other than `HTTPError` passes to the caller |
| `Protocol.UploadPhase1Failed` | pywebhdfs/tornado/webhdfs.py:108-111 | an exception of phase 1's `fetch` other than `HTTPError` escapes the `except HTTPError` clause: the call fails with it after only the phase-1 request |
| `Protocol.UploadSuccessCounts` | pywebhdfs/tornado/webhdfs.py:168-202 | a successful upload sent exactly two requests, and acquired exactly two distinct tickets with Kerberos and none without |
| `Protocol.CreateScenario` | pywebhdfs/tornado/webhdfs.py:60-132 | without Kerberos, a 307 whose one `Location` header names any target, followed by a 201, makes `create_file` return True after exactly two requests, the second a PUT of the data to that target with `Content-Type: application/octet-stream` |
| `Protocol.SingleTrace` | pywebhdfs/tornado/webhdfs.py:230-242 | a single-request operation sends exactly one request to the built URI after at most one ticket, with an Authorization header exactly under Kerberos; it succeeds exactly on a 200 reply and returns that reply; another status raises the classified error; a raised `HTTPError`, or any other exception of `fetch`, passes to the caller |
| `Protocol.DuplicateArgumentSendsNothing` | pywebhdfs/tornado/webhdfs.py:309-311 | a keyword argument that repeats an explicit one raises TypeError before any request is sent |
| `Protocol.OperationTable` | pywebhdfs/tornado/webhdfs.py:205-534 | each of the eight single-request operations succeeds exactly on a 200 reply; `read_file` returns the body unchanged; the status, list and ACL calls return the decoded body |
| `Protocol.SingleSendsFirstField` | pywebhdfs/tornado/webhdfs.py:309-311 | an operation's own argument is the first keyword field of the only request it sends, lower-cased |
| `Protocol.DeleteSendsRecursive` | pywebhdfs/tornado/webhdfs.py:352-360 | `delete_file_dir` with its default sends one DELETE without body whose first keyword field is `recursive=false` |
| `Protocol.RenameSendsDestination` | pywebhdfs/tornado/webhdfs.py:309-320 | `rename_file_dir` sends one PUT with an empty body whose first keyword field is `destination=` and the lower-cased destination |
| `Protocol.SetOwnerAddsOwnerAndGroup` | pywebhdfs/tornado/webhdfs.py:507-510 | the arguments of `set_owner` have `owner` and `group` with the given values, every other argument as the caller gave it, and distinct keys |
| `Protocol.SetOwnerSucceedsIff` | pywebhdfs/tornado/webhdfs.py:510-518 | with the intended check, `set_owner` returns True exactly on a 200 reply; another status raises the classified error with the body |
| `Protocol.SetOwnerAsWrittenRejectsSuccess` | pywebhdfs/tornado/webhdfs.py:515-516 | as written, the check fails with AttributeError on every reply, including a 200 that the intended check accepts |

## Left out

- Asynchrony: `@coroutine`, `yield` and `Return` are left out. A call is a sequential method, and nothing runs concurrently with it.
- Transport settings: `connect_timeout`, `request_timeout` and `ca_certs` are left out. The source only passes them through to each request.
- JSON decoding: `json.loads` is represented by `Json(body)`, the text it decodes. Failures from malformed JSON are not modelled.
- Kerberos: the provider's work (`kinit`, GSSAPI) is left out, and so is a ticket acquisition that raises. A ticket is a value with a serial number.
- `pywebhdfs/kerberos_utils.py`, `pywebhdfs/krb5.py`, `pywebhdfs/test.py` and `example/tornado/example.py` are not part of this model.
- The `errors` and `operations` modules are not part of this model. Exceptions are the kind plus the message. Operations are the literal names CREATE, APPEND, OPEN, MKDIRS, RENAME, DELETE, GETFILESTATUS, LISTSTATUS, SETOWNER and GETACLSTATUS.
- Dictionary order: Python 2 iterates `**kwargs` in hash order. The model takes the order of the given sequence. An explicit argument (`destination`, `recursive`) comes first. `Protocol.SingleSendsFirstField`, `Protocol.DeleteSendsRecursive` and `Protocol.RenameSendsDestination` therefore find that argument in the first keyword field. Under hash order it may sit in any keyword field.
- `Uri.CallArgs`: the names an outer method binds itself are not checked. Python rejects `file_data` for `create_file`, and `recursive` for `delete_file_dir`, when the outer method is called. Here such a name passes through, or draws TypeError only when `_create_uri` is called.
- Tornado's own checks are left out:
  - With its default `raise_error`, Tornado raises `HTTPError` itself for a non-2xx reply. This applies to phase 2 of an upload and to the fetch of every single-request operation (lines 237, 277, 315, 355, 421, 484, 513 and 529).
  - Tornado refuses a PUT without a body, which `set_owner` sends.

  The transport's script decides which outcome each fetch gets. So a clause such as "another status raises the classified error" in `Protocol.SingleTrace`, `Protocol.OperationTable`, `Protocol.UploadSucceedsIff` and `Protocol.SetOwnerSucceedsIff` describes a transport that hands a non-2xx reply back. Under Tornado's default, a 404 from `read_file` reaches the caller as Tornado's `HTTPError` (the `Raised` outcome, ending in `TransportError`), not as FileNotFound. Phase 1 of an upload catches that `HTTPError` and classifies the status it carries, which the model does.
- `Uri.FormatBaseUri`: only `{host}`, `{port}`, `{{` and `}}` are handled. Any other replacement field or format spec counts as a formatting error.
- `Strings.LowerStr`: only ASCII letters are lower-cased. Values are byte strings, so Unicode case mapping does not arise. Float argument values are not modelled.
- Response headers are a sequence of name/value pairs. Names compare case-insensitively, and repeated values are joined with `,`, as in Tornado's header map.
- Three behaviours worth noting, each as the code has it:
  - A phase-1 status other than 307 raises the exception class for that status (for example BadRequest for 400). There is no separate exception for a missing redirect.
  - String values are lower-cased as well as booleans, so `destination` and `owner` reach the server lower-cased.
  - `user.name` is added only for a non-empty user name.
- Phase 1 and a carried-less `HTTPError`: when `fetch` raises without a response, `init_response` is `None`, and reading `.code` raises AttributeError. The model ends the call with AttributeError.

## Findings

| source | as written | input that shows it | evidently intended | confidence | as-written member | corrected member |
|---|---|---|---|---|---|---|
| pywebhdfs/tornado/webhdfs.py:515-516 | `set_owner` reads `response.status_code` and `response.content`, which a Tornado response does not have | any reply, for example status 200 with an empty body | compare `response.code` with 200 and pass `response.body`, as every other operation does | not executed | `Protocol.SetOwnerAsWrittenRejectsSuccess` | `Protocol.SetOwnerSucceedsIff` |
