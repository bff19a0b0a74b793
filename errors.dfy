/**
 * The module function `_raise_pywebhdfs_exception` of
 * pywebhdfs/tornado/webhdfs.py: it maps an HTTP status code to one of the
 * library's exception classes and always raises, carrying the message it is
 * given. The model returns the exception it raises.
 */
module Errors {

  /** The exception classes of the `errors` module the client raises. */
  datatype ErrorKind = BadRequest | Unauthorized | FileNotFound | MethodNotAllowed | PyWebHdfsException

  datatype PyWebHdfsError = PyWebHdfsError(kind: ErrorKind, msg: string)

  // The `httplib` status constants the client compares against.
  const OK: int := 200
  const CREATED: int := 201
  const TEMPORARY_REDIRECT: int := 307
  const BAD_REQUEST: int := 400
  const UNAUTHORIZED: int := 401
  const NOT_FOUND: int := 404
  const METHOD_NOT_ALLOWED: int := 405

  /** The table of statuses that have an exception class of their own. */
  const SPECIFIC_KINDS: map<int, ErrorKind> :=
    map[400 := BadRequest, 401 := Unauthorized, 404 := FileNotFound, 405 := MethodNotAllowed]

  /**
   * The exception `_raise_pywebhdfs_exception(code, message)` raises. The
   * result type has no success case: the Python function never returns.
   */
  function RaisePyWebHdfsException(code: int, message: string): (e: PyWebHdfsError)
    ensures e.msg == message
    ensures code in SPECIFIC_KINDS ==> e.kind == SPECIFIC_KINDS[code]
    ensures code !in SPECIFIC_KINDS ==> e.kind == PyWebHdfsException
  {
    if code == BAD_REQUEST then PyWebHdfsError(BadRequest, message)
    else if code == UNAUTHORIZED then PyWebHdfsError(Unauthorized, message)
    else if code == NOT_FOUND then PyWebHdfsError(FileNotFound, message)
    else if code == METHOD_NOT_ALLOWED then PyWebHdfsError(MethodNotAllowed, message)
    else PyWebHdfsError(PyWebHdfsException, message)
  }

  /**
   * The classification loses nothing about the four specific statuses: a
   * specific kind identifies its status code, and the generic kind is
   * exactly the statuses outside the table (200, 201 and 307 among them).
   */
  lemma ClassificationIsExact(c1: int, c2: int, m1: string, m2: string)
    ensures var k1, k2 := RaisePyWebHdfsException(c1, m1).kind, RaisePyWebHdfsException(c2, m2).kind;
      k1 == k2 && k1 != PyWebHdfsException ==> c1 == c2
    ensures RaisePyWebHdfsException(c1, m1).kind == PyWebHdfsException <==> c1 !in {400, 401, 404, 405}
  {
  }
}
