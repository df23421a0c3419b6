/**
 * The part of net/http and the gorilla session the control server's
 * handlers look at. A request is reduced to its "type" header, the two
 * session values the handlers read (absent or not a string gives None), and
 * the URI variables. A response is the sequence of writes a handler makes;
 * its status is the first one written (200 when a body comes first or
 * nothing is written), as net/http ignores later WriteHeader calls.
 */
module Http {
  import opened Wrappers

  const STATUS_OK: nat := 200
  const STATUS_CREATED: nat := 201
  const STATUS_BAD_REQUEST: nat := 400
  const STATUS_UNAUTHORIZED: nat := 401
  const STATUS_FORBIDDEN: nat := 403
  const STATUS_NOT_FOUND: nat := 404
  const STATUS_INTERNAL_SERVER_ERROR: nat := 500

  const SYSTEM_TYPE: string := "system"

  datatype Request = Request(
    typeHeader: string,
    sessionRole: Option<string>,
    sessionUsername: Option<string>,
    vars: map<string, string>)

  /** One write on the response: http.Error, a bare WriteHeader, or a body (a JSON encoding or text). */
  datatype Write<T> = HttpError(status: nat, msg: string) | WriteHeader(status: nat) | Body(value: T)

  /** The status the client sees. */
  function Status<T>(writes: seq<Write<T>>): (s: nat)
    ensures writes == [] ==> s == STATUS_OK
    ensures writes != [] && writes[0].Body? ==> s == STATUS_OK
    ensures writes != [] && !writes[0].Body? ==> s == writes[0].status
  {
    if writes == [] then STATUS_OK
    else match writes[0]
      case HttpError(status, _) => status
      case WriteHeader(status) => status
      case Body(_) => STATUS_OK
  }

  /** A later write never changes the status a response already has. */
  lemma StatusKeepsFirst<T>(writes: seq<Write<T>>, more: seq<Write<T>>)
    requires writes != []
    ensures Status(writes + more) == Status(writes)
  {
    assert (writes + more)[0] == writes[0];
  }
}
