/** The closed set of typed errors the controllers pass to `next`, and the
    raw errors the persistence layer rejects with. */
module Errors {
  import opened Wrappers

  /** One constructor per error class the controllers instantiate. */
  datatype ErrorKind = BadRequest | Unauthorized | Forbidden | NotFound | Conflict

  /** The HTTP status each error class carries to the client. */
  function Status(k: ErrorKind): (code: int)
    ensures KindOf(code) == Some(k)
  {
    match k
    case BadRequest => 400
    case Unauthorized => 401
    case Forbidden => 403
    case NotFound => 404
    case Conflict => 409
  }

  /** The error class a status code stands for, if it stands for one. */
  function KindOf(code: int): Option<ErrorKind> {
    if code == 400 then Some(BadRequest)
    else if code == 401 then Some(Unauthorized)
    else if code == 403 then Some(Forbidden)
    else if code == 404 then Some(NotFound)
    else if code == 409 then Some(Conflict)
    else None
  }

  /** Status codes and error classes are in one-to-one correspondence. */
  lemma StatusKindOf(code: int)
    ensures KindOf(code).Some? ==> Status(KindOf(code).value) == code
    ensures KindOf(code).None? ==> forall k :: Status(k) != code
  {
    if KindOf(code).None? {
      forall k ensures Status(k) != code {
        assert KindOf(Status(k)) == Some(k);
      }
    }
  }

  /** A typed error: its class and the human-readable message given at the throw site. */
  datatype TypedError = TypedError(kind: ErrorKind, message: string)

  /** The `code` property of a rejected persistence call, which may be absent,
      a number or a string. */
  datatype ErrCode = NoCode | NumCode(n: int) | StrCode(s: string)

  /** An error the persistence layer rejects with, identified by its `name`
      ("ValidationError", "CastError", "MongoError", ...) and its `code`. */
  datatype DbError = DbError(name: string, code: ErrCode)

  predicate IsCast(e: DbError) { e.name == "CastError" }

  predicate IsValidation(e: DbError) { e.name == "ValidationError" }
}
