/**
 * The package-level vocabulary shared by the manager and every backend:
 * the sentinel errors of error.go, Go's `(value, error)` result pair, and the
 * single-key capability set of interface.go that a storage backend provides.
 */
module Media {

  datatype Option<+T> = None | Some(value: T)

  /** The sentinel errors of the package, plus any other error a backend may return. */
  datatype MediaError =
    | ErrInternal
    | ErrInvalidConfig
    | ErrInvalidDefaultStorage
    | ErrInvalidKey
    | ErrNotFound
      // an error that some backend builds itself (`errors.New(...)`), passed along verbatim
    | DriverError(message: string)

  /** Go's `(T, error)` pair: a value is returned even when `err` is present. */
  datatype Reply<+T> = Reply(value: T, err: Option<MediaError>)

  /** A constructor's `(*T, error)` pair, where the value is nil on error. */
  datatype Result<+T> = Ok(value: T) | Fail(error: MediaError)

  /** `time.Duration`: a count of nanoseconds, passed through without arithmetic. */
  type Duration = int

  const Minute: Duration := 60_000_000_000

  /** The bytes an `io.Reader` would deliver; the core never inspects them. */
  type Body = seq<bv8>

  type Key = string

  /**
   * What a storage backend answers for each of the five operations of its
   * interface, for given arguments (the context argument is left out).
   */
  datatype Oracle = Oracle(
    deleteOp: Key -> Option<MediaError>,
    existsOp: Key -> Reply<bool>,
    getSignedURLOp: (Key, Duration) -> Reply<string>,
    getURLOp: Key -> Reply<string>,
    putOp: (Body, Key) -> Reply<string>)

  /** One invocation of a backend operation, with its arguments. */
  datatype Call =
    | DeleteCall(key: Key)
    | ExistsCall(key: Key)
    | GetSignedURLCall(key: Key, expiry: Duration)
    | GetURLCall(key: Key)
    | PutCall(file: Body, key: Key)

  /**
   * A storage backend instance. Every operation answers as `answers` says and
   * appends itself to `log`, which nothing else extends; so `log` records
   * every call made through these methods. The manager's single-key functions
   * read `answers` directly and leave no entry.
   */
  class StorageDriver {
    const answers: Oracle
    ghost var log: seq<Call>

    constructor (answers: Oracle)
      ensures this.answers == answers && log == []
    {
      this.answers := answers;
      log := [];
    }

    method Delete(key: Key) returns (e: Option<MediaError>)
      modifies this
      ensures e == answers.deleteOp(key)
      ensures log == old(log) + [DeleteCall(key)]
    {
      e := answers.deleteOp(key);
      log := log + [DeleteCall(key)];
    }

    method Exists(key: Key) returns (r: Reply<bool>)
      modifies this
      ensures r == answers.existsOp(key)
      ensures log == old(log) + [ExistsCall(key)]
    {
      r := answers.existsOp(key);
      log := log + [ExistsCall(key)];
    }

    method GetSignedURL(key: Key, expiry: Duration) returns (r: Reply<string>)
      modifies this
      ensures r == answers.getSignedURLOp(key, expiry)
      ensures log == old(log) + [GetSignedURLCall(key, expiry)]
    {
      r := answers.getSignedURLOp(key, expiry);
      log := log + [GetSignedURLCall(key, expiry)];
    }

    method GetURL(key: Key) returns (r: Reply<string>)
      modifies this
      ensures r == answers.getURLOp(key)
      ensures log == old(log) + [GetURLCall(key)]
    {
      r := answers.getURLOp(key);
      log := log + [GetURLCall(key)];
    }

    method Put(file: Body, key: Key) returns (r: Reply<string>)
      modifies this
      ensures r == answers.putOp(file, key)
      ensures log == old(log) + [PutCall(file, key)]
    {
      r := answers.putOp(file, key);
      log := log + [PutCall(file, key)];
    }
  }
}
