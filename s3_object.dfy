/**
 * The decision logic of the S3-compatible storage driver: key validation,
 * direct-URL construction, visibility gating, and the mapping of client
 * failures onto the package's errors. The AWS client and the presign client
 * are oracles that answer each request with success or failure.
 */
module S3Driver {
  import opened Media

  const VisibilityPrivate: string := "private"
  const VisibilityPublic: string := "public"

  /** The server-side encryption every upload asks for. */
  const ServerSideEncryption: string := "AES256"

  /** The value `NewObjectStorage` computes for an unset expiry and then never stores. */
  const FallbackExpiry: Duration := 15 * Minute

  datatype ObjectStorageConfig = ObjectStorageConfig(
    bucket: string,
    region: string,
    accessKey: string,
    secretKey: string,
    endpoint: string,
    useSSL: bool,
    visibility: string,  // any string; only "public" and "private" have a meaning
    defaultExpiry: Duration)

  /** The request parameters the driver sends for an object. */
  datatype ObjectInput = ObjectInput(bucket: string, key: Key)

  datatype PutObjectInput = PutObjectInput(bucket: string, key: Key, body: Body, serverSideEncryption: string)

  datatype PresignInput = PresignInput(bucket: string, key: Key, expires: Duration)

  /**
   * What a client call returns: success, or an error whose `code` is the
   * value of `ErrorCode()` on the first error in its chain that has one.
   */
  datatype ClientResult = ClientOk | ClientErr(code: Option<string>)

  datatype PresignResult = PresignedRequest(url: string) | PresignErr

  /** The three calls of the S3 client that the driver makes. */
  datatype S3Client = S3Client(
    deleteObject: ObjectInput -> ClientResult,
    headObject: ObjectInput -> ClientResult,
    putObject: PutObjectInput -> ClientResult)

  datatype PresignClient = PresignClient(presignGetObject: PresignInput -> PresignResult)

  /** The driver's state; nothing in it changes after construction. */
  datatype ObjectStorage = ObjectStorage(client: S3Client, bucket: string, config: ObjectStorageConfig, presignClient: PresignClient)

  // ---------------------------------------------------------------- construction

  /**
   * Builds a storage from `cfg`. Missing credentials are refused with
   * ErrInvalidConfig before anything else; `sdkConfigLoads` stands for the
   * outcome of loading the SDK configuration, whose failure is reported the
   * same way; `client` and `presign` stand for the clients the SDK builds.
   * The configuration is stored as given, unset expiry included.
   */
  function NewObjectStorage(cfg: ObjectStorageConfig, sdkConfigLoads: bool, client: S3Client, presign: PresignClient)
    : (r: Result<ObjectStorage>)
    ensures (cfg.accessKey == "" || cfg.secretKey == "") ==> r == Fail(ErrInvalidConfig)
    ensures r.Ok? <==> cfg.accessKey != "" && cfg.secretKey != "" && sdkConfigLoads
    ensures r.Fail? ==> r.error == ErrInvalidConfig
    ensures r.Ok? ==> r.value == ObjectStorage(client, cfg.bucket, cfg, presign)
  {
    if cfg.accessKey == "" then Fail(ErrInvalidConfig)
    else if cfg.secretKey == "" then Fail(ErrInvalidConfig)
    else if !sdkConfigLoads then Fail(ErrInvalidConfig)
    else
      // computed, and then left unused, as by `NewObjectStorage` in object.go
      var defaultExpiry := if cfg.defaultExpiry == 0 then FallbackExpiry else cfg.defaultExpiry;
      Ok(ObjectStorage(client, cfg.bucket, cfg, presign))
  }

  // ---------------------------------------------------------------- keys

  /** The character class of the key pattern `^[a-zA-Z0-9._-]+$`. */
  predicate IsKeyChar(c: char) {
    ('a' <= c <= 'z') || ('A' <= c <= 'Z') || ('0' <= c <= '9') || c == '.' || c == '_' || c == '-'
  }

  /** An anchored match of the pattern: one key character, then either the end or a match of the rest. */
  predicate MatchesKeyPattern(s: string) {
    |s| > 0 && IsKeyChar(s[0]) && (|s| == 1 || MatchesKeyPattern(s[1..]))
  }

  /** The pattern matches exactly the non-empty strings of key characters. */
  lemma {:induction false} MatchesKeyPatternIff(s: string)
    ensures MatchesKeyPattern(s) <==> |s| > 0 && forall i :: 0 <= i < |s| ==> IsKeyChar(s[i])
  {
    if |s| > 1 {
      MatchesKeyPatternIff(s[1..]);
      assert forall i :: 1 <= i < |s| ==> s[i] == s[1..][i - 1];
    }
  }

  /** The keys the driver accepts, stated without the pattern. */
  predicate IsValidKey(name: string) {
    && |name| > 0
    && (forall i :: 0 <= i < |name| ==> IsKeyChar(name[i]))
    && name != "."
    && name != ".."
  }

  /** Why `validateKey` rejects a key, one reason per case of its switch, tried in order. */
  datatype KeyProblem = EmptyKey | InvalidCharacters | DotKey

  function ValidateKey(name: string): (r: Option<KeyProblem>)
    ensures r.None? <==> IsValidKey(name)
    ensures r == Some(EmptyKey) <==> name == ""
    ensures r == Some(InvalidCharacters) <==> name != "" && exists i :: 0 <= i < |name| && !IsKeyChar(name[i])
    ensures r == Some(DotKey) <==> name == "." || name == ".."
  {
    MatchesKeyPatternIff(name);
    if |name| == 0 then Some(EmptyKey)
    else if !MatchesKeyPattern(name) then Some(InvalidCharacters)
    else if name == "." || name == ".." then Some(DotKey)
    else None
  }

  lemma ValidateKeyExamples()
    ensures ValidateKey("") == Some(EmptyKey)
    ensures ValidateKey("bad/key.txt") == Some(InvalidCharacters)
    ensures ValidateKey("..") == Some(DotKey)
    ensures ValidateKey("file.txt") == None
  {
    assert !IsKeyChar("bad/key.txt"[3]);
  }

  // ---------------------------------------------------------------- URLs

  function Scheme(useSSL: bool): string {
    if useSSL then "https" else "http"
  }

  /** `scheme://endpoint/bucket/key`, the direct URL of an object. */
  function ObjectURL(s: ObjectStorage, key: Key): string {
    Scheme(s.config.useSSL) + "://" + s.config.endpoint + "/" + s.bucket + "/" + key
  }

  /** The text after the last '/', or all of `s` when it has none. */
  function LastSegment(s: string): string {
    if |s| == 0 || s[|s| - 1] == '/' then "" else LastSegment(s[..|s| - 1]) + [s[|s| - 1]]
  }

  lemma {:induction false} LastSegmentAfterSlash(prefix: string, key: string)
    requires forall i :: 0 <= i < |key| ==> key[i] != '/'
    ensures LastSegment(prefix + "/" + key) == key
  {
    var s := prefix + "/" + key;
    if |key| > 0 {
      var k := key[..|key| - 1];
      assert s[..|s| - 1] == prefix + "/" + k;
      LastSegmentAfterSlash(prefix, k);
      assert k + [key[|key| - 1]] == key;
    }
  }

  /**
   * The direct URL is `https` exactly when SSL is on, and gives back any
   * valid key as its last path segment (valid keys contain no '/').
   */
  lemma ObjectURLShape(s: ObjectStorage, key: Key)
    ensures s.config.useSSL <==> ObjectURL(s, key)[..8] == "https://"
    ensures !s.config.useSSL ==> ObjectURL(s, key)[..7] == "http://"
    ensures IsValidKey(key) ==> LastSegment(ObjectURL(s, key)) == key
  {
    var url := ObjectURL(s, key);
    if !s.config.useSSL {
      assert url[4] == ':' != "https://"[4];
    }
    if IsValidKey(key) {
      assert forall i :: 0 <= i < |key| ==> key[i] != '/' by {
        forall i | 0 <= i < |key| ensures key[i] != '/' { assert IsKeyChar(key[i]); }
      }
      LastSegmentAfterSlash(Scheme(s.config.useSSL) + "://" + s.config.endpoint + "/" + s.bucket, key);
    }
  }

  // ---------------------------------------------------------------- operations

  /** Any client failure becomes ErrInternal. */
  function Delete(s: ObjectStorage, key: Key): (e: Option<MediaError>)
    ensures e.None? <==> s.client.deleteObject(ObjectInput(s.bucket, key)).ClientOk?
    ensures e.Some? ==> e.value == ErrInternal
  {
    match s.client.deleteObject(ObjectInput(s.bucket, key))
    case ClientOk => None
    case ClientErr(_) => Some(ErrInternal)
  }

  /** A "NotFound" failure means absent with no error; any other failure is ErrInternal. */
  function Exists(s: ObjectStorage, key: Key): (r: Reply<bool>)
    ensures r.value <==> s.client.headObject(ObjectInput(s.bucket, key)).ClientOk?
    ensures r.err.None? <==> s.client.headObject(ObjectInput(s.bucket, key)) in {ClientOk, ClientErr(Some("NotFound"))}
    ensures r.err.Some? ==> r.err.value == ErrInternal && !r.value
  {
    match s.client.headObject(ObjectInput(s.bucket, key))
    case ClientOk => Reply(true, None)
    case ClientErr(code) =>
      if code == Some("NotFound") then Reply(false, None) else Reply(false, Some(ErrInternal))
  }

  /**
   * A presigned download URL, only for a private bucket: any other visibility
   * gives "" with no error and asks the presigner nothing.
   */
  function GetSignedURL(s: ObjectStorage, key: Key, expiry: Duration): (r: Reply<string>)
    ensures s.config.visibility != VisibilityPrivate ==> r == Reply("", None)
    ensures s.config.visibility == VisibilityPrivate ==>
      match s.presignClient.presignGetObject(PresignInput(s.bucket, key, expiry))
      case PresignedRequest(url) => r == Reply(url, None)
      case PresignErr => r == Reply("", Some(ErrInternal))
  {
    if s.config.visibility != VisibilityPrivate then Reply("", None)
    else match s.presignClient.presignGetObject(PresignInput(s.bucket, key, expiry))
      case PresignedRequest(url) => Reply(url, None)
      case PresignErr => Reply("", Some(ErrInternal))
  }

  /** Never an error: the direct URL for a public bucket, "" for every other visibility. */
  function GetURL(s: ObjectStorage, key: Key): (r: Reply<string>)
    ensures r.err.None?
    ensures s.config.visibility != VisibilityPublic ==> r.value == ""
    ensures s.config.visibility == VisibilityPublic ==> r.value == ObjectURL(s, key)
  {
    if s.config.visibility != VisibilityPublic then Reply("", None)
    else Reply(ObjectURL(s, key), None)
  }

  /**
   * Validates the key, then uploads, then chooses the URL: the direct URL for
   * a public bucket, otherwise the signed URL for the configured default
   * expiry. The key comes before the body, as in the driver's signature.
   */
  function Put(s: ObjectStorage, key: Key, file: Body): (r: Reply<string>)
    ensures !IsValidKey(key) ==> r == Reply("", Some(ErrInvalidKey))
    ensures IsValidKey(key) && s.client.putObject(PutObjectInput(s.bucket, key, file, ServerSideEncryption)).ClientErr? ==>
      r == Reply("", Some(ErrInternal))
    ensures r.err.Some? ==> r.value == "" && r.err.value in {ErrInvalidKey, ErrInternal}
  {
    if ValidateKey(key).Some? then Reply("", Some(ErrInvalidKey))
    else match s.client.putObject(PutObjectInput(s.bucket, key, file, ServerSideEncryption))
      case ClientErr(_) => Reply("", Some(ErrInternal))
      case ClientOk =>
        if s.config.visibility == VisibilityPublic then Reply(ObjectURL(s, key), None)
        else GetSignedURL(s, key, s.config.defaultExpiry)
  }

  // ---------------------------------------------------------------- properties of Put

  /**
   * An invalid key is refused before any upload: the answer does not depend
   * on what either client would do.
   */
  lemma PutInvalidKeyTouchesNoClient(s: ObjectStorage, t: ObjectStorage, key: Key, file: Body)
    requires t.bucket == s.bucket && t.config == s.config
    requires !IsValidKey(key)
    ensures Put(s, key, file) == Put(t, key, file) == Reply("", Some(ErrInvalidKey))
  {
  }

  /** A failed upload never reaches the presigner. */
  lemma PutFailedUploadIgnoresPresigner(s: ObjectStorage, p: PresignClient, key: Key, file: Body)
    requires s.client.putObject(PutObjectInput(s.bucket, key, file, ServerSideEncryption)).ClientErr?
    ensures Put(s, key, file) == Put(s.(presignClient := p), key, file)
  {
  }

  /** After a successful upload to a public bucket, Put answers what GetURL answers. */
  lemma PutPublicIsGetURL(s: ObjectStorage, key: Key, file: Body)
    requires IsValidKey(key)
    requires s.client.putObject(PutObjectInput(s.bucket, key, file, ServerSideEncryption)).ClientOk?
    requires s.config.visibility == VisibilityPublic
    ensures Put(s, key, file) == GetURL(s, key)
    ensures LastSegment(Put(s, key, file).value) == key
  {
    ObjectURLShape(s, key);
  }

  /**
   * After a successful upload to any non-public bucket, Put answers what
   * GetSignedURL answers for the configured default expiry; for a visibility
   * that is neither public nor private that is "" with no error.
   */
  lemma PutNonPublicIsSignedURL(s: ObjectStorage, key: Key, file: Body)
    requires IsValidKey(key)
    requires s.client.putObject(PutObjectInput(s.bucket, key, file, ServerSideEncryption)).ClientOk?
    requires s.config.visibility != VisibilityPublic
    ensures Put(s, key, file) == GetSignedURL(s, key, s.config.defaultExpiry)
    ensures s.config.visibility != VisibilityPrivate ==> Put(s, key, file) == Reply("", None)
  {
  }

  /**
   * The 15-minute fallback never takes effect: a storage built with an unset
   * expiry presigns its uploads for an expiry of 0.
   */
  lemma PutSignsWithUnsetExpiry(cfg: ObjectStorageConfig, client: S3Client, presign: PresignClient, key: Key, file: Body)
    requires NewObjectStorage(cfg, true, client, presign).Ok?
    requires cfg.defaultExpiry == 0 && cfg.visibility == VisibilityPrivate
    requires IsValidKey(key)
    requires client.putObject(PutObjectInput(cfg.bucket, key, file, ServerSideEncryption)).ClientOk?
    ensures Put(NewObjectStorage(cfg, true, client, presign).value, key, file)
         == GetSignedURL(NewObjectStorage(cfg, true, client, presign).value, key, 0)
    ensures NewObjectStorage(cfg, true, client, presign).value.config.defaultExpiry == 0
  {
  }
}
