# go-media: the media manager and the S3 driver's decision logic

This project models two parts of go-media, a storage-abstraction library.

- **Media manager.** It keeps a registry of storages by alias and one selected storage. It sends single-key calls (delete, exists, signed URL, direct URL, put) to the selected storage. It fans batch calls (delete many, many URLs, many signed URLs) out to one call per key. A batch returns either every per-key result in key order, or a single error and no results.
- **S3-compatible driver.** This is the driver's decision logic. It validates keys, builds direct URLs, and gates URLs by bucket visibility. It maps client failures onto the package's errors and orders the steps of an upload.

Files:

- `media.dfy` (module `Media`) holds the shared vocabulary:
  - the package's sentinel errors;
  - Go's `(value, error)` pair, as `Reply`;
  - the backend's answers to its five operations, as `Oracle`, a record of five functions;
  - a backend instance, as the class `StorageDriver`. Its five operations answer as its `Oracle` says. Each also appends the call to a ghost `log`, and nothing else extends that log.
- `manager.dfy` (module `Manager`) models the manager, as the value `MediaManager`.
  - Construction, alias switching, the single-key calls and `Missing` are functions.
  - Each batch operation is a method that loops over the keys. `GetURLs` and `GetSignedURLs` fill one slot per key of a freshly allocated array.
  - Each batch method states how the selected backend's call log grows: by exactly one call per key, whatever the results. An empty batch needs no backend to be selected and leaves the log unchanged.
- `s3_object.dfy` (module `S3Driver`) models the driver as pure functions over its read-only configuration.
  - The AWS client and the presign client are oracle functions.
  - A client failure may carry an error code, as `ErrorCode()` gives it.

Behaviour kept as the code has it:

- `NewObjectStorage` computes a 15-minute fallback for an unset expiry and never stores it. `Put` on a private bucket therefore presigns for `config.DefaultExpiry`, which may be 0. See `S3Driver.PutSignsWithUnsetExpiry`.
- `Put` on a bucket whose visibility is neither `"public"` nor `"private"` uploads the file, then returns `""` with no error. This is because `GetSignedURL` bails out for any visibility other than private.
- The manager's tests differ from `manager.go`. They call `NewMediaManager`, type the registry as `map[string]StorageDriver`, and pass `Put` the key before the reader. The model follows `manager.go`: `NewManager`, and `Put(file, key)`.
- `manager.go` types the registry as a map of `MediaManager`. The manager only ever calls the five single-key operations on a registry entry, so the model stores `StorageDriver` records.
- The S3 driver's `Put` takes the key before the body. The interface's `Put` takes the body first. The model keeps each signature as written and does not plug the S3 driver into the manager.
- `NewManager` has no separate check in the code for an empty registry. The alias lookup already refuses an empty map; `Manager.NewManagerEmptyRegistry` states this.

## Model

| member | source | states |
|---|---|---|
| `Media.StorageDriver.Delete` | interface.go:15 | answers as the backend's oracle says for the key, and logs exactly one delete call |
| `Media.StorageDriver.Exists` | interface.go:20 | answers as the backend's oracle says for the key, and logs exactly one exists call |
| `Media.StorageDriver.GetSignedURL` | interface.go:25 | answers as the backend's oracle says for the key and expiry, and logs exactly one signed-URL call |
| `Media.StorageDriver.GetURL` | interface.go:30 | answers as the backend's oracle says for the key, and logs exactly one URL call |
| `Media.StorageDriver.Put` | interface.go:35 | answers as the backend's oracle says for the body and key, and logs exactly one put call |
| `Manager.NewManager` | manager.go:58-68 | fails with ErrInvalidDefaultStorage exactly when the alias is not in the registry; on success the manager holds that registry and has `storage[alias]` selected |
| `Manager.NewManagerEmptyRegistry` | manager.go:59-62 | an empty registry admits no manager, for any alias |
| `Manager.MediaManager.Storage` | manager.go:72-77 | the new manager shares the receiver's registry; a storage is selected iff the alias is registered, and then it is `storageMap[alias]` |
| `Manager.StorageAgreesWithNewManager` | manager.go:58-77 | switching alias selects what construction with that alias would select, and leaves nothing selected exactly when construction would fail |
| `Manager.StorageLastAliasWins` | manager.go:72-77 | switching twice is the same as switching once to the second alias, because the registry is shared and unchanged |
| `Manager.StorageDelegatesToAlias` | manager.go:72-111 | after switching to a registered alias, all five single-key operations are answered by that alias's storage with unchanged arguments |
| `Manager.MediaManager.Delete` | manager.go:80-82 | the selected storage's answer for the same key |
| `Manager.MediaManager.Exists` | manager.go:104-106 | the selected storage's answer for the same key |
| `Manager.MediaManager.GetSignedURL` | manager.go:109-111 | the selected storage's answer for the same key and expiry |
| `Manager.MediaManager.GetURL` | manager.go:140-142 | the selected storage's answer for the same key |
| `Manager.MediaManager.Put` | manager.go:181-183 | the selected storage's answer for the same body and key |
| `Manager.MediaManager.Missing` | manager.go:171-178 | the error of `Exists`, unchanged; `false` on error; otherwise the negation of `Exists` |
| `Manager.MediaManager.DeleteMany` | manager.go:86-101 | the selected backend receives exactly one delete per key, even when some keys fail; no error iff every delete succeeds; otherwise the error of some failing key; an empty batch needs no selected backend, makes no call and succeeds |
| `Manager.MediaManager.GetURLs` | manager.go:145-168 | the selected backend receives exactly one URL call per key, even when some keys fail; no error iff every call succeeds, and then `|urls| == |keys|` with `urls[i]` the URL for `keys[i]`; otherwise no URLs and the error of some failing key; an empty batch needs no selected backend, makes no call and gives an empty sequence with no error |
| `Manager.MediaManager.GetSignedURLs` | manager.go:114-137 | as `GetURLs`, and every call the backend receives carries the same expiry |
| `S3Driver.NewObjectStorage` | drivers/s3/object.go:62-100 | ErrInvalidConfig with no storage when the access or secret key is empty, or when the SDK configuration fails to load; otherwise the bucket and the configuration are stored unchanged |
| `S3Driver.MatchesKeyPatternIff` | drivers/s3/object.go:173 | the anchored pattern `^[a-zA-Z0-9._-]+$` matches exactly the non-empty strings of those characters |
| `S3Driver.ValidateKey` | drivers/s3/object.go:175-185 | accepts exactly the non-empty keys over `[A-Za-z0-9._-]` other than `.` and `..`; gives the reason of the first failing case, in switch order |
| `S3Driver.ValidateKeyExamples` | drivers/s3/object.go:175-185 | `""` is empty, `bad/key.txt` has an invalid character, `..` is a dot key, `file.txt` is accepted |
| `S3Driver.ObjectURLShape` | drivers/s3/object.go:163-168 | the direct URL starts with `https://` iff SSL is on, and with `http://` otherwise; a valid key comes back as its last path segment |
| `S3Driver.Delete` | drivers/s3/object.go:104-115 | no error iff the client's delete succeeds; any failure is ErrInternal |
| `S3Driver.Exists` | drivers/s3/object.go:119-135 | `true` iff the head request succeeds; no error for success or a `NotFound` failure; any other failure is ErrInternal with `false` |
| `S3Driver.GetSignedURL` | drivers/s3/object.go:139-154 | `""` with no error unless the visibility is exactly `private`; then the presigned URL unchanged, or `""` with ErrInternal when presigning fails |
| `S3Driver.GetURL` | drivers/s3/object.go:158-169 | never an error; `""` unless the visibility is exactly `public`, and then the scheme/endpoint/bucket/key URL |
| `S3Driver.Put` | drivers/s3/object.go:191-219 | an invalid key gives `""` with ErrInvalidKey; a failed upload gives `""` with ErrInternal; on every error the URL is `""` |
| `S3Driver.PutInvalidKeyTouchesNoClient` | drivers/s3/object.go:192-195 | an invalid key is refused before any upload: the answer is the same whatever either client would do |
| `S3Driver.PutFailedUploadIgnoresPresigner` | drivers/s3/object.go:197-206 | after a failed upload the presigner is never consulted |
| `S3Driver.PutPublicIsGetURL` | drivers/s3/object.go:208-215 | after an upload to a public bucket, Put answers what GetURL answers, and the key is the URL's last segment |
| `S3Driver.PutNonPublicIsSignedURL` | drivers/s3/object.go:217-218 | after an upload to any non-public bucket, Put answers what GetSignedURL answers for the configured default expiry; for a visibility that is neither public nor private, that is `""` with no error |
| `S3Driver.PutSignsWithUnsetExpiry` | drivers/s3/object.go:89-97 | a storage built with an unset expiry keeps expiry 0, and its uploads presign for 0, not for the 15-minute fallback |

## Left out

- Concurrency. Goroutines, `errgroup` and context cancellation are not modelled. A batch is a sequential loop. "The first error" is stated only as "the error of some failing key", because which error comes first depends on timing.
- The context argument of every operation is not modelled.
- AWS SDK calls are oracles. The model does not interpret the loading of the SDK configuration, the construction of the S3 and presign clients, the endpoint and path-style options, or the wire behaviour of the head, put, delete and presign requests. Request signing is not modelled.
- Logging is left out. It has no bearing on results.
- File contents pass through as opaque bytes. `time.Duration` is an integer that is passed through.
- Calling a single-key operation on a manager whose alias was unknown is a nil dereference in Go. The single-key members require a selected storage instead of inventing an error. A batch with keys on such a manager is excluded the same way. A batch of no keys is allowed, because it never touches the storage.
- Registry entries are assumed non-nil. A Go `map[string]MediaManager` can hold a nil entry. With such an entry, `NewManager` succeeds and `Storage` selects nil, so the manager has nothing usable selected even though the alias is registered. A class reference in the model is never null, so `Manager.MediaManager.Storage` and `Manager.StorageAgreesWithNewManager` hold only over registries without nil entries.
- Manager.MediaManager.DeleteMany: the log lists the deletes in key order. In Go the per-key calls run in goroutines, so their order is not fixed. Only "one call per key" is meant, not the order.
- Manager.MediaManager.GetURLs: the log lists the calls in key order. The Go calls run in goroutines in no fixed order; only "one call per key" is meant.
- Manager.MediaManager.GetSignedURLs: the log lists the calls in key order. The Go calls run in goroutines in no fixed order; only "one call per key, same expiry" is meant.
- The batch methods do not distinguish Go's nil slice from an empty slice. The empty sequence stands for both.
- The test doubles are not modelled. The oracles stand in for them.
