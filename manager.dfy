/**
 * The media manager: a registry of storages by alias, one of which is
 * selected; single-key operations go to the selected storage, batch
 * operations issue one single-key call per key and collect the results by
 * index, failing as a whole when any key fails.
 *
 * In manager.go the batch operations run their per-key calls in goroutines
 * and wait for all of them; in GetURLs and GetSignedURLs every call writes a
 * slot of its own, so the observable outcome is that of the sequential loops
 * below. The calls a batch
 * makes are observed in the selected backend's call log.
 */
module Manager {
  import opened Media

  /**
   * A manager value: the registry it shares with the managers derived from
   * it, and the selected storage (None when `Storage` was given an unknown
   * alias, where the Go code holds a nil interface).
   */
  datatype MediaManager = MediaManager(storageMap: map<string, StorageDriver>, selected: Option<StorageDriver>)
  {
    /** A new manager over the same registry with `alias` selected; the receiver is a value and is unchanged. */
    function Storage(alias: string): (r: MediaManager)
      ensures r.storageMap == storageMap
      ensures r.selected.Some? <==> alias in storageMap
      ensures alias in storageMap ==> r.selected == Some(storageMap[alias])
    {
      MediaManager(storageMap, if alias in storageMap then Some(storageMap[alias]) else None)
    }

    /** Removes one file: the selected storage's answer for the same key. */
    function Delete(key: Key): (e: Option<MediaError>)
      requires selected.Some?
      ensures e == selected.value.answers.deleteOp(key)
    {
      selected.value.answers.deleteOp(key)
    }

    function Exists(key: Key): (r: Reply<bool>)
      requires selected.Some?
      ensures r == selected.value.answers.existsOp(key)
    {
      selected.value.answers.existsOp(key)
    }

    function GetSignedURL(key: Key, expiry: Duration): (r: Reply<string>)
      requires selected.Some?
      ensures r == selected.value.answers.getSignedURLOp(key, expiry)
    {
      selected.value.answers.getSignedURLOp(key, expiry)
    }

    function GetURL(key: Key): (r: Reply<string>)
      requires selected.Some?
      ensures r == selected.value.answers.getURLOp(key)
    {
      selected.value.answers.getURLOp(key)
    }

    /** Uploads `file` under `key`; the body comes first, as in the manager's signature. */
    function Put(file: Body, key: Key): (r: Reply<string>)
      requires selected.Some?
      ensures r == selected.value.answers.putOp(file, key)
    {
      selected.value.answers.putOp(file, key)
    }

    /**
     * The negation of `Exists`: an error from `Exists` is returned unchanged
     * together with `false`, never `true`.
     */
    function Missing(key: Key): (r: Reply<bool>)
      requires selected.Some?
      ensures r.err == Exists(key).err
      ensures r.err.Some? ==> !r.value
      ensures r.err.None? ==> r.value == !Exists(key).value
    {
      var found := Exists(key);
      if found.err.Some? then Reply(false, found.err) else Reply(!found.value, None)
    }

    /**
     * Deletes every key; succeeds exactly when every single delete does, and
     * otherwise reports the error of one of the failing keys. The selected
     * backend receives exactly one delete per key, failures notwithstanding;
     * an empty batch touches no backend, so it needs none to be selected.
     */
    method DeleteMany(keys: seq<Key>) returns (err: Option<MediaError>)
      requires selected.Some? || keys == []
      modifies if selected.Some? then {selected.value} else {}
      ensures selected.Some? ==>
        selected.value.log == old(selected.value.log) + seq(|keys|, i requires 0 <= i < |keys| => DeleteCall(keys[i]))
      ensures err.None? <==> forall i :: 0 <= i < |keys| ==> Delete(keys[i]).None?
      ensures err.Some? ==> exists i :: 0 <= i < |keys| && Delete(keys[i]) == err
    {
      err := None;
      for i := 0 to |keys|
        invariant selected.Some? ==>
          selected.value.log == old(selected.value.log) + seq(i, j requires 0 <= j < i => DeleteCall(keys[j]))
        invariant err.None? <==> forall j :: 0 <= j < i ==> Delete(keys[j]).None?
        invariant err.Some? ==> exists j :: 0 <= j < i && Delete(keys[j]) == err
      {
        var backend := selected.value;
        var e := backend.Delete(keys[i]);
        assert seq(i + 1, j requires 0 <= j < i + 1 => DeleteCall(keys[j]))
            == seq(i, j requires 0 <= j < i => DeleteCall(keys[j])) + [DeleteCall(keys[i])];
        if e.Some? && err.None? {
          err := e;
        }
      }
    }

    /**
     * The direct URL of every key, in the order of `keys`, or, when any key
     * fails, no URLs and the error of one of the failing keys. The selected
     * backend receives exactly one call per key.
     */
    method GetURLs(keys: seq<Key>) returns (urls: seq<string>, err: Option<MediaError>)
      requires selected.Some? || keys == []
      modifies if selected.Some? then {selected.value} else {}
      ensures selected.Some? ==>
        selected.value.log == old(selected.value.log) + seq(|keys|, i requires 0 <= i < |keys| => GetURLCall(keys[i]))
      ensures err.None? <==> forall i :: 0 <= i < |keys| ==> GetURL(keys[i]).err.None?
      ensures err.None? ==> |urls| == |keys| && forall i :: 0 <= i < |keys| ==> urls[i] == GetURL(keys[i]).value
      ensures err.Some? ==> urls == [] && exists i :: 0 <= i < |keys| && GetURL(keys[i]).err == err
    {
      var slots := new string[|keys|];
      err := None;
      for i := 0 to |keys|
        invariant selected.Some? ==>
          selected.value.log == old(selected.value.log) + seq(i, j requires 0 <= j < i => GetURLCall(keys[j]))
        invariant forall j :: 0 <= j < i && GetURL(keys[j]).err.None? ==> slots[j] == GetURL(keys[j]).value
        invariant err.None? <==> forall j :: 0 <= j < i ==> GetURL(keys[j]).err.None?
        invariant err.Some? ==> exists j :: 0 <= j < i && GetURL(keys[j]).err == err
      {
        var backend := selected.value;
        var reply := backend.GetURL(keys[i]);
        assert seq(i + 1, j requires 0 <= j < i + 1 => GetURLCall(keys[j]))
            == seq(i, j requires 0 <= j < i => GetURLCall(keys[j])) + [GetURLCall(keys[i])];
        if reply.err.Some? {
          if err.None? {
            err := reply.err;
          }
        } else {
          slots[i] := reply.value;
        }
      }
      urls := if err.Some? then [] else slots[..];
    }

    /**
     * The signed URL of every key for the one shared `expiry`, in the order of
     * `keys`, or, when any key fails, no URLs and the error of one of the
     * failing keys. The selected backend receives exactly one call per key,
     * each with that same expiry.
     */
    method GetSignedURLs(keys: seq<Key>, expiry: Duration) returns (urls: seq<string>, err: Option<MediaError>)
      requires selected.Some? || keys == []
      modifies if selected.Some? then {selected.value} else {}
      ensures selected.Some? ==>
        selected.value.log
        == old(selected.value.log) + seq(|keys|, i requires 0 <= i < |keys| => GetSignedURLCall(keys[i], expiry))
      ensures err.None? <==> forall i :: 0 <= i < |keys| ==> GetSignedURL(keys[i], expiry).err.None?
      ensures err.None? ==> |urls| == |keys| && forall i :: 0 <= i < |keys| ==> urls[i] == GetSignedURL(keys[i], expiry).value
      ensures err.Some? ==> urls == [] && exists i :: 0 <= i < |keys| && GetSignedURL(keys[i], expiry).err == err
    {
      var slots := new string[|keys|];
      err := None;
      for i := 0 to |keys|
        invariant selected.Some? ==>
          selected.value.log == old(selected.value.log) + seq(i, j requires 0 <= j < i => GetSignedURLCall(keys[j], expiry))
        invariant forall j :: 0 <= j < i && GetSignedURL(keys[j], expiry).err.None? ==>
          slots[j] == GetSignedURL(keys[j], expiry).value
        invariant err.None? <==> forall j :: 0 <= j < i ==> GetSignedURL(keys[j], expiry).err.None?
        invariant err.Some? ==> exists j :: 0 <= j < i && GetSignedURL(keys[j], expiry).err == err
      {
        var backend := selected.value;
        var reply := backend.GetSignedURL(keys[i], expiry);
        assert seq(i + 1, j requires 0 <= j < i + 1 => GetSignedURLCall(keys[j], expiry))
            == seq(i, j requires 0 <= j < i => GetSignedURLCall(keys[j], expiry)) + [GetSignedURLCall(keys[i], expiry)];
        if reply.err.Some? {
          if err.None? {
            err := reply.err;
          }
        } else {
          slots[i] := reply.value;
        }
      }
      urls := if err.Some? then [] else slots[..];
    }
  }

  /**
   * A manager over `storage` with `defaultAlias` selected; fails with
   * ErrInvalidDefaultStorage exactly when the alias is not registered (in
   * particular when the registry is empty).
   */
  function NewManager(defaultAlias: string, storage: map<string, StorageDriver>): (r: Result<MediaManager>)
    ensures r.Fail? <==> defaultAlias !in storage
    ensures r.Fail? ==> r.error == ErrInvalidDefaultStorage
    ensures r.Ok? ==> r.value.storageMap == storage && r.value.selected == Some(storage[defaultAlias])
  {
    if defaultAlias in storage then Ok(MediaManager(storage, Some(storage[defaultAlias])))
    else Fail(ErrInvalidDefaultStorage)
  }

  /** An empty registry admits no manager, whatever the alias. */
  lemma NewManagerEmptyRegistry(alias: string)
    ensures NewManager(alias, map[]) == Fail(ErrInvalidDefaultStorage)
  {
  }

  /**
   * Switching to an alias selects the same storage that constructing a
   * manager with that alias would, and is unusable in exactly the cases where
   * construction fails.
   */
  lemma StorageAgreesWithNewManager(m: MediaManager, alias: string)
    ensures m.Storage(alias).selected.None? <==> NewManager(alias, m.storageMap).Fail?
    ensures NewManager(alias, m.storageMap).Ok? ==> NewManager(alias, m.storageMap).value == m.Storage(alias)
  {
  }

  /** Only the last switch matters: the registry is shared and never changes. */
  lemma StorageLastAliasWins(m: MediaManager, first: string, second: string)
    ensures m.Storage(first).Storage(second) == m.Storage(second)
  {
  }

  /**
   * After switching to a registered alias, every single-key operation is
   * answered by that alias's storage with the caller's arguments unchanged.
   */
  lemma StorageDelegatesToAlias(m: MediaManager, alias: string, key: Key, expiry: Duration, file: Body)
    requires alias in m.storageMap
    ensures m.Storage(alias).Delete(key) == m.storageMap[alias].answers.deleteOp(key)
    ensures m.Storage(alias).Exists(key) == m.storageMap[alias].answers.existsOp(key)
    ensures m.Storage(alias).GetSignedURL(key, expiry) == m.storageMap[alias].answers.getSignedURLOp(key, expiry)
    ensures m.Storage(alias).GetURL(key) == m.storageMap[alias].answers.getURLOp(key)
    ensures m.Storage(alias).Put(file, key) == m.storageMap[alias].answers.putOp(file, key)
  {
  }
}
