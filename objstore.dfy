/**
 * ObjectStore: the cache-aside controller that overlays the remote, encrypted-at-rest
 * blob store on the local digest-addressed cache (obj-store.ts).
 */
module ObjStore {
  import opened Common
  import opened KeyValue
  import opened LocalStore
  import Hex

  /**
   * The remote blob store, abstractly: the blobs it holds by storage reference, the
   * reference it issues for a stored blob, and a count of the fetches made from it.
   */
  class RemoteStore {
    var blobs: map<string, Bytes>
    ghost var fetches: nat
    const locate: Bytes -> string

    constructor (blobs: map<string, Bytes>, locate: Bytes -> string)
      ensures this.blobs == blobs && this.locate == locate && fetches == 0
    {
      this.blobs := blobs;
      this.locate := locate;
      fetches := 0;
    }

    /** fetchRemote: the blob under the reference, or null when there is none. */
    method FetchRemote(storageRef: string) returns (data: Option<Bytes>)
      modifies this
      ensures data == Lookup(blobs, storageRef)
      ensures blobs == old(blobs) && fetches == old(fetches) + 1
    {
      data := Lookup(blobs, storageRef);
      fetches := fetches + 1;
    }

    /** storeRemote: keeps the blob and returns the reference it is kept under. */
    method StoreRemote(blob: Bytes) returns (storageRef: string)
      modifies this
      ensures storageRef == locate(blob)
      ensures blobs == old(blobs)[storageRef := blob] && fetches == old(fetches)
    {
      storageRef := locate(blob);
      blobs := blobs[storageRef := blob];
    }
  }

  /** What a call of getOrFetch leaves behind: its outcome, the local store, the remote fetches. */
  datatype FetchOutcome<O> = FetchOutcome(result: Result<O>, db: Db, fetches: nat)

  /**
   * getOrFetch. `open` stands for unwrapping and decrypting a remote payload with the
   * caller's encryption configuration. As written, the cache is warmed with the caller's
   * `obj`; corrected, with the decrypted object.
   */
  function GetOrFetchSpec<O>(variant: Variant, db: Db, codec: Codec<O>, hash: Bytes -> Sha256Digest,
                             blobs: map<string, Bytes>, digest: Bytes, storageRef: string,
                             obj: O, open: Bytes -> Option<O>): FetchOutcome<O>
  {
    var local := GetLocalSpec(db, codec, digest);
    if local.Success? || local.error != NotFound then FetchOutcome(local, db, 0)
    else match Lookup(blobs, storageRef)
      case None => FetchOutcome(Failure(NotFound), db, 1)
      case Some(data) =>
        match open(data)
        case None => FetchOutcome(Failure(OpenFailed), db, 1)
        case Some(decoded) =>
          var stored := if variant == AsWritten then obj else decoded;
          var out := StoreLocalSpec(variant, db, codec, hash, stored, Ptr(Some(digest)));
          FetchOutcome(if out.status.Success? then Success(decoded) else Failure(out.status.error), out.db, 1)
  }

  /** Cache hit: the local object is returned with no remote fetch and no local write. */
  lemma CacheHit<O>(variant: Variant, db: Db, codec: Codec<O>, hash: Bytes -> Sha256Digest,
                    blobs: map<string, Bytes>, digest: Bytes, storageRef: string,
                    obj: O, open: Bytes -> Option<O>)
    requires GetLocalSpec(db, codec, digest).Success?
    ensures GetOrFetchSpec(variant, db, codec, hash, blobs, digest, storageRef, obj, open)
         == FetchOutcome(GetLocalSpec(db, codec, digest), db, 0)
  {
  }

  /** A local failure other than NotFound is rethrown, with no remote fetch. */
  lemma LocalErrorRethrown<O>(variant: Variant, db: Db, codec: Codec<O>, hash: Bytes -> Sha256Digest,
                              blobs: map<string, Bytes>, digest: Bytes, storageRef: string,
                              obj: O, open: Bytes -> Option<O>)
    requires GetLocalSpec(db, codec, digest).Failure?
    requires GetLocalSpec(db, codec, digest).error != NotFound
    ensures GetOrFetchSpec(variant, db, codec, hash, blobs, digest, storageRef, obj, open)
         == FetchOutcome(GetLocalSpec(db, codec, digest), db, 0)
  {
  }

  /** On a miss with no remote payload, NotFound after one fetch, and the cache is unchanged. */
  lemma AbsentPayloadNotFound<O>(variant: Variant, db: Db, codec: Codec<O>, hash: Bytes -> Sha256Digest,
                                 blobs: map<string, Bytes>, digest: Bytes, storageRef: string,
                                 obj: O, open: Bytes -> Option<O>)
    requires GetLocalSpec(db, codec, digest) == Failure(NotFound)
    requires storageRef !in blobs
    ensures GetOrFetchSpec(variant, db, codec, hash, blobs, digest, storageRef, obj, open)
         == FetchOutcome(Failure(NotFound), db, 1)
  {
  }

  /**
   * On a miss with a payload that opens: exactly one fetch, the store updated exactly as
   * storeLocal(obj, {ptr: digest}) updates it, and the decrypted object returned unless
   * that call failed, whose error then propagates.
   */
  lemma MissWarmsWithCallerObject<O>(db: Db, codec: Codec<O>, hash: Bytes -> Sha256Digest,
                                     blobs: map<string, Bytes>, digest: Bytes, storageRef: string,
                                     obj: O, open: Bytes -> Option<O>)
    requires GetLocalSpec(db, codec, digest) == Failure(NotFound)
    requires storageRef in blobs && open(blobs[storageRef]).Some?
    ensures var first := GetOrFetchSpec(AsWritten, db, codec, hash, blobs, digest, storageRef, obj, open);
            var store := StoreLocalSpec(AsWritten, db, codec, hash, obj, Ptr(Some(digest)));
            && first.fetches == 1
            && first.db == store.db
            && first.result == if store.status.Success? then Success(open(blobs[storageRef]).value)
                               else Failure(DigestMismatch)
  {
    StoreFailureChangesNothing(AsWritten, db, codec, hash, obj, Ptr(Some(digest)));
  }

  /**
   * As written, a successful miss warms the cache for the digest when the caller's object
   * encodes to non-empty data with that digest: a second call is served locally, with no
   * fetch, and yields the caller's object as decoded from its encoding.
   */
  lemma SecondCallIsLocal<O>(db: Db, codec: Codec<O>, hash: Bytes -> Sha256Digest,
                             blobs: map<string, Bytes>, digest: Bytes, storageRef: string,
                             obj: O, open: Bytes -> Option<O>)
    requires hash(codec.encode(obj)) == digest && |codec.encode(obj)| > 0
    requires GetLocalSpec(db, codec, digest) == Failure(NotFound)
    requires GetOrFetchSpec(AsWritten, db, codec, hash, blobs, digest, storageRef, obj, open).result.Success?
    ensures var first := GetOrFetchSpec(AsWritten, db, codec, hash, blobs, digest, storageRef, obj, open);
            var second := GetOrFetchSpec(AsWritten, first.db, codec, hash, blobs, digest, storageRef, obj, open);
            && second.fetches == 0
            && second.db == first.db
            && second.result == Decoded(codec, codec.encode(obj))
  {
    GetAfterSet(db, Hex.ToHex(digest), codec.encode(obj));
  }

  /** Corrected, a remote payload that does not hash to the digest is refused and not cached. */
  lemma CorrectedRefusesForeignPayload<O>(db: Db, codec: Codec<O>, hash: Bytes -> Sha256Digest,
                                          blobs: map<string, Bytes>, digest: Bytes, storageRef: string,
                                          obj: O, open: Bytes -> Option<O>)
    requires |digest| > 0
    requires GetLocalSpec(db, codec, digest) == Failure(NotFound)
    requires storageRef in blobs && open(blobs[storageRef]).Some?
    requires hash(codec.encode(open(blobs[storageRef]).value)) != digest
    ensures GetOrFetchSpec(Corrected, db, codec, hash, blobs, digest, storageRef, obj, open)
         == FetchOutcome(Failure(DigestMismatch), db, 1)
  {
  }

  /**
   * Corrected, a successful call warms the cache when three things hold: the requested
   * digest is non-empty, the decrypted object encodes to non-empty data, and its codec
   * round-trips it. A second call with the same digest then makes no fetch and returns
   * the same object.
   */
  lemma CorrectedWarmsCache<O>(db: Db, codec: Codec<O>, hash: Bytes -> Sha256Digest,
                               blobs: map<string, Bytes>, digest: Bytes, storageRef: string,
                               obj: O, open: Bytes -> Option<O>)
    requires |digest| > 0
    requires GetOrFetchSpec(Corrected, db, codec, hash, blobs, digest, storageRef, obj, open).result.Success?
    requires var v := GetOrFetchSpec(Corrected, db, codec, hash, blobs, digest, storageRef, obj, open).result.value;
             |codec.encode(v)| > 0 && codec.decode(codec.encode(v)) == Some(v)
    ensures var first := GetOrFetchSpec(Corrected, db, codec, hash, blobs, digest, storageRef, obj, open);
            var second := GetOrFetchSpec(Corrected, first.db, codec, hash, blobs, digest, storageRef, obj, open);
            second == FetchOutcome(first.result, first.db, 0)
  {
    if !GetLocalSpec(db, codec, digest).Success? {
      var decoded := open(blobs[storageRef]).value;
      CorrectedStoreIsContentAddressed(db, codec, hash, decoded, digest);
    }
  }

  /**
   * Even corrected, an object that encodes to no bytes (a protobuf message whose fields all
   * hold their defaults) is never served from the cache: it is stored as an empty value,
   * which getLocal reports as NotFound, so every call fetches again.
   */
  lemma CorrectedEmptyEncodingRefetches<O>(db: Db, codec: Codec<O>, hash: Bytes -> Sha256Digest,
                                           blobs: map<string, Bytes>, digest: Bytes, storageRef: string,
                                           obj: O, open: Bytes -> Option<O>)
    requires |digest| > 0
    requires GetLocalSpec(db, codec, digest) == Failure(NotFound)
    requires GetOrFetchSpec(Corrected, db, codec, hash, blobs, digest, storageRef, obj, open).result.Success?
    requires codec.encode(GetOrFetchSpec(Corrected, db, codec, hash, blobs, digest, storageRef, obj, open).result.value) == []
    ensures var first := GetOrFetchSpec(Corrected, db, codec, hash, blobs, digest, storageRef, obj, open);
            var second := GetOrFetchSpec(Corrected, first.db, codec, hash, blobs, digest, storageRef, obj, open);
            && first.fetches == 1
            && second.fetches == 1
            && second.result == first.result
  {
    var decoded := open(blobs[storageRef]).value;
    CorrectedStoreIsContentAddressed(db, codec, hash, decoded, digest);
  }

  /**
   * As written, when the caller's object does not hash to the requested digest (a fresh
   * template, say), a miss returns the remote object but caches the template under the
   * template's own digest, so a second call for the same digest fetches again.
   */
  lemma ForeignObjectIsCachedInstead<O>(db: Db, codec: Codec<O>, hash: Bytes -> Sha256Digest,
                                        blobs: map<string, Bytes>, digest: Bytes, storageRef: string,
                                        obj: O, open: Bytes -> Option<O>)
    requires |digest| >= 2
    requires hash(codec.encode(obj)) != digest
    requires GetLocalSpec(db, codec, digest) == Failure(NotFound)
    requires storageRef in blobs && open(blobs[storageRef]).Some?
    ensures var first := GetOrFetchSpec(AsWritten, db, codec, hash, blobs, digest, storageRef, obj, open);
            var second := GetOrFetchSpec(AsWritten, first.db, codec, hash, blobs, digest, storageRef, obj, open);
            && first.result == Success(open(blobs[storageRef]).value) && first.fetches == 1
            && second.result == first.result && second.fetches == 1
  {
    var data := codec.encode(obj);
    Hex.Injective(digest, hash(data));
    GetOtherAfterSet(db, Hex.ToHex(hash(data)), data, Hex.ToHex(digest));
  }

  /** A toy object codec for the counterexample below: one byte per object. */
  function ToyEncode(o: int): Bytes
  {
    [o % 256]
  }

  function ToyDecode(data: Bytes): Option<int>
  {
    if |data| == 1 then Some(data[0]) else None
  }

  /** A toy 32-byte digest: the first byte of the data, then zeros. */
  function ToyHash(data: Bytes): Sha256Digest
  {
    (if |data| > 0 then [data[0]] else [0]) + seq(31, _ => 0)
  }

  /**
   * As written, a caller that passes a fresh template object (as the source's own test
   * does) gets the remote object back, but the cache is warmed with the template, under
   * the template's digest: the next call for the same digest fetches again.
   */
  lemma TemplateIsCachedInstead()
    ensures var codec := Codec(ToyEncode, ToyDecode);
            var blobs := map["ref" := [7]];
            var digest := ToyHash([7]);
            var first := GetOrFetchSpec(AsWritten, Inmem(map[]), codec, ToyHash, blobs, digest, "ref", 0, ToyDecode);
            var second := GetOrFetchSpec(AsWritten, first.db, codec, ToyHash, blobs, digest, "ref", 0, ToyDecode);
            && first.result == Success(7) && first.fetches == 1
            && second.result == Success(7) && second.fetches == 1
  {
    var digest := ToyHash([7]);
    var templateDigest := ToyHash([0]);
    assert digest[0] != templateDigest[0];
    Hex.Injective(digest, templateDigest);
    GetOtherAfterSet(Inmem(map[]), Hex.ToHex(templateDigest), [0], Hex.ToHex(digest));
  }

  /** ObjectStore overlays the remote blob store over the local cache. */
  class ObjectStore<O> {
    const localStore: LocalDB<O>
    const remoteStore: RemoteStore

    constructor (localStore: LocalDB<O>, remoteStore: RemoteStore)
      ensures this.localStore == localStore && this.remoteStore == remoteStore
    {
      this.localStore := localStore;
      this.remoteStore := remoteStore;
    }

    /**
     * getOrFetch, as written: the local cache first; on NotFound the remote store, then
     * the decrypted object, after warming the cache with storeLocal(obj, {ptr: digest}).
     */
    method GetOrFetch(digest: Bytes, storageRef: string, obj: O, open: Bytes -> Option<O>)
      returns (r: Result<O>)
      modifies localStore, remoteStore
      ensures var out := GetOrFetchSpec(AsWritten, old(localStore.db), localStore.codec, localStore.hash,
                                        old(remoteStore.blobs), digest, storageRef, obj, open);
              && r == out.result && localStore.db == out.db
              && remoteStore.fetches == old(remoteStore.fetches) + out.fetches
              && remoteStore.blobs == old(remoteStore.blobs)
    {
      var localObj := GetLocal(digest);
      if localObj.Success? {
        return localObj;
      }
      if localObj.error != NotFound {
        return localObj;
      }
      var data := FetchRemote(storageRef);
      if data.None? {
        return Failure(NotFound);
      }
      var objDecoded := open(data.value);
      if objDecoded.None? {
        return Failure(OpenFailed);
      }
      var hashPtr := new ArrayPtr(Some(digest));
      var stored := StoreLocal(obj, hashPtr);
      if stored.Failure? {
        return Failure(stored.error);
      }
      return Success(objDecoded.value);
    }

    /** getLocal: forwarded to the local store. */
    method GetLocal(digest: Bytes) returns (r: Result<O>)
      ensures r == GetLocalSpec(localStore.db, localStore.codec, digest)
    {
      r := localStore.GetLocal(digest);
    }

    /** storeLocal: forwarded to the local store. */
    method StoreLocal(obj: O, hashPtr: ArrayPtr?) returns (r: Result<()>)
      modifies localStore, hashPtr
      ensures var out := StoreLocalSpec(AsWritten, old(localStore.db), localStore.codec, localStore.hash, obj,
                                        if hashPtr == null then NoPtr else Ptr(old(hashPtr.ptr)));
              && r == out.status && localStore.db == out.db
              && (hashPtr != null ==> out.ptr == Ptr(hashPtr.ptr))
    {
      r := localStore.StoreLocal(obj, hashPtr);
    }

    /** digestData: forwarded to the local store. */
    function DigestData(data: Bytes): (d: Bytes)
      ensures d == localStore.DigestData(data)
    {
      localStore.DigestData(data)
    }

    /** fetchRemote: forwarded to the remote store. */
    method FetchRemote(storageRef: string) returns (data: Option<Bytes>)
      modifies remoteStore
      ensures data == Lookup(old(remoteStore.blobs), storageRef)
      ensures remoteStore.blobs == old(remoteStore.blobs)
      ensures remoteStore.fetches == old(remoteStore.fetches) + 1
    {
      data := remoteStore.FetchRemote(storageRef);
    }

    /** storeRemote: forwarded to the remote store. */
    method StoreRemote(blob: Bytes) returns (storageRef: string)
      modifies remoteStore
      ensures storageRef == remoteStore.locate(blob)
      ensures remoteStore.blobs == old(remoteStore.blobs)[storageRef := blob]
      ensures remoteStore.fetches == old(remoteStore.fetches)
    {
      storageRef := remoteStore.StoreRemote(blob);
    }
  }
}
