/**
 * LocalDB: the plaintext, digest-addressed cache over an IDb (localdb/localdb.ts).
 * The object codec and SHA-256 are supplied from outside, as functions.
 */
module LocalStore {
  import opened Common
  import opened KeyValue
  import Hex

  /** A SHA-256 digest: the 32-byte digest field of a sha2-256 multihash. */
  type Sha256Digest = s: Bytes | |s| == 32 witness seq(32, _ => 0)

  /** The object type's protobuf encoding and its decoder, which may throw. */
  datatype Codec<!O> = Codec(encode: O -> Bytes, decode: Bytes -> Option<O>)

  /** The hashPtr argument of storeLocal: absent, or an IArrayPtr whose ptr may be null. */
  datatype PtrArg = NoPtr | Ptr(ptr: Option<Bytes>)

  /** Which digest comparison storeLocal makes: the code's, or the one its interface describes. */
  datatype Variant = AsWritten | Corrected

  /** What a call of storeLocal leaves behind: its outcome, the store and the pointer. */
  datatype StoreOutcome = StoreOutcome(status: Result<()>, db: Db, ptr: PtrArg)

  /**
   * The byte length of `new ArrayBuffer(a)` for a plain Uint8Array a: the array is coerced
   * to a number through its comma-separated string form, which is a number only when the
   * array has a single element (the empty array's "" coerces to 0, the rest to NaN and so 0).
   */
  function BufLen(a: Bytes): (n: nat)
    ensures n < 256
    ensures n > 0 ==> a == [n]
    ensures |a| != 1 ==> n == 0
  {
    if |a| == 1 then a[0] else 0
  }

  /**
   * True when storeLocal rejects a digest. As written, it compares two zero-filled
   * buffers, so only their coerced lengths matter; corrected, it compares the bytes.
   */
  predicate Mismatch(variant: Variant, expected: Bytes, computed: Bytes): (r: bool)
    ensures variant.Corrected? ==> (r <==> expected != computed)
    ensures variant.AsWritten? && r ==> |expected| == 1 || |computed| == 1
    ensures variant.AsWritten? && |expected| == 1 && |computed| == 1 ==> (r <==> expected != computed)
  {
    match variant
    case AsWritten => BufLen(expected) != BufLen(computed)
    case Corrected => expected != computed
  }

  /** The expected digest storeLocal checks against; empty when there is none. */
  function Expected(hashPtr: PtrArg): Bytes
  {
    if hashPtr.Ptr? && hashPtr.ptr.Some? then hashPtr.ptr.value else []
  }

  /** Decoding the cached bytes into an object. */
  function Decoded<O>(codec: Codec<O>, data: Bytes): Result<O>
  {
    match codec.decode(data)
    case Some(o) => Success(o)
    case None => Failure(DecodeFailed)
  }

  /** getLocal: NotFound for a missing or empty entry, otherwise the decoded entry. */
  function GetLocalSpec<O>(db: Db, codec: Codec<O>, digest: Bytes): Result<O>
  {
    match GetKey(db, Hex.ToHex(digest))
    case None => Failure(NotFound)
    case Some(data) => if |data| == 0 then Failure(NotFound) else Decoded(codec, data)
  }

  /** storeLocal. */
  function StoreLocalSpec<O>(variant: Variant, db: Db, codec: Codec<O>, hash: Bytes -> Sha256Digest,
                             obj: O, hashPtr: PtrArg): StoreOutcome
  {
    var expected := Expected(hashPtr);
    var data := codec.encode(obj);
    var computed := hash(data);
    if |expected| > 0 && Mismatch(variant, expected, computed) then
      StoreOutcome(Failure(DigestMismatch), db, hashPtr)
    else
      StoreOutcome(Success(()), SetKey(db, Hex.ToHex(computed), data),
                   if |expected| == 0 && hashPtr.Ptr? then Ptr(Some(computed)) else hashPtr)
  }

  /**
   * A successful storeLocal writes exactly one key, the hex of the digest of the
   * encoding, whatever the pointer held, and every other key keeps its value.
   */
  lemma StoreWritesOneKey<O>(variant: Variant, db: Db, codec: Codec<O>, hash: Bytes -> Sha256Digest,
                             obj: O, hashPtr: PtrArg)
    requires StoreLocalSpec(variant, db, codec, hash, obj, hashPtr).status.Success?
    ensures var out := StoreLocalSpec(variant, db, codec, hash, obj, hashPtr);
            var key := Hex.ToHex(hash(codec.encode(obj)));
            && GetKey(out.db, key) == Some(codec.encode(obj))
            && (forall k :: k != key ==> GetKey(out.db, k) == GetKey(db, k))
            && Backing(out.db) == Backing(db)[FullPrefix(db) + key := codec.encode(obj)]
  {
    var data := codec.encode(obj);
    var key := Hex.ToHex(hash(data));
    GetAfterSet(db, key, data);
    forall k | k != key
      ensures GetKey(SetKey(db, key, data), k) == GetKey(db, k)
    {
      GetOtherAfterSet(db, key, data, k);
    }
  }

  /**
   * The pointer: with no expected digest storeLocal never fails and writes the computed
   * digest into a given IArrayPtr; with one, the IArrayPtr is left as it was.
   */
  lemma StorePointer<O>(variant: Variant, db: Db, codec: Codec<O>, hash: Bytes -> Sha256Digest,
                        obj: O, hashPtr: PtrArg)
    ensures var out := StoreLocalSpec(variant, db, codec, hash, obj, hashPtr);
            && (|Expected(hashPtr)| == 0 ==> out.status.Success?)
            && (|Expected(hashPtr)| == 0 && hashPtr.Ptr? ==> out.ptr == Ptr(Some(hash(codec.encode(obj)))))
            && (|Expected(hashPtr)| > 0 || hashPtr.NoPtr? ==> out.ptr == hashPtr)
  {
  }

  /**
   * A failing storeLocal fails with DigestMismatch, exactly when the comparison reports
   * a mismatch against a non-empty expected digest, and changes nothing.
   */
  lemma StoreFailureChangesNothing<O>(variant: Variant, db: Db, codec: Codec<O>,
                                      hash: Bytes -> Sha256Digest, obj: O, hashPtr: PtrArg)
    ensures var out := StoreLocalSpec(variant, db, codec, hash, obj, hashPtr);
            && (out.status.Failure? <==>
                |Expected(hashPtr)| > 0 && Mismatch(variant, Expected(hashPtr), hash(codec.encode(obj))))
            && (out.status.Failure? ==> out.status.error == DigestMismatch && out.db == db && out.ptr == hashPtr)
  {
  }

  /**
   * As written, the comparison against a 32-byte computed digest fails only for an
   * expected digest of exactly one non-zero byte.
   */
  lemma AsWrittenRejectsOnlySingleBytes<O>(db: Db, codec: Codec<O>, hash: Bytes -> Sha256Digest,
                                           obj: O, hashPtr: PtrArg)
    ensures StoreLocalSpec(AsWritten, db, codec, hash, obj, hashPtr).status.Failure? <==>
            |Expected(hashPtr)| == 1 && Expected(hashPtr)[0] != 0
  {
    assert BufLen(hash(codec.encode(obj))) == 0;
  }

  /**
   * As written, storeLocal accepts any expected digest of two or more bytes, even one that
   * is not the digest of the data, and then leaves the entry under that digest untouched.
   */
  lemma AsWrittenAcceptsWrongDigest<O>(db: Db, codec: Codec<O>, hash: Bytes -> Sha256Digest,
                                       obj: O, expected: Bytes)
    requires |expected| >= 2 && expected != hash(codec.encode(obj))
    ensures var out := StoreLocalSpec(AsWritten, db, codec, hash, obj, Ptr(Some(expected)));
            && out.status.Success?
            && GetKey(out.db, Hex.ToHex(expected)) == GetKey(db, Hex.ToHex(expected))
  {
    var data := codec.encode(obj);
    Hex.Injective(expected, hash(data));
    GetOtherAfterSet(db, Hex.ToHex(hash(data)), data, Hex.ToHex(expected));
  }

  /**
   * Corrected, a storeLocal with an expected digest succeeds only when the data hashes to
   * it, and the data is then cached under that very digest (content addressing).
   */
  lemma CorrectedStoreIsContentAddressed<O>(db: Db, codec: Codec<O>, hash: Bytes -> Sha256Digest,
                                            obj: O, expected: Bytes)
    requires |expected| > 0
    ensures var out := StoreLocalSpec(Corrected, db, codec, hash, obj, Ptr(Some(expected)));
            && (out.status.Success? <==> hash(codec.encode(obj)) == expected)
            && (out.status.Success? ==> GetKey(out.db, Hex.ToHex(expected)) == Some(codec.encode(obj)))
            && (out.status.Failure? ==> out.db == db)
  {
    GetAfterSet(db, Hex.ToHex(hash(codec.encode(obj))), codec.encode(obj));
  }

  /**
   * Round trip: storeLocal with an empty pointer, then getLocal of the digest it wrote
   * back, decodes the stored encoding; an empty encoding reads back as NotFound.
   */
  lemma StoreThenGet<O>(variant: Variant, db: Db, codec: Codec<O>, hash: Bytes -> Sha256Digest, obj: O)
    ensures var out := StoreLocalSpec(variant, db, codec, hash, obj, Ptr(None));
            && out.status.Success?
            && out.ptr == Ptr(Some(hash(codec.encode(obj))))
            && GetLocalSpec(out.db, codec, out.ptr.ptr.value) ==
               if |codec.encode(obj)| == 0 then Failure(NotFound) else Decoded(codec, codec.encode(obj))
  {
    GetAfterSet(db, Hex.ToHex(hash(codec.encode(obj))), codec.encode(obj));
  }

  /** An updatable pointer to an array (IArrayPtr, interfaces.ts:3-6). */
  class ArrayPtr {
    var ptr: Option<Bytes>

    constructor (ptr: Option<Bytes>)
      ensures this.ptr == ptr
    {
      this.ptr := ptr;
    }
  }

  /** LocalDB wraps an IDb to implement the local store. */
  class LocalDB<O> {
    var db: Db
    const codec: Codec<O>
    const hash: Bytes -> Sha256Digest

    constructor (db: Db, codec: Codec<O>, hash: Bytes -> Sha256Digest)
      ensures this.db == db && this.codec == codec && this.hash == hash
    {
      this.db := db;
      this.codec := codec;
      this.hash := hash;
    }

    /** digestData: the SHA-256 digest of the unencrypted data, always 32 bytes. */
    function DigestData(data: Bytes): (d: Bytes)
      ensures |d| == 32
    {
      hash(data)
    }

    /**
     * getLocal: NotFound, with nothing changed, when the store has no value under the
     * digest's hex key or the value is empty; otherwise the decoded value.
     */
    method GetLocal(digest: Bytes) returns (r: Result<O>)
      ensures r == GetLocalSpec(db, codec, digest)
      ensures r == Failure(NotFound) <==>
        GetKey(db, Hex.ToHex(digest)).None? || |GetKey(db, Hex.ToHex(digest)).value| == 0
      ensures r.Success? ==> codec.decode(GetKey(db, Hex.ToHex(digest)).value) == Some(r.value)
    {
      var digestKey := Hex.ToHex(digest);
      var data := GetKey(db, digestKey);
      if data.None? || |data.value| == 0 {
        return Failure(NotFound);
      }
      var o := codec.decode(data.value);
      if o.None? {
        return Failure(DecodeFailed);
      }
      return Success(o.value);
    }

    /**
     * storeLocal, as written: checks a non-empty expected digest with the line-59
     * comparison, or writes the computed digest back through the pointer, then stores
     * the encoding under the computed digest's key.
     */
    method StoreLocal(obj: O, hashPtr: ArrayPtr?) returns (r: Result<()>)
      modifies this, hashPtr
      ensures var out := StoreLocalSpec(AsWritten, old(db), codec, hash, obj,
                                        if hashPtr == null then NoPtr else Ptr(old(hashPtr.ptr)));
              && r == out.status && db == out.db
              && (hashPtr != null ==> out.ptr == Ptr(hashPtr.ptr))
    {
      var digest: Bytes := [];
      if hashPtr != null && hashPtr.ptr.Some? && |hashPtr.ptr.value| > 0 {
        digest := hashPtr.ptr.value;
      }
      var data := codec.encode(obj);
      var computedDigest := DigestData(data);
      if |digest| > 0 {
        if BufLen(digest) != BufLen(computedDigest) {
          return Failure(DigestMismatch);
        }
      } else if hashPtr != null {
        hashPtr.ptr := Some(computedDigest);
      }
      digest := computedDigest;
      db := SetKey(db, Hex.ToHex(digest), data);
      return Success(());
    }

    /** clearDatabase: delegates to the store's clearKeys. */
    method ClearDatabase() returns (r: Result<()>)
      modifies this
      ensures ClearKeys(old(db)).Success? ==> r == Success(()) && db == ClearKeys(old(db)).value
      ensures ClearKeys(old(db)).Failure? ==> r == Failure(ClearKeys(old(db)).error) && db == old(db)
    {
      var cleared := ClearKeys(db);
      if cleared.Failure? {
        return Failure(cleared.error);
      }
      db := cleared.value;
      return Success(());
    }
  }
}
