# objstore-js: the cache-aside object store, modelled in Dafny

objstore-js keeps domain objects in two tiers. A local plaintext cache is keyed by the
lowercase hex of the SHA-256 digest of an object's encoding. A remote store holds
encrypted blobs under storage references. `ObjectStore.getOrFetch` tries the local
cache first. It falls back to the remote tier only on `NotFoundError`, and it warms the
cache after a remote fetch.

The model follows the source file by file:

- `common.dfy`: bytes, `Option`/`Result` and the error kinds (`NotFoundError`, the digest-mismatch error, and the failures of the external decoders).
- `hex.dfy`: `getDigestKey`, i.e. `Buffer.toString('hex')`, with a decoder as its inverse.
- `kv.dfy`: the `IDb` interface as a value. `Db` is the in-memory dictionary, the level store or a chain of `Prefixer` decorators over either. `getKey`, `setKey`, `listKeys` and `clearKeys` are functions on it, and the contracts of the first three relate every chain to the one dictionary it writes.
- `prefixer.dfy`: what the `Prefixer` decorator guarantees. It is pure key rewriting.
- `inmem.dfy`: `InmemDB` as a class whose `db` field is updated in place. `listKeys` is the loop of the source, proved against the `Db` functions.
- `localdb.dfy`: `LocalDB` as a class over a `Db` value, plus `IArrayPtr` as the class `ArrayPtr`. `getLocal`, `storeLocal` and `clearDatabase` are proved equal to specification functions, and the properties are lemmas about those functions.
- `objstore.dfy`: the remote store as a class holding a map of blobs and a ghost count of fetches; `ObjectStore` with `getOrFetch` and its delegations; the specification of `getOrFetch` and its lemmas.

Some collaborators are external, so their behaviour is passed in as values:

- `Codec<O>` holds the object's protobuf `encode` and its `decode`. Decoding may fail.
- `hash` is the SHA-256 digest that `digestData` takes from the multihash. It always has 32 bytes.
- The `open` argument of `getOrFetch` stands for unwrapping the payload and decrypting it with the caller's encryption configuration. It may fail.

The classes follow the code as written. `storeLocal` compares digests with the line-59
coercion (`BufLen`), and `getOrFetch` stores the caller's `obj`. The specification
functions take a `Variant`. `AsWritten` is what the classes do. `Corrected` is what the
interface comments and the surrounding design intend, and the "## Findings" rows name a
lemma about each.

An empty remote payload does not raise NotFound. obj-store.ts:39 checks `!data`, and an
empty `Uint8Array` is truthy. The model follows the code: only an absent payload (null)
gives NotFound, and an empty one is handed to `open`.

## Model

| member | source | states |
|---|---|---|
| Hex.ToHex | localdb/localdb.ts:24-26 | the key of a digest is twice as long as the digest and consists of lowercase hex digits only |
| Hex.RoundTrip | localdb/localdb.ts:24-26 | decoding the hex key of any byte sequence gives back that sequence |
| Hex.Injective | localdb/localdb.ts:24-26 | two digests with the same key are equal, so distinct digests never share a cache entry |
| KeyValue.ClearKeys | level/level.ts:49-54 | clearKeys succeeds exactly for the level store and leaves it with no keys (listKeys("") is empty); InmemDB and Prefixer define no clearKeys, so the call fails there |
| KeyValue.GetKey | prefixer/prefixer.ts:9-11 | getKey on any store (InmemDB's dictionary, inmem/inmem.ts:9-11, or a chain of prefixers over it) is the backing dictionary's value at the chain's concatenated prefixes + k, null when absent |
| KeyValue.SetKey | prefixer/prefixer.ts:14-16 | setKey(k, v) on any store (InmemDB's dictionary, inmem/inmem.ts:14-17, or a chain of prefixers) updates exactly the backing entry at the concatenated prefixes + k and keeps the chain's prefixes |
| KeyValue.ListKeys | prefixer/prefixer.ts:19-22 | listKeys(q) on any store (InmemDB's filter, inmem/inmem.ts:20-37, or a chain of prefixers) is exactly the set of backing keys that start with the chain's prefixes + q, reported unstripped; an empty prefix selects every key |
| KeyValue.GetAfterSet | inmem/inmem.ts:9-17 | after setKey(k, v), getKey(k) returns v, for every store |
| KeyValue.GetOtherAfterSet | inmem/inmem.ts:14-17 | setKey(k, v) leaves the value of every other key unchanged |
| Prefixing.SetTouchesOnlyPrefixedKey | prefixer/prefixer.ts:14-16 | setKey through a Prefixer writes only the inner key prefix + k; inner keys that do not start with the prefix are never touched |
| Prefixing.PutGet | prefixer/prefixer.ts:9-16 | put-then-get through a Prefixer returns the value put, because the inner store has put-get |
| Prefixing.ListedKeysKeepPrefix | prefixer/prefixer.ts:19-22 | listKeys(q) through a Prefixer is the inner listKeys(prefix + q) unchanged: backing keys that start with all prefixes + q, not stripped |
| Prefixing.ListedKeysStartWithPrefix | prefixer/prefixer.ts:19-22 | over a plain store, every key a Prefixer lists starts with its prefix + q and is a key of the store |
| Prefixing.NestedPrefixers | prefixer/prefixer.ts:9-22 | Prefixer(Prefixer(db, a), b) reads, writes and lists like Prefixer(db, a + b) |
| Inmem.InmemDB.constructor | inmem/inmem.ts:5 | a new InmemDB holds no keys |
| Inmem.InmemDB.GetKey | inmem/inmem.ts:9-11 | getKey returns the stored array when the key is present (an empty array included) and null otherwise, changing nothing |
| Inmem.InmemDB.SetKey | inmem/inmem.ts:14-17 | the key now holds the value and every other key keeps its value |
| Inmem.InmemDB.ListKeys | inmem/inmem.ts:20-37 | the loop returns each present key that starts with a non-empty prefix (every key for an empty one) exactly once, and changes nothing; the set it returns is KeyValue.ListKeys of the same dictionary |
| LocalStore.LocalDB.constructor | localdb/localdb.ts:19-21 | a LocalDB wraps the given store |
| LocalStore.LocalDB.DigestData | localdb/localdb.ts:29-36 | digestData is a deterministic function of its input and gives a 32-byte SHA-256 digest |
| LocalStore.LocalDB.GetLocal | localdb/localdb.ts:39-47 | getLocal reports NotFound exactly when the store has no value, or an empty one, under the digest's hex key; on a hit it returns the decoding of that value; it never changes the store |
| LocalStore.LocalDB.StoreLocal | localdb/localdb.ts:50-68 | the store, the result and the pointer after storeLocal are those of the specification with the line-59 comparison |
| LocalStore.LocalDB.ClearDatabase | localdb/localdb.ts:71-73 | clearDatabase empties a store that has clearKeys and otherwise fails with the store unchanged |
| LocalStore.ArrayPtr.constructor | interfaces.ts:3-6 | an IArrayPtr holding the given array, or null |
| LocalStore.BufLen | localdb/localdb.ts:59 | the length `new ArrayBuffer(a)` gives a plain Uint8Array is below 256, is non-zero only for a one-element array holding that value, and is 0 for every array of another length |
| LocalStore.Mismatch | localdb/localdb.ts:58-59 | corrected, a digest is rejected exactly when it differs from the computed one; as written, a rejection needs a one-byte digest on one side, and two one-byte digests are rejected exactly when they differ |
| LocalStore.StoreWritesOneKey | localdb/localdb.ts:56-67 | a successful storeLocal writes exactly one key, the hex of the digest of the encoding, with the encoding as value, whatever the pointer held; all other keys are unchanged |
| LocalStore.StorePointer | localdb/localdb.ts:50-64 | with a null or empty pointer, storeLocal cannot fail and writes the computed digest into the pointer; with a non-empty pointer, or no IArrayPtr, the pointer is left alone |
| LocalStore.StoreFailureChangesNothing | localdb/localdb.ts:58-61 | storeLocal fails exactly when a non-empty expected digest compares unequal; it then fails with the digest-mismatch error and changes neither the store nor the pointer |
| LocalStore.AsWrittenRejectsOnlySingleBytes | localdb/localdb.ts:58-61 | as written, with a plain Uint8Array expected digest, storeLocal fails exactly when that digest is a single non-zero byte; it never fails for two digests of two or more bytes |
| LocalStore.AsWrittenAcceptsWrongDigest | localdb/localdb.ts:58-61 | as written, an expected digest of two or more bytes that is not the digest of the data is accepted, and its own cache entry is left as it was |
| LocalStore.CorrectedStoreIsContentAddressed | interfaces.ts:15-19 | with the intended byte comparison, storeLocal with an expected digest succeeds exactly when the data hashes to it, the data is then cached under that digest, and a failure changes nothing |
| LocalStore.StoreThenGet | localdb/localdb.ts:39-67 | storeLocal with an empty pointer followed by getLocal of the digest written back returns the decoding of the encoding, or NotFound when the encoding is empty |
| ObjStore.RemoteStore.FetchRemote | interfaces.ts:26-27 | fetchRemote returns the blob under the reference, or null, changes no blob and counts one fetch |
| ObjStore.RemoteStore.StoreRemote | interfaces.ts:29-30 | storeRemote keeps the blob under the reference it returns and makes no fetch |
| ObjStore.CacheHit | obj-store.ts:26-30 | when getLocal succeeds, getOrFetch returns its object with no remote fetch and no local write |
| ObjStore.LocalErrorRethrown | obj-store.ts:31-35 | a local error other than NotFound is rethrown with no remote fetch and no local write |
| ObjStore.AbsentPayloadNotFound | obj-store.ts:38-41 | on a miss with no remote payload, getOrFetch raises NotFound after one fetch, the local store unchanged |
| ObjStore.MissWarmsWithCallerObject | obj-store.ts:38-50 | on a miss with a payload that opens, one fetch; the local store becomes what storeLocal(obj, {ptr: digest}) makes it, with the caller's obj; the decrypted object is returned unless that call failed, whose error propagates |
| ObjStore.SecondCallIsLocal | obj-store.ts:26-50 | when the caller's obj encodes to non-empty data hashing to the digest, a second getOrFetch after a successful miss is served locally, with no fetch and no write |
| ObjStore.CorrectedRefusesForeignPayload | obj-store.ts:44-49 | with the decrypted object stored and bytes compared, a payload that does not hash to the requested digest is refused with the digest-mismatch error and not cached |
| ObjStore.CorrectedWarmsCache | obj-store.ts:44-50 | with both corrections, a successful getOrFetch warms the cache when the requested digest is non-empty, the decrypted object encodes to non-empty data and its codec decodes that data back to it: a second call then makes no fetch and returns the same object |
| ObjStore.CorrectedEmptyEncodingRefetches | localdb/localdb.ts:42 | even with both corrections, a decrypted object that encodes to no bytes is stored as an empty value, which getLocal reports as NotFound, so the second call for a non-empty digest fetches again and returns the same object |
| ObjStore.ForeignObjectIsCachedInstead | obj-store.ts:46-50 | as written, on a miss for a digest of two or more bytes that the caller's obj does not hash to, the remote object is returned after one fetch, and the second call for the same digest fetches again and returns it again |
| ObjStore.TemplateIsCachedInstead | obj-store.ts:46-50 | for a one-byte toy codec and hash, a caller passing a fresh template gets the remote object, but the next call for the same digest fetches again |
| ObjStore.ObjectStore.constructor | obj-store.ts:11 | an ObjectStore over the given local and remote stores |
| ObjStore.ObjectStore.GetOrFetch | obj-store.ts:19-51 | the result, the local store and the number of remote fetches are those of the getOrFetch specification as written; no remote blob changes |
| ObjStore.ObjectStore.GetLocal | obj-store.ts:54-56 | forwards to the local store and returns its result unchanged |
| ObjStore.ObjectStore.StoreLocal | obj-store.ts:59-61 | forwards to the local store, with the same effect on the store and the pointer |
| ObjStore.ObjectStore.DigestData | obj-store.ts:65-67 | forwards to the local store's digestData |
| ObjStore.ObjectStore.FetchRemote | obj-store.ts:70-72 | forwards to the remote store: same blob, one fetch |
| ObjStore.ObjectStore.StoreRemote | obj-store.ts:75-77 | forwards to the remote store: same reference, blob kept |

## Left out

- Asynchrony, promise scheduling and the fetch coalescing that obj-store.ts:16 leaves as a TODO. Every call is modelled as completing before the next one starts.
- SHA-256, the multihash encoding and decoding, protobuf encoding, the object wrapper, secretbox encryption and snappy compression. They are external libraries and appear only as the function values `hash`, `Codec.encode`, `Codec.decode` and `open`. Encoding is taken to be total.
- The IPFS client (ipfs/ipfs-store.ts) is not part of this model. The remote tier is a map from storage reference to blob. An unknown reference yields a null payload. Transport failures and IPFS's own exceptions are not modelled; the code passes them through unchanged.
- The level store is not part of this model beyond `clearKeys` (level/level.ts:49-54). Its get, put and key stream are taken to behave like the in-memory dictionary, and `close` is left out.
- `storeObject`, `getOrFetchReference` and storage-reference validation are not part of this model. test/objstore.test.ts:68 calls `storeObject`, but no file of the repository defines either function.
- `wrapper.decodeToObject(obj, encConf)` (obj-store.ts:46) is taken to return a fresh object and to leave the caller's `obj` as it was. Its library is not part of this model. `open` therefore receives neither `obj` nor the configuration, and `getOrFetch` stores `obj` with the value it had on entry. If `decodeToObject` instead decoded into `obj` in place, line 49 would cache the decrypted content.
- getLocal's `obj` argument only selects the decoder. It is the type parameter `O` here, not an argument. `getOrFetch` keeps its `obj` argument, because it is stored.
- obj-store.ts:32 recognises a local miss with `e instanceof NotFoundError`. The model takes that test to hold for every NotFoundError that getLocal throws, which needs ES2015 class semantics. If `class NotFoundError extends Error` (interfaces.ts:34-38) were compiled to ES5 without a prototype fix, `instanceof` would be false, and every local miss would be rethrown instead of falling back to the remote store.
- A protobuf message whose fields all hold their defaults encodes to zero bytes. Such an object is never served from the cache, even with both corrections, because an empty value reads as NotFound (localdb/localdb.ts:42); ObjStore.CorrectedEmptyEncodingRefetches states this. An empty requested digest skips the digest check, so the data is cached under its own digest instead; CorrectedWarmsCache therefore requires a non-empty digest.
- obj-store.ts:28 checks `if (localObj)`. A decoded object is always truthy, so a successful getLocal is always returned.
- JavaScript object-key details of InmemDB: inherited keys, the `hasOwnProperty` check and key order. `listKeys` is specified as a set of keys without duplicates.
- Identity of arrays. The pointer written back by storeLocal and the values in the dictionaries are byte sequences, not shared `Uint8Array` objects, so aliasing between them is not modelled.
- LocalStore.BufLen: models the expected digest as a plain Uint8Array, whose string form is its comma-separated bytes. A Node `Buffer` is coerced through `Buffer.prototype.toString()`, its UTF-8 text, so a Buffer whose bytes spell a number ("12", "0x1f", "1e3") coerces to that number and any other coerces to 0. That coercion is not modelled; for such a Buffer the line-59 comparison can fail on a multi-byte digest.
- The remote fetch counter is ghost state that exists only to state how many fetches a call makes.

## Findings

| source | as written | input that shows it | evidently intended | confidence | as-written member | corrected member |
|---|---|---|---|---|---|---|
| localdb/localdb.ts:59 | `new ArrayBuffer(digest)` and `new ArrayBuffer(computedDigest)` coerce each array to a length. For a plain Uint8Array that is its only byte, or 0; for a Node Buffer it is the number its UTF-8 text spells, or 0 (see "## Left out"). Two zero-filled buffers are compared, so two plain Uint8Array digests of two or more bytes always compare equal | storeLocal with an expected 32-byte Uint8Array digest that is not the SHA-256 of the encoding succeeds and caches the data under the computed digest, not the expected one | compare the bytes of the two digests and throw on any difference, as interfaces.ts:18 describes | high; not executed | LocalStore.AsWrittenAcceptsWrongDigest | LocalStore.CorrectedStoreIsContentAddressed |
| obj-store.ts:49 | the cache is warmed with the caller's `obj` argument instead of the decrypted `objDecoded` | a caller passes a fresh template object, as test/objstore.test.ts:74-79 does. The remote object is returned, but the template's encoding is cached under the template's digest, so the next call for the same digest fetches again. This holds if `decodeToObject` (obj-store.ts:46) leaves `obj` unchanged, as "## Left out" assumes | store `objDecoded` under the requested digest, refusing a payload that does not hash to it | medium; not executed | ObjStore.ForeignObjectIsCachedInstead | ObjStore.CorrectedWarmsCache |
