/**
 * The IDb key/value interface (db/interfaces.ts:1-11) and the backends that implement it,
 * as values: an in-memory dictionary (inmem/inmem.ts), the level store (level/level.ts),
 * whose only role here is to be the backend that has clearKeys, and a chain of
 * Prefixer decorators over either (prefixer/prefixer.ts).
 *
 * The `Db` datatype stands in for the IDb interface, which has several implementations
 * and a decorator that wraps any of them; Dafny traits are not used here, so the
 * implementations are the constructors of one datatype and each IDb operation dispatches
 * on them. The Prefixer's own getKey, setKey and listKeys are therefore the `Prefixer`
 * cases of the functions below, and the module Prefixing states what they guarantee.
 * The `Inmem` case is the value view of the dictionary that the InmemDB class (module
 * Inmem) updates in place; that class's methods are proved to agree with it.
 */
module KeyValue {
  import opened Common

  datatype Db =
    | Inmem(entries: map<string, Bytes>)
    | Level(entries: map<string, Bytes>)
    | Prefixer(inner: Db, prefix: string)

  /** The dictionary a chain of decorators finally reads and writes. */
  function Backing(d: Db): map<string, Bytes>
  {
    match d
    case Inmem(m) => m
    case Level(m) => m
    case Prefixer(inner, _) => Backing(inner)
  }

  /** The prefixes of a chain concatenated, innermost first. */
  function FullPrefix(d: Db): string
  {
    match d
    case Prefixer(inner, p) => FullPrefix(inner) + p
    case _ => ""
  }

  /** A dictionary lookup that gives null for a missing key. */
  function Lookup(m: map<string, Bytes>, key: string): Option<Bytes>
  {
    if key in m then Some(m[key]) else None
  }

  /**
   * getKey. Through any chain of decorators it reads the backing dictionary at the
   * chain's prefixes followed by the key, and gives null when that entry is absent.
   */
  function GetKey(d: Db, key: string): (r: Option<Bytes>)
    ensures r == Lookup(Backing(d), FullPrefix(d) + key)
  {
    match d
    case Inmem(m) => assert FullPrefix(d) + key == key; Lookup(m, key)
    case Level(m) => assert FullPrefix(d) + key == key; Lookup(m, key)
    case Prefixer(inner, p) =>
      assert FullPrefix(inner) + (p + key) == FullPrefix(d) + key;
      GetKey(inner, p + key)
  }

  /**
   * setKey. Through any chain it writes exactly the backing entry at the chain's
   * prefixes followed by the key, and keeps the chain's prefixes.
   */
  function SetKey(d: Db, key: string, val: Bytes): (r: Db)
    ensures FullPrefix(r) == FullPrefix(d)
    ensures Backing(r) == Backing(d)[FullPrefix(d) + key := val]
  {
    match d
    case Inmem(m) => assert FullPrefix(d) + key == key; Inmem(m[key := val])
    case Level(m) => assert FullPrefix(d) + key == key; Level(m[key := val])
    case Prefixer(inner, p) =>
      assert FullPrefix(inner) + (p + key) == FullPrefix(d) + key;
      Prefixer(SetKey(inner, p + key, val), p)
  }

  /** The keys of a dictionary that listKeys reports: all of them for an empty prefix. */
  function Filter(m: map<string, Bytes>, prefix: string): set<string>
  {
    if |prefix| > 0 then set k | k in m && StartsWith(k, prefix) else m.Keys
  }

  /** Every string starts with the empty prefix. */
  lemma EmptyPrefix()
    ensures forall k: string :: StartsWith(k, "")
  {
    forall k: string ensures StartsWith(k, "") {
      assert k[..0] == "";
    }
  }

  /**
   * listKeys, as a set (the order of the returned array is unspecified). Through any
   * chain it is every backing key that starts with the chain's prefixes followed by the
   * requested prefix; the keys are reported as stored, prefixes included.
   */
  function ListKeys(d: Db, prefix: string): (r: set<string>)
    ensures r == set k | k in Backing(d) && StartsWith(k, FullPrefix(d) + prefix)
  {
    match d
    case Inmem(m) => EmptyPrefix(); assert FullPrefix(d) + prefix == prefix; Filter(m, prefix)
    case Level(m) => EmptyPrefix(); assert FullPrefix(d) + prefix == prefix; Filter(m, prefix)
    case Prefixer(inner, p) =>
      assert FullPrefix(inner) + (p + prefix) == FullPrefix(d) + prefix;
      ListKeys(inner, p + prefix)
  }

  /**
   * clearKeys. Only the level store defines it (it deletes every key it lists);
   * neither InmemDB nor Prefixer has the method, so calling it on them fails.
   */
  function ClearKeys(d: Db): (r: Result<Db>)
    ensures r.Success? <==> d.Level?
    ensures r.Success? ==> Backing(r.value) == map[] && ListKeys(r.value, "") == {}
    ensures r.Failure? ==> r.error == NoClearKeys
  {
    match d
    case Level(_) => Success(Level(map[]))
    case _ => Failure(NoClearKeys)
  }

  lemma ConcatInjective(a: string, x: string, y: string)
    ensures a + x == a + y ==> x == y
  {
    if a + x == a + y {
      assert x == (a + x)[|a|..];
      assert y == (a + y)[|a|..];
    }
  }

  /** Put-get: a key reads back the value just written to it. */
  lemma GetAfterSet(d: Db, key: string, val: Bytes)
    ensures GetKey(SetKey(d, key, val), key) == Some(val)
  {
  }

  /** setKey leaves every other key's value as it was. */
  lemma GetOtherAfterSet(d: Db, key: string, val: Bytes, other: string)
    requires other != key
    ensures GetKey(SetKey(d, key, val), other) == GetKey(d, other)
  {
    ConcatInjective(FullPrefix(d), key, other);
  }
}
