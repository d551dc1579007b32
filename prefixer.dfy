/** What the Prefixer decorator guarantees (prefixer/prefixer.ts). */
module Prefixing {
  import opened Common
  import opened KeyValue

  /**
   * setKey through a Prefixer writes only the inner key prefix + k; in particular an
   * inner key that does not start with the prefix is never touched.
   */
  lemma SetTouchesOnlyPrefixedKey(d: Db, p: string, k: string, v: Bytes)
    ensures SetKey(Prefixer(d, p), k, v) == Prefixer(SetKey(d, p + k, v), p)
    ensures GetKey(SetKey(d, p + k, v), p + k) == Some(v)
    ensures forall j :: j != p + k ==> GetKey(SetKey(d, p + k, v), j) == GetKey(d, j)
    ensures forall j :: !StartsWith(j, p) ==> GetKey(SetKey(d, p + k, v), j) == GetKey(d, j)
  {
    GetAfterSet(d, p + k, v);
    forall j | j != p + k
      ensures GetKey(SetKey(d, p + k, v), j) == GetKey(d, j)
    {
      GetOtherAfterSet(d, p + k, v, j);
    }
    assert StartsWith(p + k, p) by { assert (p + k)[..|p|] == p; }
  }

  /** Put-get through a Prefixer, which holds because it holds for the inner store. */
  lemma PutGet(d: Db, p: string, k: string, v: Bytes)
    ensures GetKey(SetKey(Prefixer(d, p), k, v), k) == Some(v)
  {
    GetAfterSet(d, p + k, v);
  }

  /**
   * listKeys through a Prefixer asks the inner store for prefix + q and passes its answer
   * on unchanged: the keys are backing keys that still carry the prefix.
   */
  lemma ListedKeysKeepPrefix(d: Db, p: string, q: string)
    ensures ListKeys(Prefixer(d, p), q) == ListKeys(d, p + q)
    ensures forall k :: k in ListKeys(Prefixer(d, p), q) <==>
      k in Backing(d) && StartsWith(k, FullPrefix(d) + p + q)
  {
  }

  /** A Prefixer over a plain store returns keys that start with its own prefix + q. */
  lemma ListedKeysStartWithPrefix(d: Db, p: string, q: string)
    requires !d.Prefixer?
    ensures forall k :: k in ListKeys(Prefixer(d, p), q) ==> StartsWith(k, p + q) && k in d.entries
  {
    ListedKeysKeepPrefix(d, p, q);
    assert FullPrefix(d) + p + q == p + q;
  }

  /** Prefixer(Prefixer(d, a), b) behaves on get, set and list like Prefixer(d, a + b). */
  lemma NestedPrefixers(d: Db, a: string, b: string, k: string, v: Bytes, q: string)
    ensures GetKey(Prefixer(Prefixer(d, a), b), k) == GetKey(Prefixer(d, a + b), k)
    ensures Backing(SetKey(Prefixer(Prefixer(d, a), b), k, v))
         == Backing(SetKey(Prefixer(d, a + b), k, v))
    ensures ListKeys(Prefixer(Prefixer(d, a), b), q) == ListKeys(Prefixer(d, a + b), q)
  {
    assert a + (b + k) == (a + b) + k;
    assert a + (b + q) == (a + b) + q;
  }
}
