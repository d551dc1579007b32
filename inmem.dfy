/** InmemDB: the in-memory IDb backend (inmem/inmem.ts). */
module Inmem {
  import opened Common
  import KeyValue

  class InmemDB {
    /** The dictionary object the class keeps in its private `db` field. */
    var db: map<string, Bytes>

    constructor ()
      ensures db == map[]
    {
      db := map[];
    }

    /**
     * getKey: the stored array when the key is present, null otherwise. A stored empty
     * array is returned as it is, because a Uint8Array is truthy.
     */
    method GetKey(key: string) returns (r: Option<Bytes>)
      ensures key in db ==> r == Some(db[key])
      ensures key !in db ==> r == None
      ensures r == KeyValue.GetKey(KeyValue.Inmem(db), key)
    {
      if key in db {
        r := Some(db[key]);
      } else {
        r := None;
      }
    }

    /** setKey: the key now holds val and every other key keeps its value. */
    method SetKey(key: string, val: Bytes)
      modifies this
      ensures db == old(db)[key := val]
      ensures KeyValue.Inmem(db) == KeyValue.SetKey(KeyValue.Inmem(old(db)), key, val)
    {
      db := db[key := val];
    }

    /**
     * listKeys: walks the dictionary's keys once, keeping those that start with a
     * non-empty prefix (every key when the prefix is empty).
     */
    method ListKeys(prefix: string) returns (result: seq<string>)
      ensures forall k :: k in result <==> k in db && (|prefix| == 0 || StartsWith(k, prefix))
      ensures (set k | k in result) == KeyValue.ListKeys(KeyValue.Inmem(db), prefix)
      ensures forall i, j :: 0 <= i < j < |result| ==> result[i] != result[j]
    {
      result := [];
      var rest := db.Keys;
      while rest != {}
        invariant rest <= db.Keys
        invariant forall k :: k in result <==>
          k in db && k !in rest && (|prefix| == 0 || StartsWith(k, prefix))
        invariant forall i, j :: 0 <= i < j < |result| ==> result[i] != result[j]
        decreases rest
      {
        var key :| key in rest;
        rest := rest - {key};
        if |prefix| > 0 && !StartsWith(key, prefix) {
          continue;
        }
        result := result + [key];
      }
    }
  }
}
