// common/model/eggdb.go: the key-value store behind the sync log and the content index.
module EggDBs {
  import opened Lib
  import opened Order

  datatype Lookup<+V> = Found(value: V) | NotFound | EmptyKey

  class EggDB<V> {
    var Ldb: map<string, V>

    // Opening a store gives back what an earlier process left on disk.
    constructor (onDisk: map<string, V>)
      ensures Ldb == onDisk
    {
      Ldb := onDisk;
    }

    method Get(key: string) returns (r: Lookup<V>)
      ensures r.EmptyKey? <==> key == ""
      ensures key != "" ==> r == if key in Ldb then Found(Ldb[key]) else NotFound
    {
      if key == "" { return EmptyKey; }
      r := if key in Ldb then Found(Ldb[key]) else NotFound;
    }

    // The empty key is refused; any other key now maps to the value, and no other key changes.
    method Put(key: string, value: V) returns (ok: bool)
      modifies this
      ensures ok <==> key != ""
      ensures Ldb == if key == "" then old(Ldb) else old(Ldb)[key := value]
    {
      if key == "" { return false; }
      Ldb := Ldb[key := value];
      ok := true;
    }

    method Delete(keys: seq<string>)
      modifies this
      ensures Ldb == old(Ldb) - Elements(keys)
    {
      var i := 0;
      while i < |keys|
        invariant 0 <= i <= |keys|
        invariant Ldb == old(Ldb) - Elements(keys[..i])
      {
        Ldb := Ldb - {keys[i]};
        assert Elements(keys[..i + 1]) == Elements(keys[..i]) + {keys[i]};
        i := i + 1;
      }
      assert keys[..|keys|] == keys;
    }

    // The keys in the order an iterator visits them.
    method Keys() returns (keys: seq<string>)
      ensures keys == SortedSeq(Ldb.Keys)
    {
      hide SortStrings, SortedSeq;
      keys := [];
      var todo := Ldb.Keys;
      while todo != {}
        invariant todo <= Ldb.Keys
        invariant forall i, j :: 0 <= i < j < |keys| ==> keys[i] != keys[j]
        invariant Elements(keys) == Ldb.Keys - todo
        decreases todo
      {
        var k :| k in todo;
        assert k !in Elements(keys);
        ElementsSnoc(keys, k);
        keys := keys + [k];
        todo := todo - {k};
      }
      SortIsCanonical(keys, Ldb.Keys);
      keys := SortStrings(keys);
    }

    method IsExistKey(key: string) returns (r: bool)
      ensures r <==> key in Ldb
    {
      r := key in Ldb;
    }
  }
}
