// svc/group.go: a group and the storage servers registered in it.
module Groups {
  import opened Lib
  import opened Order
  import opened Membership

  // Only Status is assigned after construction; a later report replaces the whole object.
  class StorageServer {
    const Group: string
    const HttpSchema: string
    const Addr: string
    const Free: nat
    const UpdateTime: int
    var Status: StorageStatus

    constructor (s: ServerState)
      ensures View() == s
    {
      Group, HttpSchema, Addr, Free := s.group, s.schema, s.addr, s.free;
      UpdateTime, Status := s.updateTime, s.status;
    }

    function View(): ServerState
      reads this
    {
      ServerState(Group, HttpSchema, Addr, Status, Free, UpdateTime)
    }
  }

  class Group {
    const Name: string
    var Status: GroupStatus
    var Cap: nat
    var Storages: map<string, StorageServer>
    // Readers currently holding g.mu; only GetGroupCap can leave without giving it back.
    var readers: nat
    // The storage objects this group owns, and what it holds, as a value.
    ghost var Repr: set<StorageServer>
    ghost var Model: Membership.Storages

    constructor (name: string, status: GroupStatus, cap: nat)
      ensures Name == name && Status == status && Cap == cap && Storages == map[]
      ensures Valid() && Repr == {} && Model.Keys == {}
    {
      Name, Status, Cap, Storages, readers := name, status, cap, map[], 0;
      Repr, Model := {}, map[];
    }

    // Every storage is filed under its own address and names this group.
    ghost predicate Filed()
      reads this`Storages, this`Repr
    {
      && (forall s :: s in Repr ==> s.Group == Name)
      && (forall a :: a in Storages ==> Storages[a].Addr == a && Storages[a] in Repr)
    }

    ghost predicate Owned()
      reads this`Storages, this`Repr, this`Model, Repr
    {
      && Filed()
      && Model.Keys == Storages.Keys
      && forall a :: a in Storages ==> Storages[a] in Repr && Storages[a].View() == Model[a]
    }

    ghost predicate Valid()
      reads this`Storages, this`Repr, this`Model, this`readers, Repr
    {
      Owned() && readers == 0
    }

    ghost function View(): GroupState
      reads this`Status, this`Cap, this`Model
    {
      GroupState(Name, Status, Cap, Model)
    }

    // The registered addresses in ascending order, collected from the objects in map order.
    method SortedAddrs() returns (keys: seq<string>)
      requires Valid()
      ensures keys == SortedSeq(Storages.Keys)
      ensures forall k :: k in keys ==> k in Storages
    {
      hide SortStrings, SortedSeq;
      keys := [];
      var todo := Storages.Keys;
      while todo != {}
        invariant todo <= Storages.Keys
        invariant forall i, j :: 0 <= i < j < |keys| ==> keys[i] != keys[j]
        invariant Elements(keys) == Storages.Keys - todo
        decreases todo
      {
        var k :| k in todo;
        assert k !in Elements(keys) && Storages[k].Addr == k;
        ghost var before := keys;
        keys := keys + [Storages[k].Addr];
        assert Elements(keys) == Elements(before) + {k};
        todo := todo - {k};
      }
      SortIsCanonical(keys, Storages.Keys);
      keys := SortStrings(keys);
      assert forall k :: k in keys ==> k in Elements(keys);
    }

    // The registered storages, strictly ascending by address, each once and none missing. Each
    // address read off an object is looked up again in the map, which is safe as they agree.
    method GetStorages() returns (servers: seq<StorageServer>)
      requires Valid()
      ensures Addrs(servers) == SortedSeq(Storages.Keys)
      ensures forall i :: 0 <= i < |servers| ==> servers[i].Addr in Storages && servers[i] == Storages[servers[i].Addr]
      ensures forall a :: a in Storages ==> Storages[a] in servers
      ensures forall i, j :: 0 <= i < j < |servers| ==> servers[i] != servers[j]
    {
      hide SortedSeq, StrictlySorted, Elements, Addrs;
      var keys := SortedAddrs();
      servers := [];
      var i := 0;
      while i < |keys|
        invariant 0 <= i <= |keys| && |servers| == i
        invariant forall j :: 0 <= j < i ==> keys[j] in Storages && servers[j] == Storages[keys[j]]
      {
        servers := servers + [Storages[keys[i]]];
        i := i + 1;
      }
      Listed(Storages, servers, keys);
    }

    method GetStorage(addr: string) returns (s: StorageServer?)
      ensures s == if addr in Storages then Storages[addr] else null
    {
      s := if addr in Storages then Storages[addr] else null;
    }

    // Takes one storage out of service.
    method SetOffline(s: StorageServer)
      requires Valid() && s.Addr in Storages && Storages[s.Addr] == s
      modifies s`Status, this`Model
      ensures Valid() && Model == old(Model)[s.Addr := old(Model)[s.Addr].(status := StorageOffline)]
    {
      s.Status := StorageOffline;
      Model := Model[s.Addr := s.View()];
    }

    // The object filed under an address, if any.
    ghost function Slot(addr: string): set<StorageServer>
      reads this`Storages
    {
      if addr in Storages then {Storages[addr]} else {}
    }

    // A newer object for an address replaces the one filed there, which the group lets go.
    method SaveOrUpdateStorage(s: StorageServer) returns (ok: bool)
      requires Valid() && s.Group == Name
      modifies this`Storages, this`Repr, this`Model
      ensures Valid() && Repr == if ok then old(Repr) - old(Slot(s.Addr)) + {s} else old(Repr)
      ensures ok <==> s.Addr != ""
      ensures Storages == if ok then old(Storages)[s.Addr := s] else old(Storages)
      ensures Model == if ok then old(Model)[s.Addr := s.View()] else old(Model)
    {
      if s.Addr == "" { return false; }
      Repr := Repr - Slot(s.Addr) + {s};
      Storages := Storages[s.Addr := s];
      Model := Model[s.Addr := s.View()];
      ok := true;
    }

    // The free space of every storage, in map order.
    method FreeSpaces() returns (caps: seq<nat>)
      requires Owned()
      ensures forall a :: a in Model ==> Model[a].free in caps
      ensures forall c :: c in caps ==> exists a :: a in Model && Model[a].free == c
    {
      caps := [];
      var todo := Storages.Keys;
      while todo != {}
        invariant todo <= Model.Keys
        invariant forall a :: a in Model.Keys - todo ==> Model[a].free in caps
        invariant forall c :: c in caps ==> exists a :: a in Model && Model[a].free == c
        decreases todo
      {
        var a :| a in todo;
        assert Storages[a].View() == Model[a];
        caps := caps + [Storages[a].Free];
        todo := todo - {a};
      }
    }

    // The least free space. An empty group answers 0 and keeps the read lock.
    method GetGroupCap() returns (cap: nat)
      requires Owned()
      modifies this`readers
      ensures Model.Keys == {} ==> cap == 0 && readers == old(readers) + 1
      ensures Model.Keys != {} ==> readers == old(readers) && IsMinFree(cap, Model)
    {
      readers := readers + 1;
      if |Storages| == 0 {
        assert Storages.Keys == {};
        return 0;
      }
      assert Storages.Keys != {};
      var caps := FreeSpaces();
      readers := readers - 1;
      LeastIsMin(caps, Model);
      cap := SortSlice(caps, ASCENDING)[0];
    }

    // The end of one group's sweep: status and capacity follow from whether a storage is usable.
    method SetStatus(usable: bool)
      requires Valid() && (usable <==> HasActive(Model))
      modifies this`Status, this`Cap, this`readers
      ensures Valid() && View() == Summary(Name, Model)
    {
      if !usable {
        Status, Cap := GroupUnavailable, 0;
      } else {
        assert Model.Keys != {};
        var cap := GetGroupCap();
        Status, Cap := GroupActive, cap;
      }
    }
  }

  lemma Listed(m: map<string, StorageServer>, servers: seq<StorageServer>, keys: seq<string>)
    requires forall a :: a in m ==> m[a].Addr == a
    requires keys == SortedSeq(m.Keys) && |servers| == |keys|
    requires forall j :: 0 <= j < |keys| ==> keys[j] in m && servers[j] == m[keys[j]]
    ensures Addrs(servers) == keys
    ensures forall a :: a in m ==> m[a] in servers
    ensures forall i, j :: 0 <= i < j < |servers| ==> servers[i] != servers[j]
  {
    AddrsAre(servers, keys);
    StrictlySortedAll(keys);
    forall a | a in m ensures m[a] in servers {
      assert a in Elements(keys);
      var j :| 0 <= j < |keys| && keys[j] == a;
      assert servers[j] == m[a];
    }
  }

  function Addrs(servers: seq<StorageServer>): seq<string> {
    if servers == [] then [] else Addrs(servers[..|servers| - 1]) + [servers[|servers| - 1].Addr]
  }

  lemma {:induction false} AddrsAre(servers: seq<StorageServer>, keys: seq<string>)
    requires |servers| == |keys| && forall i :: 0 <= i < |keys| ==> servers[i].Addr == keys[i]
    ensures Addrs(servers) == keys
  {
    if servers != [] {
      AddrsAre(servers[..|servers| - 1], keys[..|keys| - 1]);
      assert keys == keys[..|keys| - 1] + [keys[|keys| - 1]];
    }
  }

  const ASCENDING: (nat, nat) -> bool := (x: nat, y: nat) => x < y

  // The first free space in ascending order is the least.
  lemma LeastIsMin(caps: seq<nat>, m: Membership.Storages)
    requires m.Keys != {}
    requires forall a :: a in m ==> m[a].free in caps
    requires forall c :: c in caps ==> exists a :: a in m && m[a].free == c
    ensures caps != [] && WeakOrder(ASCENDING) && IsMinFree(SortSlice(caps, ASCENDING)[0], m)
  {
    var first :| first in m;
    assert m[first].free in caps;
    var sorted := SortSlice(caps, ASCENDING);
    SortedElements(caps, ASCENDING);
    assert sorted[0] in sorted;
    forall a | a in m ensures sorted[0] <= m[a].free {
      assert m[a].free in sorted;
      var j :| 0 <= j < |sorted| && sorted[j] == m[a].free;
    }
  }
}
