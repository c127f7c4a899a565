// svc/tracker.go and svc/tracker_proxy.go: the tracker service, step by step, proved to perform
// the steps of Membership, the choices of Routing and the attempts of Replication.
module Trackers {
  import opened Lib
  import opened Order
  import opened Names
  import opened EggDBs
  import opened Membership
  import opened Routing
  import opened Groups
  import opened Nodes
  import opened Replication

  // The nodes behind the network, reached by address.
  class Net {
    const md5: Digest
    var nodes: NodeMap

    constructor (md5: Digest, nodes: NodeMap)
      ensures this.md5 == md5 && this.nodes == nodes
    {
      this.md5, this.nodes := md5, nodes;
    }

    // None stands for an error or an empty answer.
    method HttpPost(sync: SyncFileInfo, fate: PostFate) returns (resp: Option<nat>)
      modifies this
      ensures (nodes, resp) == Post(md5, old(nodes), sync, fate)
    {
      var (n, r) := Post(md5, nodes, sync, fate);
      nodes, resp := n, r;
    }

    // A proxied upload.
    method Proxy(addr: string, req: UploadRequest, env: UploadEnv, fate: ProxyFate) returns (r: ProxyResult)
      modifies this
      ensures (nodes, r) == ProxyUpload(md5, old(nodes), addr, req, env, fate)
    {
      var (n, res) := ProxyUpload(md5, nodes, addr, req, env, fate);
      nodes, r := n, res;
    }
  }

  // What happens to a proxied upload: the storage is not reached; it handles the request but its
  // answer is lost; the answer breaks off while it is passed on; or it comes through.
  datatype ProxyFate = Unreached | AnswerLost | AnswerBroken | AnswerPassed

  // What the proxy makes of it: the error callback fires, the handler is torn down, or the answer.
  datatype ProxyResult = Failed | Torn | Passed(result: UploadResult)

  function ProxyUpload(md5: Digest, nodes: NodeMap, addr: string, req: UploadRequest, env: UploadEnv, fate: ProxyFate)
    : (NodeMap, ProxyResult)
  {
    if fate.Unreached? || addr !in nodes then (nodes, Failed)
    else
      var (n, r) := Upload(md5, nodes[addr], req, env);
      (nodes[addr := n], if fate.AnswerLost? then Failed else if fate.AnswerBroken? then Torn else Passed(r))
  }

  // A sync the tracker has started in the background: the captured storage and its message.
  datatype Sync = Sync(to: StorageServer, info: SyncFileInfo)

  function Infos(syncs: seq<Sync>): seq<SyncFileInfo> {
    if syncs == [] then [] else Infos(syncs[..|syncs| - 1]) + [syncs[|syncs| - 1].info]
  }

  datatype UploadAnswer = NoStorage | BadGateway | NoAnswer | Proxied(result: UploadResult)

  class Tracker {
    var groups: map<string, Group>
    const syncDB: EggDB<SyncFileInfo>
    const hash: string -> nat
    // Whether the report lock is held.
    var locked: bool
    // The objects the tracker owns, and the registry as a value.
    ghost var Groups: set<Group>
    ghost var Servers: set<StorageServer>
    ghost var State: TrackerState

    constructor (hash: string -> nat, errLog: Log)
      ensures Valid() && State == map[] && !locked && fresh(syncDB) && syncDB.Ldb == errLog && this.hash == hash
      ensures Groups == {} && Servers == {}
    {
      groups, locked, this.hash := map[], false, hash;
      Groups, Servers, State := {}, {}, map[];
      syncDB := new EggDB(errLog);
    }

    // Each group is filed under its own name (see SlotsApart).
    ghost predicate Valid()
      reads this`groups, this`Groups, this`Servers, this`State, Groups, Servers
    {
      && State.Keys == groups.Keys
      && forall n :: n in groups ==> GroupOk(n)
    }

    ghost predicate GroupOk(n: string)
      requires n in groups && n in State
      reads this`groups, this`Groups, this`Servers, this`State, Groups, Servers
    {
      var g := groups[n];
      && g in Groups && g.Name == n && g.Repr <= Servers
      && g.Valid() && g.View() == State[n]
    }

    // The object filed in a slot, if any.
    ghost function Slot(group: string, addr: string): set<StorageServer>
      reads this`groups, groups.Values
    {
      if group in groups then groups[group].Slot(addr) else {}
    }

    method GetGroup(name: string) returns (g: Group?)
      ensures g == if name in groups then groups[name] else null
    {
      g := if name in groups then groups[name] else null;
    }

    method IsExistGroup(name: string) returns (ok: bool)
      ensures ok <==> name in groups
    {
      ok := name in groups;
    }

    // A group that is already registered is kept.
    method RegisterGroup(g: Group) returns (ok: bool)
      requires Valid() && g.Valid()
      modifies this`groups, this`Groups, this`Servers, this`State
      ensures Valid() && (ok <==> g.Name != "")
      ensures groups == if ok && g.Name !in old(groups) then old(groups)[g.Name := g] else old(groups)
      ensures State == if ok && g.Name !in old(groups) then old(State)[g.Name := g.View()] else old(State)
      ensures Groups == if ok && g.Name !in old(groups) then old(Groups) + {g} else old(Groups)
      ensures Servers == if ok && g.Name !in old(groups) then old(Servers) + g.Repr else old(Servers)
    {
      hide Group.Valid, Group.View;
      if g.Name == "" { return false; }
      ok := true;
      if g.Name !in groups {
        groups := groups[g.Name := g];
        Groups, Servers, State := Groups + {g}, Servers + g.Repr, State[g.Name := g.View()];
        OnlyGroup(this, g.Name);
      }
    }

    // All groups in map order; `names` says under which name each is filed.
    method GetGroups() returns (gs: seq<Group>, ghost names: seq<string>)
      ensures |gs| == |names| && Elements(names) == groups.Keys
      ensures forall i :: 0 <= i < |gs| ==> names[i] in groups && gs[i] == groups[names[i]]
    {
      gs, names := [], [];
      var todo := groups.Keys;
      while todo != {}
        invariant todo <= groups.Keys
        invariant |gs| == |names| && Elements(names) == groups.Keys - todo
        invariant forall i :: 0 <= i < |gs| ==> names[i] in groups && gs[i] == groups[names[i]]
        decreases todo
      {
        var n :| n in todo;
        ElementsSnoc(names, n);
        gs, names := gs + [groups[n]], names + [n];
        todo := todo - {n};
      }
    }

    // The inner loop of the sweep: marks the storages that timed out and lists the usable ones.
    method MarkTimeouts(storages: seq<StorageServer>, now: int, ghost before: Membership.Storages)
      returns (vs: seq<StorageServer>)
      requires forall i, j :: 0 <= i < j < |storages| ==> storages[i] != storages[j]
      requires forall j :: 0 <= j < |storages| ==>
        storages[j].Addr in before && storages[j].View() == before[storages[j].Addr]
      modifies storages`Status
      ensures forall j :: 0 <= j < |storages| ==> storages[j].View() == SweepServer(before[storages[j].Addr], now)
      ensures |vs| > 0 <==> AnyActive(storages)
    {
      vs := [];
      var i := 0;
      while i < |storages|
        invariant 0 <= i <= |storages|
        invariant forall j :: 0 <= j < i ==> storages[j].View() == SweepServer(before[storages[j].Addr], now)
        invariant forall j :: i <= j < |storages| ==> storages[j].View() == before[storages[j].Addr]
        invariant |vs| > 0 <==> exists j :: 0 <= j < i && storages[j].Status == StorageActive
      {
        var s := storages[i];
        if s.Status == StorageActive {
          if now - s.UpdateTime > REPORT_TIMEOUT {
            s.Status := StorageOffline;
          } else {
            vs := vs + [s];
          }
        }
        i := i + 1;
      }
    }

    method MarkGroup(group: Group, now: int) returns (usable: bool)
      requires group.Valid()
      modifies group.Repr`Status, group`Model
      ensures group.Valid()
      ensures group.Model == SweepStorages(old(group.Model), now)
      ensures usable <==> HasActive(group.Model)
    {
      hide SortedSeq, Addrs, SweepStorages, SweepServer, HasActive, AnyActive, Group.Filed, Group.Owned,
        StorageServer.View;
      ghost var before, filed := group.Model, group.Storages;
      var storages := group.GetStorages();
      ListedViews(group, storages);
      group.Model := SweepStorages(before, now);
      var vs := MarkTimeouts(storages, now, before);
      usable := |vs| > 0;
      Gathered(group, filed, storages, before, now);
    }

    // The body of the outer loop: one group's part of the sweep.
    method SweepOne(group: Group, now: int)
      requires group.Valid()
      modifies group`Status, group`Cap, group`readers, group`Model, group.Repr`Status
      ensures group.Valid() && group.View() == SweepGroup(old(group.View()), now)
    {
      var usable := MarkGroup(group, now);
      group.SetStatus(usable);
    }

    // Sweeps one registered group; the others keep their state, since they own other objects.
    method SweepRegistered(group: Group, now: int)
      requires Valid() && group.Name in groups && groups[group.Name] == group
      modifies group`Status, group`Cap, group`readers, group`Model, group.Repr`Status, this`State
      ensures Valid() && State == old(State)[group.Name := SweepGroup(old(State)[group.Name], now)]
    {
      hide SweepGroup, Group.Owned, Tracker.Valid;
      InOrder(this, group);
      Apart(this, group);
      SweepOne(group, now);
      State := State[group.Name := group.View()];
      OnlyGroup(this, group.Name);
    }

    method SetTrackerStatus(now: int)
      requires Valid()
      modifies Groups`Status, Groups`Cap, Groups`readers, Groups`Model, Servers`Status, this`State
      ensures Valid() && State == Sweep(old(State), now)
    {
      ghost var before := State;
      var gs, names := GetGroups();
      SweptNone(before, now);
      var i := 0;
      while i < |gs|
        invariant 0 <= i <= |gs| && Valid() && State == SweepSome(before, Elements(names[..i]), now)
      {
        assert GroupOk(names[i]);
        SweepRegistered(gs[i], now);
        SweepOneMore(before, Elements(names[..i]), names[i], now);
        ElementsTake(names, i);
        i := i + 1;
      }
      assert names[..i] == names;
      SweptAll(before, Elements(names), now);
    }

    // A first report from a group: the group is created with its storage in it.
    method NewGroup(sm: StorageServer) returns (group: Group)
      requires sm.Addr != ""
      ensures fresh(group) && group.Name == sm.Group && group.Repr == {sm}
      ensures group.Valid() && group.View() == Opened(sm.View()) && group.Slot(sm.Addr) == {sm}
    {
      group := new Group(sm.Group, GroupActive, sm.Free);
      var _ := group.SaveOrUpdateStorage(sm);
      assert sm.Addr in group.Storages;
    }

    // A report from a registered group: the object replaces the one filed under its address.
    method SaveInto(group: Group, sm: StorageServer) returns (ok: bool)
      requires Valid() && group.Name in groups && groups[group.Name] == group
      requires sm.Group == group.Name && sm.Addr != ""
      modifies this`Servers, this`State, group`Storages, group`Repr, group`Model
      ensures ok && Valid() && State == Save(old(State), sm.View())
      ensures Servers == old(Servers) - old(group.Slot(sm.Addr)) + {sm}
    {
      hide Group.Owned, Group.Filed, SortedSeq, Tracker.Valid;
      InOrder(this, group);
      Apart(this, group);
      ghost var gone := group.Slot(sm.Addr);
      SlotInRepr(group, sm.Addr);
      ok := group.SaveOrUpdateStorage(sm);
      Servers := Servers - gone + {sm};
      State := State[group.Name := group.View()];
      OnlyGroup(this, group.Name);
    }

    // Registers the group of a first report.
    method OpenGroup(sm: StorageServer)
      requires Valid() && sm.Group !in groups && sm.Group != "" && sm.Addr != ""
      modifies this`groups, this`Groups, this`Servers, this`State
      ensures Valid() && State == old(State)[sm.Group := Opened(sm.View())]
      ensures Servers == old(Servers) + {sm} && fresh(Groups - old(Groups)) && Slot(sm.Group, sm.Addr) == {sm}
    {
      var created := NewGroup(sm);
      var _ := RegisterGroup(created);
    }

    // Files a storage under its group, registering the group first if it is new. The two
    // failures the code checks for cannot happen: `ok` always holds.
    method SaveStorage(sm: StorageServer) returns (ok: bool)
      requires Valid() && sm.Group != "" && sm.Addr != ""
      modifies this`groups, this`Groups, this`Servers, this`State, Groups`Storages, Groups`Repr, Groups`Model
      ensures ok && Valid() && State == Save(old(State), sm.View())
      ensures Servers == old(Servers) - old(Slot(sm.Group, sm.Addr)) + {sm} && fresh(Groups - old(Groups))
    {
      hide Group.Owned, Group.Slot, Save, Tracker.Valid;
      KeysAgree(this);
      ghost var before := State;
      var known := IsExistGroup(sm.Group);
      if !known {
        OpenGroup(sm);
        SaveOpened(before, sm.View());
      }
      var group := GetGroup(sm.Group);
      if group == null { return false; }
      GroupAt(this, sm.Group);
      ok := SaveInto(group, sm);
    }

    // One status report: stamped at `time`, its sweep at `now`. The report lock is free again
    // afterwards in every case. The object it replaces is let go and keeps its last status, for
    // the syncs that still hold it.
    method StorageStatusReport(r: StatusReport, time: int, now: int)
      requires Valid() && !locked
      modifies this`groups, this`Groups, this`Servers, this`State, this`locked, Groups, Servers`Status
      ensures Valid() && State == ReportStep(old(State), r, time, now)
      ensures !locked && fresh(Groups - old(Groups)) && fresh(Servers - old(Servers))
      ensures Accepted(r) ==> Servers !! old(Slot(r.group, AddrOf(r)))
      ensures forall s :: s in old(Servers) && s !in Servers ==> s.Status == old(s.Status)
    {
      hide Tracker.Valid, Sweep, Save;
      if r.port == "" || r.host == "" { return; }
      if r.group == "" { return; }
      var sm := new StorageServer(Reported(r, time));
      locked := true;
      var ok := Refresh(sm, now);
      if !ok { return; }
      locked := false;
    }

    // The part of a report that runs under the lock; `ok` is false where the code returns early.
    method Refresh(sm: StorageServer, now: int) returns (ok: bool)
      requires Valid() && sm.Group != "" && sm.Addr != ""
      modifies this`groups, this`Groups, this`Servers, this`State, Groups, Servers`Status, sm`Status
      ensures ok && Valid() && State == Sweep(Save(old(State), old(sm.View())), now)
      ensures Servers == old(Servers) - old(Slot(sm.Group, sm.Addr)) + {sm} && fresh(Groups - old(Groups))
      ensures forall s :: s in old(Servers) && s !in Servers ==> s.Status == old(s.Status)
    {
      ok := SaveStorage(sm);
      if ok { SetTrackerStatus(now); }
    }

    // The callback of a failed proxy: the storage it was handed goes offline.
    method AbortErrorHandler(group: string, addr: string)
      requires Valid() && Registered(State, group, addr)
      modifies Servers`Status, Groups`Model, this`State
      ensures Valid() && State == AbortStep(old(State), group, addr)
    {
      assert GroupOk(group);
      var g := GetGroup(group);
      var s := g.GetStorage(addr);
      assert g.Name == group && s.Addr == addr;
      TakeOffline(g, s);
    }

    method TakeOffline(g: Group, s: StorageServer)
      requires Valid() && g.Name in groups && groups[g.Name] == g
      requires s.Addr in g.Storages && g.Storages[s.Addr] == s
      modifies s`Status, g`Model, this`State
      ensures Valid() && State == AbortStep(old(State), g.Name, s.Addr)
    {
      hide Group.Owned, Tracker.Valid;
      InOrder(this, g);
      InRepr(g, s.Addr);
      Apart(this, g);
      g.SetOffline(s);
      State := State[g.Name := g.View()];
      OnlyGroup(this, g.Name);
    }

    // The storage that serves a client, or null without an Active one.
    method SelectStorageIPHash(ip: string, g: Group) returns (s: StorageServer?)
      requires g.Valid()
      ensures s == null <==> Select(g.Model, hash(ip)).None?
      ensures s != null ==> s.Addr in g.Storages && s == g.Storages[s.Addr] && Select(g.Model, hash(ip)) == Some(s.Addr)
    {
      hide SortedSeq, Addrs, FilterActive, Select;
      var storages := g.GetStorages();
      var usable := ActiveOnly(storages, g.Model);
      FilterIsActive(g.Model);
      SelectIs(g.Model, Addrs(usable), hash(ip));
      AddrsLength(usable);
      if |usable| == 0 {
        return null;
      }
      s := usable[hash(ip) % |usable|];
      assert s in usable;
      ghost var j :| 0 <= j < |storages| && storages[j] == s;
      AddrAt(usable, hash(ip) % |usable|);
    }

    method ActiveOnly(storages: seq<StorageServer>, ghost m: Membership.Storages) returns (usable: seq<StorageServer>)
      requires forall i :: 0 <= i < |storages| ==> storages[i].Addr in m && storages[i].View() == m[storages[i].Addr]
      ensures Addrs(usable) == FilterActive(m, Addrs(storages))
      ensures forall s :: s in usable ==> s in storages
    {
      usable := [];
      var i := 0;
      while i < |storages|
        invariant 0 <= i <= |storages|
        invariant Addrs(usable) == FilterActive(m, Addrs(storages[..i]))
        invariant forall s :: s in usable ==> s in storages
      {
        var s := storages[i];
        assert storages[..i + 1][..i] == storages[..i];
        assert Addrs(storages[..i + 1]) == Addrs(storages[..i]) + [s.Addr];
        if s.Status == StorageActive {
          assert (usable + [s])[..|usable|] == usable;
          usable := usable + [s];
        }
        i := i + 1;
      }
      assert storages[..i] == storages;
    }

    // The group for an upload: null without an Active group, otherwise some group the sort as
    // written may put first.
    method SelectGroupForUpload() returns (g: Group?)
      requires Valid()
      ensures g == null <==> ActiveGroups(State) == {}
      ensures g != null ==> g.Name in groups && groups[g.Name] == g && MayChoose(State, AS_WRITTEN, g.Name)
    {
      var gs := ListActive();
      if |gs| == 0 { return null; }
      var less := ((x: (string, nat), y: (string, nat)) => x.1 > x.1);
      SortedListing(State, gs, AS_WRITTEN, less);
      var n := SortSlice(gs, less)[0].0;
      AsWrittenMayChooseAnyActive(State, n);
      assert GroupOk(n);
      g := groups[n];
    }

    // The Active groups in map order, each with its capacity.
    method ListActive() returns (gs: seq<(string, nat)>)
      requires Valid()
      ensures Distinct(gs) && (gs == [] <==> ActiveGroups(State) == {})
      ensures forall x :: x in gs <==> x.0 in ActiveGroups(State) && x.1 == State[x.0].cap
    {
      gs := [];
      var todo := groups.Keys;
      while todo != {}
        invariant todo <= groups.Keys && Distinct(gs)
        invariant forall x :: x in gs <==> x.0 in ActiveGroups(State) && x.0 !in todo && x.1 == State[x.0].cap
        decreases todo
      {
        var n :| n in todo;
        assert GroupOk(n);
        if groups[n].Status == GroupActive { gs := gs + [(n, groups[n].Cap)]; }
        todo := todo - {n};
      }
      if gs != [] { assert gs[0] in gs; }
      if n :| n in ActiveGroups(State) { assert (n, State[n].cap) in gs; }
    }

    // --- Replication ---

    // One background sync of an upload: logged without a POST unless the captured storage is Active.
    method SyncFile(sm: StorageServer, sync: SyncFileInfo, net: Net, fate: PostFate)
      modifies net, syncDB
      ensures (net.nodes, syncDB.Ldb) ==
        Attempt(net.md5, sm.Status == StorageActive, old(net.nodes), old(syncDB.Ldb), sync, fate)
    {
      var key := sync.fileName + "@" + sync.action;
      assert key == KeyOf(sync);
      if sm.Status != StorageActive {
        var _ := syncDB.Put(key, sync);
        return;
      }
      var resp := net.HttpPost(sync, fate);
      if resp.None? || resp.value != SUCCESS {
        var _ := syncDB.Put(key, sync);
      }
    }

    // One background sync of a delete: only an Offline storage is skipped.
    method SyncDelete(sm: StorageServer, sync: SyncFileInfo, net: Net, fate: PostFate)
      requires sync.action == SYNC_DELETE
      modifies net, syncDB
      ensures (net.nodes, syncDB.Ldb) ==
        Attempt(net.md5, sm.Status != StorageOffline, old(net.nodes), old(syncDB.Ldb), sync, fate)
    {
      if sm.Status == StorageOffline {
        var _ := syncDB.Put(sync.fileName + "@" + SYNC_DELETE, sync);
        return;
      }
      var resp := net.HttpPost(sync, fate);
      if resp != Some(SUCCESS) {
        var _ := syncDB.Put(sync.fileName + "@" + SYNC_DELETE, sync);
      }
    }

    // The fan-out loop over a group: one background sync per registered storage addressed.
    method Spawn(group: Group, make: Maker) returns (syncs: seq<Sync>)
      requires group.Valid()
      ensures Infos(syncs) == FanOut(group.Model, make)
    {
      hide SortedSeq, Infos, Addrs, Messages, StrictlySorted, Elements, Group.Owned;
      var storages := group.GetStorages();
      ghost var addrs := SortedSeq(group.Storages.Keys);
      InModel(group, storages);
      syncs := [];
      InfosEmpty();
      MessagesEmpty(group.Model, make);
      var i := 0;
      while i < |storages|
        invariant 0 <= i <= |storages| == |addrs|
        invariant Infos(syncs) == Messages(group.Model, addrs[..i], make)
      {
        var server := storages[i];
        MessagesSnoc(group.Model, addrs, i, make);
        var msg := make(server.View());
        if msg.Some? {
          InfosSnoc(syncs, Sync(server, msg.value));
          syncs := syncs + [Sync(server, msg.value)];
        }
        i := i + 1;
      }
      assert addrs[..i] == addrs;
    }

    // Choosing a group and then a storage of it; both null when there is none.
    method Route(ip: string) returns (group: Group?, s: StorageServer?)
      requires Valid()
      ensures group == null <==> s == null
      ensures s == null ==> Unroutable(State, hash(ip))
      ensures s != null ==> group.Name in groups && groups[group.Name] == group
      ensures s != null ==> s.Addr in group.Storages && group.Storages[s.Addr] == s
      ensures s != null ==> Routed(State, hash(ip), group.Name, s.Addr)
    {
      hide SortedSeq, MayChoose, Select, ActiveGroups, Group.Owned;
      group, s := null, null;
      var g := SelectGroupForUpload();
      if g == null { return; }
      InState(this, g);
      var chosen := SelectStorageIPHash(ip, g);
      AsWrittenMayChooseAnyActive(State, g.Name);
      assert Chosen(State, g.Name);
      if chosen == null { return; }
      InRepr(g, chosen.Addr);
      group, s := g, chosen;
    }

    // After a proxied upload: a fresh store starts a sync to every other registered storage.
    method StartSyncs(group: Group, s: StorageServer, r: UploadResult) returns (syncs: seq<Sync>)
      requires Valid() && group.Name in groups && groups[group.Name] == group
      requires s.Addr in group.Storages && group.Storages[s.Addr] == s
      requires r.Stored? ==> ParseHeaderFilePath(r.filePath + "/" + r.fileName) == Some((r.filePath, r.fileName))
      ensures group.Name in State && s.Addr in State[group.Name].storages
      ensures Infos(syncs) == SyncsFor(State[group.Name].storages, s.Addr, r, group.Name)
    {
      hide SortedSeq, FanOut, ParseHeaderFilePath, Group.Owned, Infos;
      InState(this, group);
      InRepr(group, s.Addr);
      syncs := [];
      InfosEmpty();
      if r.Stored? {
        var parsed := ParseHeaderFilePath(r.filePath + "/" + r.fileName);
        syncs := Spawn(group, AddTo(s.View(), r.info, parsed.value.0, parsed.value.1, group.Name));
      }
    }

    // An upload through the tracker: choose a group and a storage, proxy the request to it, and
    // after a fresh store start a sync to every other registered storage of the group.
    method QuickUpload(ip: string, req: UploadRequest, env: UploadEnv, fate: ProxyFate, net: Net)
      returns (answer: UploadAnswer, syncs: seq<Sync>)
      requires Valid() && Decimal(req.uuid)
      modifies net, Servers`Status, Groups`Model, this`State
      ensures Valid()
      ensures UploadEffect(net.md5, old(State), old(net.nodes), hash(ip), req, env, fate,
                           answer, State, net.nodes, Infos(syncs))
    {
      hide ProxyUpload, SyncsFor, AbortStep, ParseHeaderFilePath, Unroutable, Routed, Infos, UploadEffect, Decimal,
        Tracker.Valid;
      ghost var t0, n0 := State, net.nodes;
      syncs := [];
      InfosEmpty();
      var group, s := Route(ip);
      if s == null {
        EffectNone(net.md5, t0, n0, hash(ip), req, env, fate);
        return NoStorage, [];
      }
      RoutedRegistered(State, hash(ip), group.Name, s.Addr);
      var r := net.Proxy(s.Addr, req, env, fate);
      if r.Torn? {
        EffectTorn(net.md5, t0, n0, hash(ip), req, env, fate, group.Name, s.Addr);
        return NoAnswer, [];
      }
      if r.Failed? {
        AbortErrorHandler(group.Name, s.Addr);
        EffectAborted(net.md5, t0, n0, hash(ip), req, env, fate, group.Name, s.Addr);
        return BadGateway, [];
      }
      answer := Proxied(r.result);
      if r.result.Stored? { StoredPathParses(net.md5, n0, s.Addr, req, env, fate, r.result); }
      syncs := StartSyncs(group, s, r.result);
      EffectProxied(net.md5, t0, n0, hash(ip), req, env, fate, group.Name, s.Addr, r.result);
    }

    // A download goes to the storage serving the client in an Active group; a storage that
    // cannot be reached is taken offline.
    method Download(name: string, ip: string, reachable: bool) returns (answer: DownloadAnswer)
      requires Valid()
      modifies Servers`Status, Groups`Model, this`State
      ensures Valid()
      ensures DownloadEffect(old(State), name, hash(ip), reachable, answer, State)
    {
      hide SortedSeq, Group.Owned, AbortStep, Select;
      if name == "" { return Unavailable; }
      var g := GetGroup(name);
      if g == null { return Unavailable; }
      assert GroupOk(name);
      if g.Status != GroupActive { return Unavailable; }
      InState(this, g);
      var s := SelectStorageIPHash(ip, g);
      if s == null { return NoServer; }
      InRepr(g, s.Addr);
      if reachable { return ServedBy(s.Addr); }
      answer := Unserved(s.Addr);
      AbortErrorHandler(name, s.Addr);
    }

    // A delete starts one sync per registered storage of the group, the one holding the upload
    // included. An unregistered group makes the handler panic, which gin recovers; a path without
    // a slash makes the goroutine of every sync panic, which ends the process.
    method Delete(group: string, fileId: string, md5: string, file: string)
      returns (answer: DeleteAnswer, syncs: seq<Sync>)
      requires Valid()
      ensures DeleteEffect(State, group, fileId, md5, file, answer, Infos(syncs))
    {
      hide SortedSeq, FanOut, ParseHeaderFilePath, Group.Owned, Infos;
      syncs := [];
      InfosEmpty();
      var g := GetGroup(group);
      if g == null { return NoGroup, []; }
      assert GroupOk(group);
      InState(this, g);
      ParseFailsWithoutSlash(file);
      var parsed := ParseHeaderFilePath(file);
      if parsed.None? { return Panics, []; }
      syncs := Spawn(g, DeleteAt(fileId, parsed.value.0, parsed.value.1, md5, g.Name));
      answer := Deleting;
    }

    // --- Repair ---

    // The checks of one log entry. `Crash` is the nil dereference on a storage that is not found.
    method Check(mode: Addressing, sync: SyncFileInfo) returns (v: Verdict)
      requires Valid()
      ensures v == Consider(mode, State, sync)
    {
      var g := GetGroup(sync.group);
      if g == null { return Skip; }
      assert GroupOk(sync.group);
      InState(this, g);
      InModelAll(g);
      var dst := g.GetStorage(LookupKey(mode, sync.dst));
      if dst == null { return Crash; }
      if dst.Status != StorageActive { return Skip; }
      if mode == ByAddress && sync.action != SYNC_ADD { return Try; }
      var src := g.GetStorage(LookupKey(mode, sync.src));
      if src == null { return Crash; }
      if src.Status != StorageActive { return Skip; }
      v := Try;
    }

    // One repair pass over a snapshot of the log in key order.
    method RepairSyncFail(mode: Addressing, net: Net, fate: string -> PostFate) returns (crashed: bool)
      requires Valid()
      modifies net, syncDB
      ensures Valid()
      ensures Pass(net.nodes, syncDB.Ldb, crashed)
        == FullRepair(net.md5, mode, State, old(net.nodes), old(syncDB.Ldb), fate)
    {
      hide SortedSeq, Consider, Post, RepairPass, Tracker.Valid;
      ghost var result := FullRepair(net.md5, mode, State, net.nodes, syncDB.Ldb, fate);
      var snapshot := syncDB.Ldb;
      var keys := syncDB.Keys();
      LogKeysListed(snapshot);
      crashed := false;
      var i := 0;
      while i < |keys|
        invariant 0 <= i <= |keys| && Valid()
        invariant RepairPass(net.md5, mode, State, net.nodes, syncDB.Ldb, snapshot, keys[i..], fate) == result
      {
        var sync := snapshot[keys[i]];
        RepairStep(net.md5, mode, State, net.nodes, syncDB.Ldb, snapshot, keys, i, fate);
        var v := Check(mode, sync);
        if v == Crash { return true; }
        if v == Try {
          var resp := net.HttpPost(sync, fate(keys[i]));
          if resp == Some(SUCCESS) {
            syncDB.Delete([sync.fileName + "@" + sync.action]);
            ElementsOne(KeyOf(sync));
          }
        }
        i := i + 1;
      }
      RepairEnd(net.md5, mode, State, net.nodes, syncDB.Ldb, snapshot, fate);
      assert keys[i..] == [];
    }
  }

  datatype DownloadAnswer = Unavailable | NoServer | ServedBy(addr: string) | Unserved(addr: string)

  datatype DeleteAnswer = NoGroup | Panics | Deleting

  // The syncs an upload to storage a of group n starts.
  ghost function SyncsFor(m: Membership.Storages, a: string, r: UploadResult, n: string): seq<SyncFileInfo>
    requires a in m
  {
    if r.Stored? then FanOut(m, AddTo(m[a], r.info, r.filePath, r.fileName, n)) else []
  }

  // What an upload through the tracker may do to the registry and the nodes, what it answers
  // and which syncs it starts.
  ghost predicate UploadEffect(md5: Digest, t: TrackerState, nodes: NodeMap, h: nat, req: UploadRequest, env: UploadEnv,
                               fate: ProxyFate, answer: UploadAnswer, t': TrackerState, nodes': NodeMap,
                                 msgs: seq<SyncFileInfo>)
  {
    match answer
    case NoStorage => t' == t && nodes' == nodes && msgs == [] && Unroutable(t, h)
    case BadGateway =>
      && msgs == []
      && exists n, a :: Routed(t, h, n, a) && t' == AbortStep(t, n, a)
                        && (nodes', Failed) == ProxyUpload(md5, nodes, a, req, env, fate)
    case NoAnswer =>
      && t' == t && msgs == []
      && exists n, a :: Routed(t, h, n, a) && (nodes', Torn) == ProxyUpload(md5, nodes, a, req, env, fate)
    case Proxied(r) =>
      && t' == t
      && exists n, a :: Routed(t, h, n, a) && Registered(t, n, a)
                        && (nodes', Passed(r)) == ProxyUpload(md5, nodes, a, req, env, fate)
                        && msgs == SyncsFor(t[n].storages, a, r, n)
  }

  // What a download may do to the registry and what it answers.
  ghost predicate DownloadEffect(t: TrackerState, name: string, h: nat, reachable: bool, answer: DownloadAnswer,
                                 t': TrackerState) {
    && (answer.Unavailable? <==> name == "" || name !in t || t[name].status != GroupActive)
    && (answer.Unavailable? || Select(t[name].storages, h) == if answer.NoServer? then None else Some(answer.addr))
    && t' == (if answer.Unserved? then AbortStep(t, name, answer.addr) else t)
    && (answer.ServedBy? ==> reachable) && (answer.Unserved? ==> !reachable)
  }

  // What a delete answers and which syncs it starts.
  ghost predicate DeleteEffect(t: TrackerState, group: string, fileId: string, md5: string, file: string,
                               answer: DeleteAnswer, msgs: seq<SyncFileInfo>)
  {
    match answer
    case NoGroup => group !in t && msgs == []
    case Panics => group in t && '/' !in file && msgs == []
    case Deleting =>
      && group in t && ParseHeaderFilePath(file).Some?
      && var path := ParseHeaderFilePath(file).value;
      && file == path.0 + "/" + path.1 && '/' !in path.1
      && msgs == FanOut(t[group].storages, DeleteAt(fileId, path.0, path.1, md5, group))
  }

  lemma EffectNone(md5: Digest, t: TrackerState, nodes: NodeMap, h: nat, req: UploadRequest, env: UploadEnv,
                   fate: ProxyFate)
    requires Unroutable(t, h)
    ensures UploadEffect(md5, t, nodes, h, req, env, fate, NoStorage, t, nodes, [])
  {
  }

  lemma EffectAborted(md5: Digest, t: TrackerState, nodes: NodeMap, h: nat, req: UploadRequest, env: UploadEnv,
                      fate: ProxyFate, n: string, a: string)
    requires Routed(t, h, n, a) && ProxyUpload(md5, nodes, a, req, env, fate).1 == Failed
    ensures UploadEffect(md5, t, nodes, h, req, env, fate, BadGateway, AbortStep(t, n, a),
                         ProxyUpload(md5, nodes, a, req, env, fate).0, [])
  {
  }

  lemma EffectTorn(md5: Digest, t: TrackerState, nodes: NodeMap, h: nat, req: UploadRequest, env: UploadEnv,
                   fate: ProxyFate, n: string, a: string)
    requires Routed(t, h, n, a) && ProxyUpload(md5, nodes, a, req, env, fate).1 == Torn
    ensures UploadEffect(md5, t, nodes, h, req, env, fate, NoAnswer, t,
                         ProxyUpload(md5, nodes, a, req, env, fate).0, [])
  {
  }

  lemma EffectProxied(md5: Digest, t: TrackerState, nodes: NodeMap, h: nat, req: UploadRequest, env: UploadEnv,
                      fate: ProxyFate, n: string, a: string, r: UploadResult)
    requires Routed(t, h, n, a) && Registered(t, n, a) && ProxyUpload(md5, nodes, a, req, env, fate).1 == Passed(r)
    ensures UploadEffect(md5, t, nodes, h, req, env, fate, Proxied(r), t,
                         ProxyUpload(md5, nodes, a, req, env, fate).0, SyncsFor(t[n].storages, a, r, n))
  {
  }

  lemma InModelAll(g: Group)
    requires g.Valid()
    ensures g.Storages.Keys == g.Model.Keys && forall a :: a in g.Storages ==> g.Storages[a].View() == g.Model[a]
  {
  }

  lemma InState(t: Tracker, g: Group)
    requires t.Valid() && g.Name in t.groups && t.groups[g.Name] == g
    ensures g.Valid() && g.Name in t.State && t.State[g.Name].storages == g.Model
  {
    assert t.GroupOk(g.Name);
  }

  lemma InOrder(t: Tracker, g: Group)
    requires t.Valid() && g.Name in t.groups && t.groups[g.Name] == g
    ensures t.State.Keys == t.groups.Keys && t.GroupOk(g.Name)
  {
  }

  // The path an upload reports splits back into the directory and name it stored under.
  lemma StoredPathParses(md5: Digest, nodes: NodeMap, a: string, req: UploadRequest, env: UploadEnv,
                         fate: ProxyFate, r: UploadResult)
    requires Decimal(req.uuid) && r.Stored? && ProxyUpload(md5, nodes, a, req, env, fate).1 == Passed(r)
    ensures ParseHeaderFilePath(r.filePath + "/" + r.fileName) == Some((r.filePath, r.fileName))
  {
    assert r.fileName == GenFileName(req.uuid, req.form.value.filename);
    FileNameHasNoSlash(req.uuid, req.form.value.filename);
    ParseRoundTrip(r.filePath, r.fileName);
  }

  // What the listing of a group says about its model.
  lemma InModel(g: Group, storages: seq<StorageServer>)
    requires g.Valid() && Addrs(storages) == SortedSeq(g.Storages.Keys)
    requires forall i :: 0 <= i < |storages| ==>
      storages[i].Addr in g.Storages && storages[i] == g.Storages[storages[i].Addr]
    ensures var addrs := SortedSeq(g.Storages.Keys);
      && g.Storages.Keys == g.Model.Keys && |storages| == |addrs| && (forall a :: a in addrs ==> a in g.Model)
      && forall i :: 0 <= i < |storages| ==> storages[i].Addr == addrs[i] && storages[i].View() == g.Model[addrs[i]]
    ensures forall a :: a in g.Storages ==> g.Storages[a].View() == g.Model[a]
  {
    AddrsLength(storages);
    var addrs := SortedSeq(g.Storages.Keys);
    assert forall a :: a in addrs ==> a in Elements(addrs);
    forall i | 0 <= i < |storages| ensures storages[i].Addr == addrs[i] {
      AddrAt(storages, i);
    }
  }

  lemma InfosEmpty()
    ensures Infos([]) == []
  {
  }

  lemma InfosSnoc(syncs: seq<Sync>, s: Sync)
    ensures Infos(syncs + [s]) == Infos(syncs) + [s.info]
  {
    assert (syncs + [s])[..|syncs|] == syncs;
  }

  lemma MessagesEmpty(m: Membership.Storages, make: Maker)
    ensures Messages(m, [], make) == []
  {
  }

  lemma MessagesSnoc(m: Membership.Storages, addrs: seq<string>, i: nat, make: Maker)
    requires i < |addrs| && forall a :: a in addrs ==> a in m
    ensures var msg := make(m[addrs[i]]);
      Messages(m, addrs[..i + 1], make) == Messages(m, addrs[..i], make) + if msg.Some? then [msg.value] else []
  {
    assert addrs[..i + 1][..i] == addrs[..i];
  }

  lemma InRepr(g: Group, a: string)
    requires g.Valid() && a in g.Storages
    ensures g.Storages[a] in g.Repr && a in g.Model && g.Storages[a].View() == g.Model[a] && g.Storages[a].Addr == a
  {
  }

  lemma {:induction false} AddrsLength(s: seq<StorageServer>)
    ensures |Addrs(s)| == |s|
  {
    if s != [] { AddrsLength(s[..|s| - 1]); }
  }

  lemma {:induction false} AddrAt(s: seq<StorageServer>, i: nat)
    requires i < |s|
    ensures |Addrs(s)| == |s| && Addrs(s)[i] == s[i].Addr
  {
    AddrsLength(s);
    AddrsLength(s[..|s| - 1]);
    if i < |s| - 1 { AddrAt(s[..|s| - 1], i); }
  }

  // A new group holding one storage.
  function Opened(s: ServerState): GroupState {
    GroupState(s.group, GroupActive, s.free, map[s.addr := s])
  }

  lemma SaveOpened(t: TrackerState, s: ServerState)
    requires s.group !in t
    ensures Save(t[s.group := Opened(s)], s) == Save(t, s)
  {
    assert map[s.addr := s][s.addr := s] == map[][s.addr := s];
    var v, w := Save(t[s.group := Opened(s)], s), Save(t, s);
    forall k | k in v ensures v[k] == w[k] {}
    assert v == w;
  }

  // The sweep after visiting the groups in `done`.
  ghost function SweepSome(t: TrackerState, done: set<string>, now: int): TrackerState {
    map n | n in t :: if n in done then SweepGroup(t[n], now) else t[n]
  }

  lemma SweepOneMore(t: TrackerState, done: set<string>, n: string, now: int)
    requires n in t
    ensures SweepSome(t, done, now)[n := SweepGroup(SweepSome(t, done, now)[n], now)] == SweepSome(t, done + {n}, now)
  {
    SweepGroupTwice(t[n], now, now);
    var u := SweepSome(t, done, now);
    var v, w := u[n := SweepGroup(u[n], now)], SweepSome(t, done + {n}, now);
    forall k | k in v ensures v[k] == w[k] {}
    assert v == w;
  }

  lemma SweptNone(t: TrackerState, now: int)
    ensures SweepSome(t, {}, now) == t
  {
  }

  lemma SweptAll(t: TrackerState, done: set<string>, now: int)
    requires t.Keys <= done
    ensures SweepSome(t, done, now) == Sweep(t, now)
  {
    var v, w := SweepSome(t, done, now), Sweep(t, now);
    forall n | n in v ensures v[n] == w[n] {}
    assert v == w;
  }

  // A group whose own fields and storages were left alone.
  twostate predicate Left(g: Group)
    reads g, g.Repr
  {
    && g.Status == old(g.Status) && g.Cap == old(g.Cap) && g.Storages == old(g.Storages)
    && g.Repr == old(g.Repr) && g.Model == old(g.Model) && g.readers == old(g.readers)
    && forall s :: s in g.Repr ==> s.Status == old(s.Status)
  }

  // Registered groups own different storage objects, since each object names its group.
  lemma Apart(t: Tracker, g: Group)
    requires t.Valid() && g.Name in t.groups && t.groups[g.Name] == g
    ensures forall k :: k in t.groups && k != g.Name ==>
      t.groups[k] != g && t.groups[k].Repr !! g.Repr && t.groups[k].Repr <= t.Servers
  {
    assert t.GroupOk(g.Name);
    forall k | k in t.groups && k != g.Name
      ensures t.groups[k] != g && t.groups[k].Repr !! g.Repr && t.groups[k].Repr <= t.Servers
    {
      assert t.GroupOk(k);
    }
  }

  // No storage object is filed under two slots, in one group or in two.
  lemma SlotsApart(t: Tracker, g: string, a: string, g': string, a': string)
    requires t.Valid() && g in t.groups && g' in t.groups
    requires a in t.groups[g].Storages && a' in t.groups[g'].Storages
    requires t.groups[g].Storages[a] == t.groups[g'].Storages[a']
    ensures g == g' && a == a'
  {
  }

  lemma KeysAgree(t: Tracker)
    requires t.Valid()
    ensures t.State.Keys == t.groups.Keys
  {
  }

  lemma GroupAt(t: Tracker, n: string)
    requires t.Valid() && n in t.groups
    ensures n in t.State && t.GroupOk(n)
  {
  }

  lemma SlotInRepr(g: Group, addr: string)
    requires g.Valid()
    ensures g.Slot(addr) <= g.Repr
  {
  }

  // When only the group filed under n was added or changed, or let an object of its own go, the
  // rest of the registry stays good.
  twostate lemma OnlyGroup(t: Tracker, new n: string)
    requires old(t.Valid()) && n in t.groups && t.groups.Keys == old(t.groups).Keys + {n}
    requires old(t.Groups) <= t.Groups
    requires t.State.Keys == t.groups.Keys
    requires forall k :: k in old(t.groups) && k != n ==>
      && t.groups[k] == old(t.groups)[k] && t.State[k] == old(t.State)[k] && Left(old(t.groups)[k])
      && t.groups[k].Repr <= t.Servers
    requires t.GroupOk(n)
    ensures t.Valid()
  {
    forall k | k in t.groups && k != n ensures t.GroupOk(k) {
      assert old(t.GroupOk(k));
    }
  }

  ghost predicate AnyActive(storages: seq<StorageServer>)
    reads storages
  {
    exists j :: 0 <= j < |storages| && storages[j].Status == StorageActive
  }

  lemma ListedViews(group: Group, storages: seq<StorageServer>)
    requires group.Owned()
    requires forall j :: 0 <= j < |storages| ==>
      storages[j].Addr in group.Storages && storages[j] == group.Storages[storages[j].Addr]
    ensures group.Filed() && group.Model.Keys == group.Storages.Keys
    ensures forall s :: s in storages ==> s in group.Repr && s.View() == group.Model[s.Addr]
  {
  }

  // The listing covers the whole group, so what holds of it holds of the group's map.
  lemma Gathered(group: Group, filed: map<string, StorageServer>, storages: seq<StorageServer>,
                 before: Membership.Storages, now: int)
    requires group.Storages == filed && group.Filed() && group.Model == SweepStorages(before, now)
    requires before.Keys == filed.Keys && forall a :: a in filed ==> filed[a] in storages
    requires forall j :: 0 <= j < |storages| ==> storages[j].Addr in filed && storages[j] == filed[storages[j].Addr]
    requires forall j :: 0 <= j < |storages| ==> storages[j].View() == SweepServer(before[storages[j].Addr], now)
    ensures group.Owned()
    ensures HasActive(group.Model) <==> AnyActive(storages)
  {
    assert forall s :: s in storages ==> s.View() == SweepServer(before[s.Addr], now);
    if j :| 0 <= j < |storages| && storages[j].Status == StorageActive {
      assert IsActive(group.Model, storages[j].Addr);
    }
    if HasActive(group.Model) {
      var a :| IsActive(group.Model, a);
      var j :| 0 <= j < |storages| && storages[j] == group.Storages[a];
      assert storages[j].Status == StorageActive;
    }
  }
}
