// Repair in a reachable state of the cluster: one pass brings the stored bytes to every logged
// destination, and with the syncs all finished that completes replication.
module ClusterRepairs {
  import opened Lib
  import opened Order
  import opened Names
  import opened Membership
  import opened Nodes
  import opened Replication
  import opened Repairs
  import opened Protocol
  import opened ProtocolInv
  import opened Conservation
  import opened Contents
  import opened FirstSyncs
  import opened Copies
  import opened Guarantees

  // The entry is an ADD of a stored, non-empty file no delete has named, both its storages are
  // Active, and its POST will be answered by a node whose disk works.
  ghost predicate Repairable(c: Cluster, e: SyncFileInfo, f: PostFate) {
    && e.action == SYNC_ADD && Consider(ByAddress, c.tracker, e) == Try
    && f.Answered? && f.at.disk.Fetched?
    && PathOf(e) in c.uploads && PathOf(e) !in c.deletes
    && Fetchable(c.uploads[PathOf(e)], PathOf(e)) && c.uploads[PathOf(e)].Content() != []
  }

  ghost predicate AllRepairable(c: Cluster, fate: string -> PostFate) {
    forall k :: k in c.log ==> Repairable(c, c.log[k], fate(k))
  }

  lemma LogInOrder(md5: Digest, c: Cluster)
    requires Inv(md5, c)
    ensures LogOk(c.log)
  {
    hide KeyOf, PathOf, NodesOk, RegistryOk, UploadsOk, PathsOk, TasksOk, FlightsOk;
    forall k | k in c.log ensures IsAction(c.log[k].action) && '/' !in c.log[k].fileName && k == KeyOf(c.log[k]) {
      assert SyncOk(c.uploads, c.deletes, c.log[k]);
    }
  }

  lemma RepairableReady(md5: Digest, c: Cluster, e: SyncFileInfo, f: PostFate)
    requires UploadsOk(md5, c) && SyncOk(c.uploads, c.deletes, e) && Held(c) && Repairable(c, e, f)
    ensures Ready(ByAddress, c.tracker, c.nodes, e, f) && HashTrue(md5, c.nodes, e)
    ensures FileAt(c.nodes, HostOf(e.src), PathOf(e)) == Some(c.uploads[PathOf(e)].Content())
  {
    hide UrlSafe, PathOf, HostOf, Consider, NameId;
    var rec := c.uploads[PathOf(e)];
    assert RecordOk(md5, c.nodes, c.ids, PathOf(e), rec) && MsgOk(c.nodes, rec, e);
    assert HoldersOk(c, PathOf(e));
    SourceHolds(c, PathOf(e));
  }

  // One pass over a repairable log empties it, and every logged destination holds the stored bytes.
  lemma RepairReplicates(md5: Digest, c: Cluster, fate: string -> PostFate)
    requires Inv(md5, c) && Held(c) && AllRepairable(c, fate)
    ensures var r := FullRepair(md5, ByAddress, c.tracker, c.nodes, c.log, fate);
      && !r.crashed && r.log.Keys == {}
      && forall k :: k in c.log ==>
           PathOf(c.log[k]) in c.uploads
           && FileAt(r.nodes, HostOf(c.log[k].dst), PathOf(c.log[k])) == Some(c.uploads[PathOf(c.log[k])].Content())
  {
    hide UrlSafe, PathOf, HostOf, Held, Ready, KeyOf, LogKey, SyncOk, FullRepair;
    LogInOrder(md5, c);
    forall k | k in c.log
      ensures Ready(ByAddress, c.tracker, c.nodes, c.log[k], fate(k))
      ensures LogKey(c.log[k].fileName, SYNC_DELETE) !in c.log
      ensures FileAt(c.nodes, HostOf(c.log[k].src), PathOf(c.log[k])) == Some(c.uploads[PathOf(c.log[k])].Content())
    {
      assert SyncOk(c.uploads, c.deletes, c.log[k]);
      RepairableReady(md5, c, c.log[k], fate(k));
      NoDeleteKey(c, c.log[k].fileName, fate);
    }
    RepairConverges(md5, ByAddress, c.tracker, c.nodes, c.log, fate);
  }

  // It also leaves at every logged destination an index entry for the file's digest that names a
  // file which is there with that digest.
  lemma RepairEnters(md5: Digest, c: Cluster, fate: string -> PostFate)
    requires Inv(md5, c) && Held(c) && AllRepairable(c, fate)
    ensures var r := FullRepair(md5, ByAddress, c.tracker, c.nodes, c.log, fate);
      forall k :: k in c.log && c.log[k].fileHash != "" ==>
        IndexedAt(md5, r.nodes, c.log, HostOf(c.log[k].dst), c.log[k].fileHash)
  {
    hide UrlSafe, PathOf, HostOf, Held, Ready, KeyOf, LogKey, SyncOk, FullRepair, HashTrue, IndexedAt, Consider,
      Undisturbed;
    LogInOrder(md5, c);
    forall k | k in c.log
      ensures Ready(ByAddress, c.tracker, c.nodes, c.log[k], fate(k)) && HashTrue(md5, c.nodes, c.log[k])
      ensures Undisturbed(c.log, HostOf(c.log[k].dst), c.log[k].fileHash)
    {
      assert SyncOk(c.uploads, c.deletes, c.log[k]);
      RepairableReady(md5, c, c.log[k], fate(k));
      AddOnlyUndisturbed(c, fate, HostOf(c.log[k].dst), c.log[k].fileHash);
    }
    RepairIndexes(md5, ByAddress, c.tracker, c.nodes, c.log, fate);
  }

  lemma AddOnlyUndisturbed(c: Cluster, fate: string -> PostFate, d: string, h: string)
    requires AllRepairable(c, fate)
    ensures Undisturbed(c.log, d, h)
  {
    hide UrlSafe, PathOf, HostOf, Consider;
  }

  lemma NoDeleteKey(c: Cluster, fileName: string, fate: string -> PostFate)
    requires LogOk(c.log) && AllRepairable(c, fate)
    ensures LogKey(fileName, SYNC_DELETE) !in c.log
  {
    hide LogKey, PathOf, UrlSafe;
    var k := LogKey(fileName, SYNC_DELETE);
    if k in c.log {
      LogKeyInjective(fileName, SYNC_DELETE, c.log[k].fileName, c.log[k].action);
    }
  }

  // A copy that no entry of the log names survives the pass.
  lemma UnnamedKept(md5: Digest, c: Cluster, fate: string -> PostFate, d: string, p: string)
    requires forall k :: k in c.log ==> !Targets(c.log[k], d, p)
    ensures FileAt(FullRepair(md5, ByAddress, c.tracker, c.nodes, c.log, fate).nodes, d, p) == FileAt(c.nodes, d, p)
  {
    hide Targets, RepairPass, SortedSeq;
    LogKeysListed(c.log);
    PassKeeps(md5, ByAddress, c.tracker, c.nodes, c.log, c.log, SortedSeq(c.log.Keys), fate, d, p);
  }

  // What one pass over a repairable log does for a single destination whose sync has finished:
  // it ends with the file's bytes exactly if its key is in the log or it has them already. So it
  // always does, unless the message was repaired before and a copy was cut off.
  lemma RepairCompletes(md5: Digest, c0: Cluster, steps: seq<Step>, fate: string -> PostFate, p: string,
                        m: SyncFileInfo)
    requires Init(c0) && AllRepairable(After(md5, c0, steps), fate)
    requires var c := After(md5, c0, steps);
      p in c.uploads && Alive(c, p) && m in c.uploads[p].Msgs() && |c.uploads[p].Msgs()| <= 1 && Finished(c, m)
    ensures var c := After(md5, c0, steps);
      FileAt(FullRepair(md5, ByAddress, c.tracker, c.nodes, c.log, fate).nodes, HostOf(m.dst), p)
        == Some(c.uploads[p].Content())
      <==> KeyOf(m) in c.log || Replicated(c, p, m)
    ensures var c := After(md5, c0, steps);
      Whole(steps) || m !in c.repaired ==>
        FileAt(FullRepair(md5, ByAddress, c.tracker, c.nodes, c.log, fate).nodes, HostOf(m.dst), p)
          == Some(c.uploads[p].Content())
  {
    hide UrlSafe, PathOf, HostOf, Inv, Held, KeyOf, AllRepairable, FullRepair, FileAt, After, Whole, Finished;
    var c := After(md5, c0, steps);
    RunInv(md5, c0, steps);
    RunHeld(md5, c0, steps);
    RepairReplicates(md5, c, fate);
    if KeyOf(m) in c.log {
      OwnEntry(md5, c, p, m);
    } else {
      forall k | k in c.log ensures !Targets(c.log[k], HostOf(m.dst), p) { OnlyOwnEntry(md5, c, p, m, k, fate); }
      UnnamedKept(md5, c, fate, HostOf(m.dst), p);
      RunDamage(md5, c0, steps);
      if Whole(steps) || m !in c.repaired { DoneReplicated(md5, c0, steps, p, m); }
    }
  }

  // No entry under another key names the file of a single-destination upload.
  lemma OnlyOwnEntry(md5: Digest, c: Cluster, p: string, m: SyncFileInfo, k: string, fate: string -> PostFate)
    requires Inv(md5, c) && AllRepairable(c, fate) && k in c.log && p in c.uploads && KeyOf(m) !in c.log
    requires m in c.uploads[p].Msgs() && |c.uploads[p].Msgs()| <= 1
    ensures PathOf(c.log[k]) != p
  {
    hide UrlSafe, PathOf, HostOf, KeyOf, NodesOk, RegistryOk, UploadsOk, PathsOk, TasksOk, FlightsOk, Consider;
    assert SyncOk(c.uploads, c.deletes, c.log[k]) && Repairable(c, c.log[k], fate(k));
  }

  // The entry under the key of a single-destination upload is its own.
  lemma OwnEntry(md5: Digest, c: Cluster, p: string, m: SyncFileInfo)
    requires Inv(md5, c) && p in c.uploads && m in c.uploads[p].Msgs() && |c.uploads[p].Msgs()| <= 1
    requires KeyOf(m) in c.log
    ensures Targets(c.log[KeyOf(m)], HostOf(m.dst), p)
  {
    hide PathOf, HostOf, KeyOf, NodesOk, RegistryOk, UploadsOk, PathsOk, TasksOk, FlightsOk, SyncOk;
    OnlyMessage(md5, c, p, m);
    MsgAtPath(md5, c, p, m);
  }

  // As written, no pass in any reachable state repairs anything: it leaves nodes and log alone
  // and crashes exactly when the group of some entry is registered.
  lemma RepairAsWritten(md5: Digest, c: Cluster, fate: string -> PostFate)
    requires Inv(md5, c)
    ensures FullRepair(md5, AsWritten, c.tracker, c.nodes, c.log, fate)
         == Pass(c.nodes, c.log, exists k :: k in c.log && c.log[k].group in c.tracker)
  {
    hide UploadsOk, PathsOk, TasksOk, FlightsOk, KeyOf, PathOf, FullRepair;
    forall g, a | Registered(c.tracker, g, a) ensures '/' !in a {
      assert SlotOk(c.nodes, g, a, c.tracker[g].storages[a]);
    }
    forall k | k in c.log ensures '/' in c.log[k].dst { assert SyncOk(c.uploads, c.deletes, c.log[k]); }
    AsWrittenNeverRepairs(md5, c.tracker, c.nodes, c.log, fate);
  }
}
