// What users of the store get in the end: accounts of every replica, settled uploads fully
// replicated, and downloads routed to a node that has the file.
module Guarantees {
  import opened Lib
  import opened Order
  import opened Names
  import opened Membership
  import opened Nodes
  import opened Replication
  import opened Repairs
  import opened Routing
  import opened Protocol
  import opened ProtocolInv
  import opened Conservation
  import opened Contents
  import opened Loss
  import opened FirstSyncs
  import opened Copies

  // Success from a destination means that it holds the file's bytes, if no copy to it was cut off
  // since the last whole one.
  lemma ConfirmedReplicated(md5: Digest, c: Cluster, p: string, m: SyncFileInfo, i: nat)
    requires Inv(md5, c) && Held(c) && p in c.uploads && Alive(c, p) && m in c.uploads[p].Msgs()
    requires i < |c.tasks| && c.tasks[i].info == m && c.tasks[i].phase == Acked && (HostOf(m.dst), p) !in c.damaged
    ensures Replicated(c, p, m)
  {
    hide UrlSafe, PathOf, HostOf, NodesOk, RegistryOk, UploadsOk, PathsOk, LogsOk, SyncOk, FlightsOk;
    MsgAtPath(md5, c, p, m);
    MsgEnds(md5, c, m);
    assert TaskOk(c, c.tasks[i]) && HoldersOk(c, p);
    assert Confirmed(c, i, p);
    assert ReplicaOk(c, p, HostOf(m.dst));
  }

  // Every other storage registered when the fan-out of a stored file started: it holds the
  // file's bytes, or its first sync is in progress or was cut off by a crash, or was logged and
  // its key is still in the log or has been repaired.
  lemma DestinationAccounted(md5: Digest, c0: Cluster, steps: seq<Step>, p: string, m: SyncFileInfo)
    requires Init(c0)
    requires var c := After(md5, c0, steps); p in c.uploads && Alive(c, p) && m in c.uploads[p].Msgs()
    ensures var c := After(md5, c0, steps); Replicated(c, p, m) || exists i: nat :: Owed(c, m, i)
  {
    hide UrlSafe, HostOf, KeyOf, Replicated;
    var c := After(md5, c0, steps);
    NoDutySilentlyLost(md5, c0, steps, p, m);
    var i: nat :| i < |c.tasks| && c.tasks[i].info == m && !c.tasks[i].repair && Accounted(c, c.tasks[i]);
    if c.tasks[i].phase == Acked { FirstAcked(md5, c0, steps, p, i); } else { assert Owed(c, m, i); }
  }

  // The i-th sync is a first sync of m that is in progress, was cut off, or was logged with its key kept.
  ghost predicate Owed(c: Cluster, m: SyncFileInfo, i: nat) {
    && i < |c.tasks| && c.tasks[i].info == m && !c.tasks[i].repair
    && (c.tasks[i].phase in {Pending, Waiting, Lost} || (c.tasks[i].phase == Logged && KeyKept(c, KeyOf(m))))
  }

  // No sync of this message is in progress or was cut off by a crash.
  ghost predicate Finished(c: Cluster, m: SyncFileInfo) {
    forall i :: 0 <= i < |c.tasks| && c.tasks[i].info == m && !c.tasks[i].repair ==>
      c.tasks[i].phase !in {Pending, Waiting, Lost}
  }

  // The syncs of m have finished and its key is not in the log.
  ghost predicate Done(c: Cluster, m: SyncFileInfo) {
    KeyOf(m) !in c.log && Finished(c, m)
  }

  // Once that is so, its destination holds the file's bytes, if no repair was ever acknowledged,
  // or the upload had one destination and no copy there was cut off since the last whole one.
  lemma DoneReplicated(md5: Digest, c0: Cluster, steps: seq<Step>, p: string, m: SyncFileInfo)
    requires Init(c0)
    requires var c := After(md5, c0, steps);
      p in c.uploads && Alive(c, p) && m in c.uploads[p].Msgs() && Done(c, m)
      && (m !in c.repaired || (HostOf(m.dst), p) !in c.damaged) && (|c.uploads[p].Msgs()| <= 1 || c.repaired == {})
    ensures Replicated(After(md5, c0, steps), p, m)
  {
    hide UrlSafe, HostOf, Inv, Held, KeyOf, Replicated;
    var c := After(md5, c0, steps);
    NoDutySilentlyLost(md5, c0, steps, p, m);
    var i: nat :| i < |c.tasks| && c.tasks[i].info == m && !c.tasks[i].repair && Accounted(c, c.tasks[i]);
    if c.tasks[i].phase == Acked {
      FirstAcked(md5, c0, steps, p, i);
    } else if c.repaired != {} {
      RunInv(md5, c0, steps);
      RunHeld(md5, c0, steps);
      SingleDestinationExact(md5, c0, steps, p, i);
      var j :| 0 <= j < |c.tasks| && c.tasks[j].info == m && c.tasks[j].repair && c.tasks[j].phase == Acked;
      ConfirmedReplicated(md5, c, p, m, j);
    }
  }

  // In a run that cuts no copy off, an empty log is the truth about a single destination.
  lemma SettledReplicated(md5: Digest, c0: Cluster, steps: seq<Step>, p: string, m: SyncFileInfo)
    requires Init(c0) && Whole(steps)
    requires var c := After(md5, c0, steps);
      p in c.uploads && Alive(c, p) && m in c.uploads[p].Msgs() && Done(c, m) && |c.uploads[p].Msgs()| <= 1
    ensures Replicated(After(md5, c0, steps), p, m)
  {
    hide Alive, Replicated, Done, Whole, HostOf;
    RunDamage(md5, c0, steps);
    DoneReplicated(md5, c0, steps, p, m);
  }

  // --- What a fetch brings ---

  // What a node answers for a file it does not have.
  function PageOf(nodes: NodeMap, a: string): Bytes {
    if a in nodes then nodes[a].conf.missing else []
  }

  // In every reachable state a fetch brings the stored bytes, whatever a mangled URL answers,
  // exactly when the path it really names on the source holds these bytes, or is the file's own
  // path, is gone, and the page for a missing file happens to have these bytes. It names the
  // file's own path exactly when path and group are URL-safe.
  lemma FetchExactIff(md5: Digest, c0: Cluster, steps: seq<Step>, p: string, m: SyncFileInfo)
    requires Init(c0)
    requires var c := After(md5, c0, steps); p in c.uploads && m in c.uploads[p].Msgs()
    ensures var c := After(md5, c0, steps); var rec := c.uploads[p]; var q := Named(rec.group, m);
      (forall odd :: Fetch(c.nodes, m, odd) == Some(rec.Content())) <==>
        q.Some? && (FileAt(c.nodes, rec.src, q.value) == Some(rec.Content())
                    || (q.value == p && FileAt(c.nodes, rec.src, p).None? && PageOf(c.nodes, rec.src) == rec.Content()))
    ensures var c := After(md5, c0, steps); Named(c.uploads[p].group, m) == Some(p) <==> Fetchable(c.uploads[p], p)
  {
    hide Inv, UrlSafe, HostOf, PathOf, Requested;
    var c := After(md5, c0, steps);
    RunInv(md5, c0, steps);
    SourceOf(md5, c, p, m);
    NamedOwn(m);
    var content := c.uploads[p].Content();
    assert Fetch(c.nodes, m, Some(content + [0])) == Some(content) ==> Named(c.uploads[p].group, m).Some?;
  }

  lemma SourceOf(md5: Digest, c: Cluster, p: string, m: SyncFileInfo)
    requires Inv(md5, c) && p in c.uploads && m in c.uploads[p].Msgs()
    ensures var rec := c.uploads[p];
      && PathOf(m) == p && HostOf(m.src) == rec.src && m.group == rec.group && m.action == SYNC_ADD
      && rec.src in c.nodes && c.nodes[rec.src].conf.group == rec.group && HostOf(m.dst) in c.nodes
      && HostOf(m.dst) != rec.src
  {
    hide TargetPath, GenFilePath, GenFileName, Decimal, HostOf, PathOf, FlightsOk, PathsOk;
    MsgAtPath(md5, c, p, m);
    assert RecordOk(md5, c.nodes, c.ids, p, c.uploads[p]) && MsgOk(c.nodes, c.uploads[p], m);
  }

  lemma NamedOwn(m: SyncFileInfo)
    ensures Named(m.group, m) == Some(PathOf(m)) <==> UrlSafe(m.group) && UrlSafe(PathOf(m))
  {
    hide PathOf, Requested;
    var u := UrlPath(m);
    UrlSafeIff(u);
    assert u[|m.group| + 1..] == PathOf(m);
    assert UrlSafe(u) <==> UrlSafe(m.group) && UrlSafe(PathOf(m)) by {
      assert forall c :: c in u <==> c in m.group || c == '/' || c in PathOf(m);
    }
    if Named(m.group, m) == Some(PathOf(m)) {
      assert Requested(u).value == u by { assert Requested(u).value == m.group + "/" + PathOf(m); }
    }
  }

  // A delivery whose fetch and copy work.
  lemma WholeDelivery(md5: Digest, nodes: NodeMap, m: SyncFileInfo, odd: Option<Bytes>)
    requires m.action == SYNC_ADD && HostOf(m.dst) in nodes && Fetch(nodes, m, odd).Some?
    ensures var (nodes', answer) := Deliver(md5, nodes, m, DeliverFate(Fetched, true, odd));
      var body := Fetch(nodes, m, odd).value;
      && FileAt(nodes', HostOf(m.dst), PathOf(m)) == Some(body)
      && answer.Some? && (answer == Some(SUCCESS) <==> body != [])
  {
    hide HostOf, PathOf, Fetch, SyncInfo;
  }

  // When the source has lost the file, an ADD that reaches its destination copies the page for
  // a missing file over the replica, and is acknowledged exactly when that page is not empty.
  lemma MissingSourceDelivers(md5: Digest, c: Cluster, i: nat, p: string, odd: Option<Bytes>)
    requires Inv(md5, c) && i < |c.tasks| && c.tasks[i].wire == Travelling
    requires p in c.uploads && c.tasks[i].info in c.uploads[p].Msgs() && Fetchable(c.uploads[p], p)
    requires FileAt(c.nodes, c.uploads[p].src, p).None?
    ensures var c' := DoDeliver(md5, c, i, DeliverFate(Fetched, true, odd));
      var page := PageOf(c.nodes, c.uploads[p].src);
      && FileAt(c'.nodes, HostOf(c.tasks[i].info.dst), p) == Some(page)
      && (c'.tasks[i].wire == Delivered(Some(SUCCESS)) <==> page != [])
      && c' == c.(nodes := c'.nodes, tasks := c.tasks[i := c.tasks[i].(wire := c'.tasks[i].wire)],
                  damaged := c'.damaged)
  {
    hide Inv, UrlSafe, HostOf, PathOf, Fetch, Deliver, Damage, OpOf;
    var m := c.tasks[i].info;
    SourceOf(md5, c, p, m);
    SafeFetch(c.nodes, m, odd);
    WholeDelivery(md5, c.nodes, m, odd);
  }

  // --- Routing back ---

  // A client whose upload was routed and stored, and that comes back while the group's Active
  // storages are those of the routing, is served by the node that took its upload, which still
  // holds the file: no sync is needed.
  lemma StickyRouting(md5: Digest, c0: Cluster, steps: seq<Step>, h: nat, group: string, a: string, req: UploadRequest,
                      more: seq<Step>, p: string)
    requires Init(c0) && Enabled(After(md5, c0, steps), RouteUpload(h, group, a, req))
    requires var c := After(md5, c0, steps); var c2 := After(md5, c0, steps + [RouteUpload(h, group, a, req)] + more);
      && p in c2.uploads && c2.uploads[p].req == req && p !in c2.deletes
      && group in c2.tracker && ActiveAddrs(c2.tracker[group].storages) == ActiveAddrs(c.tracker[group].storages)
    ensures var c2 := After(md5, c0, steps + [RouteUpload(h, group, a, req)] + more);
      && Select(c2.tracker[group].storages, h) == Some(a)
      && FileAt(c2.nodes, a, p) == Some(c2.uploads[p].Content())
  {
    hide Inv, Select, ActiveAddrs, Decimal, MayChoose, After, Held, HoldersOk, FileAt;
    var c := After(md5, c0, steps);
    var s := RouteUpload(h, group, a, req);
    var c1 := Next(md5, c, s);
    AfterAppend(md5, c0, steps, s);
    AfterConcat(md5, c0, steps + [s], more);
    RunInv(md5, c0, steps);
    NextInv(md5, c, s);
    RunGrows(md5, c1, more);
    RunHeld(md5, c0, steps + [s] + more);
    var c2 := After(md5, c0, steps + [s] + more);
    assert c1.flights[|c.flights|] == Flight(group, a, req, None, Open);
    OwnFlightOf(md5, c2, p, |c.flights|);
    HeldAt(c2, p);
    SourceHolds(c2, p);
    SelectIs(c.tracker[group].storages, SortedSeq(ActiveAddrs(c.tracker[group].storages)), h);
    SelectIs(c2.tracker[group].storages, SortedSeq(ActiveAddrs(c2.tracker[group].storages)), h);
  }

  // A stored upload is on the node its flight went to.
  lemma OwnFlightOf(md5: Digest, c: Cluster, p: string, j: nat)
    requires Inv(md5, c) && p in c.uploads && j < |c.flights| && c.flights[j].req == c.uploads[p].req
    ensures c.uploads[p].src == c.flights[j].a
  {
    hide NodesOk, RegistryOk, UploadsOk, PathsOk, TasksOk, LogsOk, FlightOk, StoredPath, GenFilePath, GenFileName;
    assert HasFlight(c, p);
    var i :| 0 <= i < |c.flights| && StoredBy(c.uploads, c.flights[i], p);
  }

  lemma HeldAt(c: Cluster, p: string)
    requires Held(c) && p in c.uploads && p !in c.deletes
    ensures HoldersOk(c, p)
  {
  }

  // --- The empty page ---

  // With an empty page for missing files, an ADD of a file with a URL-safe path that is answered
  // with Success has copied the file's bytes, deletes or not; if its source has lost the file it
  // is not, and a copy it makes is empty.
  lemma EmptyPageNeverConfirms(md5: Digest, c0: Cluster, steps: seq<Step>, i: nat, at: DeliverFate, p: string)
    requires Init(c0)
    requires var c := After(md5, c0, steps);
      i < |c.tasks| && p in c.uploads && c.tasks[i].info in c.uploads[p].Msgs() && Fetchable(c.uploads[p], p)
      && PageOf(c.nodes, c.uploads[p].src) == []
    ensures var c := After(md5, c0, steps); var m := c.tasks[i].info; var c' := DoDeliver(md5, c, i, at);
      && (c'.tasks[i].wire == Delivered(Some(SUCCESS)) ==>
           FileAt(c'.nodes, HostOf(m.dst), p) == Some(c.uploads[p].Content()))
      && (FileAt(c.nodes, c.uploads[p].src, p).None? ==> c'.tasks[i].wire != Delivered(Some(SUCCESS)))
      && (FileAt(c.nodes, c.uploads[p].src, p).None? && at.disk.Fetched? ==>
           FileAt(c'.nodes, HostOf(m.dst), p) == Some([]))
  {
    hide Inv, UrlSafe, HostOf, PathOf, Fetch, Deliver, Damage, OpOf, After;
    var c := After(md5, c0, steps);
    var m := c.tasks[i].info;
    RunInv(md5, c0, steps);
    RunSources(md5, c0, steps);
    SourceOf(md5, c, p, m);
    SafeFetch(c.nodes, m, at.odd);
    AnyDelivery(md5, c.nodes, m, at);
  }

  // What an ADD leaves behind and answers, for every fate of its copy.
  lemma AnyDelivery(md5: Digest, nodes: NodeMap, m: SyncFileInfo, at: DeliverFate)
    requires m.action == SYNC_ADD && HostOf(m.dst) in nodes && Fetch(nodes, m, at.odd).Some?
    ensures var (nodes', answer) := Deliver(md5, nodes, m, at); var body := Fetch(nodes, m, at.odd).value;
      && (at.disk.Fetched? ==> FileAt(nodes', HostOf(m.dst), PathOf(m)) == Some(body))
      && (answer == Some(SUCCESS) <==> at.disk.Fetched? && body != [])
  {
    hide HostOf, PathOf, Fetch, SyncInfo;
  }
}
