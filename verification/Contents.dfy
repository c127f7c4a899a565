// What the nodes hold over whole runs: the source keeps a stored file until a delete names it,
// replicas hold its bytes, and an acknowledged ADD leaves the file at its destination.
module Contents {
  import opened Lib
  import opened Order
  import opened Names
  import opened Membership
  import opened Routing
  import opened Nodes
  import opened Replication
  import opened Repairs
  import opened Protocol
  import opened ProtocolInv
  import opened Conservation

  // An ADD of the file at p was answered with Success by its destination.
  ghost predicate Confirmed(c: Cluster, i: nat, p: string) {
    i < |c.tasks| && var t := c.tasks[i];
    t.info.action == SYNC_ADD && PathOf(t.info) == p && t.wire == Delivered(Some(SUCCESS))
  }

  // The source's bytes reach other nodes unchanged.
  predicate Fetchable(rec: Record, p: string) {
    UrlSafe(p) && UrlSafe(rec.group)
  }

  ghost predicate ReplicaOk(c: Cluster, p: string, a: string)
    requires p in c.uploads
  {
    FileAt(c.nodes, a, p) in {None, Some(c.uploads[p].Content())} || (a, p) in c.damaged
  }

  ghost predicate HoldersOk(c: Cluster, p: string)
    requires p in c.uploads
  {
    && FileAt(c.nodes, c.uploads[p].src, p) == Some(c.uploads[p].Content())
    && (Fetchable(c.uploads[p], p) ==> forall a :: a in c.nodes ==> ReplicaOk(c, p, a))
    && (forall i: nat :: Confirmed(c, i, p) ==> FileAt(c.nodes, HostOf(c.tasks[i].info.dst), p).Some?)
    && (Fetchable(c.uploads[p], p) && c.uploads[p].Content() == [] ==> forall i: nat :: !Confirmed(c, i, p))
    && (c.uploads[p].fan.None? ==> OnlyAt(c.nodes, c.uploads[p].src, p))
  }

  ghost predicate OnlyAt(nodes: NodeMap, a: string, p: string) {
    forall b :: b != a ==> FileAt(nodes, b, p).None?
  }

  ghost predicate Held(c: Cluster) {
    forall p :: p in c.uploads && p !in c.deletes ==> HoldersOk(c, p)
  }

  // A step that leaves the nodes alone and delivers nothing.
  lemma QuietHeld(c: Cluster, c': Cluster)
    requires Held(c) && c'.nodes == c.nodes && c'.damaged == c.damaged && c.deletes <= c'.deletes
    requires forall p :: p in c'.uploads ==> p in c.uploads && Later(c.uploads[p], c'.uploads[p])
    requires forall i :: 0 <= i < |c'.tasks| && c'.tasks[i].wire.Delivered? ==>
      i < |c.tasks| && c'.tasks[i].info == c.tasks[i].info && c'.tasks[i].wire == c.tasks[i].wire
    ensures Held(c')
  {
    hide PathOf, HostOf, UrlSafe, OnlyAt;
    forall p | p in c'.uploads && p !in c'.deletes ensures HoldersOk(c', p) {
      assert HoldersOk(c, p);
      forall i: nat | Confirmed(c', i, p) ensures Confirmed(c, i, p) && c'.tasks[i].info == c.tasks[i].info {}
      forall a | a in c'.nodes ensures ReplicaOk(c, p, a) ==> ReplicaOk(c', p, a) {}
    }
  }

  // A step that changes files only under paths that are no stored uploads of before.
  lemma ElsewhereHeld(c: Cluster, c': Cluster, p: string)
    requires p in c.uploads && HoldersOk(c, p) && p in c'.uploads && c'.uploads[p] == c.uploads[p]
    requires c'.nodes.Keys == c.nodes.Keys && c'.damaged == c.damaged
    requires forall a :: FileAt(c'.nodes, a, p) == FileAt(c.nodes, a, p)
    requires forall i: nat :: Confirmed(c', i, p) ==> i < |c.tasks| && c'.tasks[i] == c.tasks[i]
    ensures HoldersOk(c', p)
  {
    hide PathOf, HostOf, UrlSafe, FileAt;
    forall i: nat | Confirmed(c', i, p) ensures Confirmed(c, i, p) && c'.tasks[i] == c.tasks[i] {}
    forall a | a in c'.nodes ensures ReplicaOk(c, p, a) ==> ReplicaOk(c', p, a) {}
  }

  lemma CollectHeld(c: Cluster, a: string, path: string)
    requires Held(c) && PathsOk(c) && a in c.nodes
    ensures Held(c.(nodes := c.nodes[a := Collect(c.nodes[a], path)]))
  {
    hide HoldersOk, KnownPath;
    var c' := c.(nodes := c.nodes[a := Collect(c.nodes[a], path)]);
    forall p | p in c'.uploads && p !in c'.deletes ensures HoldersOk(c', p) {
      assert p in c.nodes[a].trash ==> p !in c.uploads;
      assert forall b :: FileAt(c'.nodes, b, p) == FileAt(c.nodes, b, p);
      ElsewhereHeld(c, c', p);
    }
  }

  // --- Uploads ---

  // A save writes at most the file of its own id on its own node.
  lemma SaveTouches(md5: Digest, c: Cluster, j: nat, env: UploadEnv, p: string)
    requires Inv(md5, c) && Savable(c, j) && p in c.uploads
    ensures forall b :: FileAt(DoSave(md5, c, j, env).nodes, b, p) == FileAt(c.nodes, b, p)
  {
    hide Upload, DoSave, TargetPath, StoredPath, KnownPath, RecordOk, TasksOk, LogsOk, RegistryOk, NodesOk,
      Decimal, FlightsOk;
    var f := c.flights[j];
    SaveParts(md5, c, j, env);
    SaveFresh(c, j);
    UploadShape(md5, c.nodes[f.a], f.req, env);
    if f.req.form.Some? { FreshPath(md5, c, f.req, env); }
  }

  // A stored file is on its own node, and nowhere else.
  lemma SaveStores(md5: Digest, c: Cluster, j: nat, env: UploadEnv, p: string)
    requires PathsOk(c) && UploadsOk(md5, c) && FlightsOk(c) && Savable(c, j)
    requires p in DoSave(md5, c, j, env).uploads && p !in c.uploads
    ensures var c' := DoSave(md5, c, j, env); var src := c'.uploads[p].src;
      FileAt(c'.nodes, src, p) == Some(c'.uploads[p].Content()) && OnlyAt(c'.nodes, src, p)
  {
    hide Upload, DoSave, TargetPath, StoredPath, KnownPath, RecordOk, Decimal, FlightsOk, PathsOk, UploadsOk;
    var f := c.flights[j];
    SaveParts(md5, c, j, env);
    SaveFreshPath(md5, c, j, env);
    UploadShape(md5, c.nodes[f.a], f.req, env);
    StoredShape(md5, c.nodes[f.a], f.req, env);
  }

  lemma NewHeld(c: Cluster, p: string)
    requires p in c.uploads && FileAt(c.nodes, c.uploads[p].src, p) == Some(c.uploads[p].Content())
    requires OnlyAt(c.nodes, c.uploads[p].src, p)
    requires forall i: nat :: !Confirmed(c, i, p)
    ensures HoldersOk(c, p)
  {
    hide UrlSafe, HostOf, FileAt, PathOf, Confirmed;
  }

  // What was confirmed is a file stored before.
  lemma ConfirmedOld(c: Cluster, p: string, i: nat)
    requires TasksOk(c) && Confirmed(c, i, p)
    ensures p in c.uploads
  {
    hide PathOf;
    assert TaskOk(c, c.tasks[i]);
  }

  lemma SaveHeld(md5: Digest, c: Cluster, j: nat, env: UploadEnv)
    requires Inv(md5, c) && Held(c) && Savable(c, j)
    ensures Held(DoSave(md5, c, j, env))
  {
    hide HoldersOk, Upload, DoSave, StoredPath, PathsOk, UploadsOk, LogsOk, RegistryOk, NodesOk, FlightsOk,
      TasksOk, PathOf, FileAt, OnlyAt;
    var c' := DoSave(md5, c, j, env);
    SaveParts(md5, c, j, env);
    SaveGrows(md5, c, j, env);
    forall p, i: nat | Confirmed(c', i, p) ensures i < |c.tasks| && c'.tasks[i] == c.tasks[i] && p in c.uploads {
      assert Confirmed(c, i, p);
      ConfirmedOld(c, p, i);
    }
    forall p | p in c'.uploads && p !in c'.deletes ensures HoldersOk(c', p) {
      if p in c.uploads {
        SaveTouches(md5, c, j, env, p);
        ElsewhereHeld(c, c', p);
      } else {
        SaveStores(md5, c, j, env, p);
        NewHeld(c', p);
      }
    }
  }

  lemma AnswerHeld(md5: Digest, c: Cluster, j: nat)
    requires Inv(md5, c) && Held(c) && Answerable(c, j)
    ensures Held(DoAnswer(c, j))
  {
    hide Inv, HoldersOk, StoredPath, DoAnswer, Started, FanOut, StoredBy, Held, PathOf;
    var c', f := DoAnswer(c, j), c.flights[j];
    if f.reply.value.Stored? {
      var p := StoredPath(f.reply.value.filePath, f.reply.value.fileName);
      StoredFlight(md5, c, j);
      AnswerParts(c, j, p);
      StoredHere(c, j, p);
      StartedAt(c'.uploads[p].Msgs());
    } else {
      AnswerRefused(c, j);
    }
    QuietHeld(c, c');
  }

  lemma StoredHere(c: Cluster, j: nat, p: string)
    requires j < |c.flights| && StoredBy(c.uploads, c.flights[j], p)
    ensures p in c.uploads && c.uploads[p].src == c.flights[j].a && c.uploads[p].req == c.flights[j].req
  {
    hide StoredPath, GenFilePath, GenFileName;
  }

  // --- Deliveries ---

  // While its source holds the file, an ADD with a URL-safe path fetches the file's bytes.
  lemma FetchShape(md5: Digest, c: Cluster, m: SyncFileInfo, odd: Option<Bytes>)
    requires UploadsOk(md5, c) && SyncOk(c.uploads, c.deletes, m) && m.action == SYNC_ADD
    requires FileAt(c.nodes, c.uploads[PathOf(m)].src, PathOf(m)) == Some(c.uploads[PathOf(m)].Content())
    requires Fetchable(c.uploads[PathOf(m)], PathOf(m))
    ensures Fetch(c.nodes, m, odd) == Some(c.uploads[PathOf(m)].Content())
  {
    hide UrlSafe, PathOf, TargetPath, GenFilePath, GenFileName, Decimal, Fetch, HostOf;
    var rec := c.uploads[PathOf(m)];
    assert RecordOk(md5, c.nodes, c.ids, PathOf(m), rec);
    assert MsgOk(c.nodes, rec, m);
    SafeFetch(c.nodes, m, odd);
  }

  lemma MsgEnds(md5: Digest, c: Cluster, m: SyncFileInfo)
    requires UploadsOk(md5, c) && SyncOk(c.uploads, c.deletes, m) && m.action == SYNC_ADD
    ensures HostOf(m.dst) in c.nodes && HostOf(m.dst) != c.uploads[PathOf(m)].src
    ensures m.fileHash == c.uploads[PathOf(m)].info.md5
  {
    hide TargetPath, GenFilePath, GenFileName, Decimal, HostOf, PathOf;
    assert RecordOk(md5, c.nodes, c.ids, PathOf(m), c.uploads[PathOf(m)]);
    assert MsgOk(c.nodes, c.uploads[PathOf(m)], m);
  }

  // An ADD or a DELETE of another file leaves the copy of p as it is.
  lemma DeliverElsewhere(md5: Digest, n: NodeState, op: NodeOp, p: string)
    requires (op.OpAdd? || op.OpDelete?) && PathOf(op.sync) != p
    ensures var n' := Apply(md5, n, op);
      (p in n'.files <==> p in n.files) && (p in n.files ==> n'.files[p] == n.files[p])
  {
    hide PathOf, SyncInfo;
  }

  // What an ADD of the file at p does to the copy it makes.
  lemma AddWrites(md5: Digest, n: NodeState, sync: SyncFileInfo, fate: SyncFate, body: Bytes)
    ensures var op := OpAdd(sync, fate, body); var n' := Apply(md5, n, op); var p := PathOf(sync);
      && (p in n.files ==> p in n'.files)
      && (ReplyOf(n, op) == SUCCESS ==> p in n'.files && fate.Fetched? && body != [])
      && (fate.Fetched? ==> p in n'.files && n'.files[p] == body)
      && (!fate.Fetched? && !fate.SyncCopyFails? ==> n' == n)
  {
    hide PathOf, SyncInfo;
  }

  // A delivery and the copies of p, a stored file no delete has named.
  lemma DeliverCopies(md5: Digest, c: Cluster, i: nat, at: DeliverFate, p: string)
    requires UploadsOk(md5, c) && i < |c.tasks| && SyncOk(c.uploads, c.deletes, c.tasks[i].info)
    requires p in c.uploads && p !in c.deletes && HoldersOk(c, p)
    ensures var c' := DoDeliver(md5, c, i, at); var m := c.tasks[i].info; var d := HostOf(m.dst);
      && c'.nodes.Keys == c.nodes.Keys
      && (forall b :: b != d ==>
           FileAt(c'.nodes, b, p) == FileAt(c.nodes, b, p) && ((b, p) in c.damaged <==> (b, p) in c'.damaged))
      && (PathOf(m) != p ==>
            FileAt(c'.nodes, d, p) == FileAt(c.nodes, d, p) && ((d, p) in c.damaged <==> (d, p) in c'.damaged))
      && (PathOf(m) == p ==>
            && d != c.uploads[p].src
            && (FileAt(c.nodes, d, p).Some? ==> FileAt(c'.nodes, d, p).Some?)
            && (Confirmed(c', i, p) ==> FileAt(c'.nodes, d, p).Some?)
            && c.uploads[p].fan.Some?
            && (Fetchable(c.uploads[p], p) && c.uploads[p].Content() == [] ==> !Confirmed(c', i, p))
            && (Fetchable(c.uploads[p], p) && ReplicaOk(c, p, d) ==> ReplicaOk(c', p, d)))
  {
    hide UrlSafe, PathOf, HostOf, Fetch, SyncInfo, RecordOk, Apply, ReplyOf, HoldersOk, UploadsOk;
    var m := c.tasks[i].info;
    var d := HostOf(m.dst);
    if d in c.nodes {
      var op := OpOf(c.nodes, m, at);
      if PathOf(m) != p {
        DeliverElsewhere(md5, c.nodes[d], op, p);
      } else {
        MsgEnds(md5, c, m);
        assert FileAt(c.nodes, c.uploads[p].src, p) == Some(c.uploads[p].Content()) by { SourceHolds(c, p); }
        if Fetchable(c.uploads[p], p) { FetchShape(md5, c, m, at.odd); }
        AddWrites(md5, c.nodes[d], m, op.fate, op.body);
      }
    } else if PathOf(m) == p {
      MsgEnds(md5, c, m);
    }
  }

  lemma SourceHolds(c: Cluster, p: string)
    requires p in c.uploads && HoldersOk(c, p)
    ensures FileAt(c.nodes, c.uploads[p].src, p) == Some(c.uploads[p].Content())
  {
  }

  lemma DeliverHeld(md5: Digest, c: Cluster, i: nat, at: DeliverFate)
    requires UploadsOk(md5, c) && Held(c) && i < |c.tasks| && SyncOk(c.uploads, c.deletes, c.tasks[i].info)
    ensures Held(DoDeliver(md5, c, i, at))
  {
    hide UrlSafe, PathOf, HostOf, UploadsOk, SyncOk, FileAt, Deliver, OpOf, Damage;
    var c' := DoDeliver(md5, c, i, at);
    forall p | p in c'.uploads && p !in c'.deletes ensures HoldersOk(c', p) {
      assert HoldersOk(c, p);
      DeliverCopies(md5, c, i, at, p);
      forall a | a in c'.nodes && Fetchable(c.uploads[p], p) ensures ReplicaOk(c', p, a) { assert ReplicaOk(c, p, a); }
      forall j: nat | Confirmed(c', j, p)
        ensures FileAt(c'.nodes, HostOf(c'.tasks[j].info.dst), p).Some?
        ensures !(Fetchable(c.uploads[p], p) && c.uploads[p].Content() == [])
      {
        if j != i { assert Confirmed(c, j, p); }
      }
    }
  }

  // --- All steps, all runs ---

  lemma SettledHeld(c: Cluster, i: nat)
    requires Held(c) && i < |c.tasks|
    ensures Held(Fail(c, i)) && Held(Succeed(c, i))
  {
    hide HoldersOk, Held, KeyOf;
    QuietHeld(c, Fail(c, i));
    QuietHeld(c, Succeed(c, i));
  }

  lemma NextHeld(md5: Digest, c: Cluster, s: Step)
    requires Inv(md5, c) && Held(c)
    ensures Held(Next(md5, c, s))
  {
    hide Held, NodesOk, RegistryOk, UploadsOk, PathsOk, LogsOk, FlightsOk, SyncOk, DoReport, DoSave, DoAnswer,
      DoMiss, DoDelete, DoDeliver, DoCrash, Collect, AbortStep, KeyOf, Fail, Succeed, Usable, Consider, Routed;
    if Enabled(c, s) {
      match s {
        case Report(a, free, time, now) => ReportHeld(c, a, free, time, now);
        case SaveUpload(j, env) => SaveHeld(md5, c, j, env);
        case AnswerUpload(j) => AnswerHeld(md5, c, j);
        case MissAnswer(j, aborts) => MissHeld(c, j, aborts);
        case DeleteFile(group, fileId, hash, file) => DeleteHeld(c, group, fileId, hash, file);
        case DeliverTask(i, at) => assert TaskOk(c, c.tasks[i]); DeliverHeld(md5, c, i, at);
        case CollectTrash(a, path) => CollectHeld(c, a, path);
        case SkipUnusable(i) => SettledHeld(c, i);
        case Answer(i) => SettledHeld(c, i);
        case GiveUp(i) => SettledHeld(c, i);
        case CrashTracker => CrashHeld(c);
        case _ => QuietHeld(c, Next(md5, c, s));
      }
    }
  }

  lemma ReportHeld(c: Cluster, a: string, free: nat, time: int, now: int)
    requires Held(c) && a in c.nodes
    ensures Held(DoReport(c, a, free, time, now))
  {
    hide Held, ReportStep, AddrOf, HostOf;
    QuietHeld(c, DoReport(c, a, free, time, now));
  }

  lemma MissHeld(c: Cluster, j: nat, aborts: bool)
    requires Held(c) && j < |c.flights|
    ensures Held(DoMiss(c, j, aborts))
  {
    hide Held, AbortStep;
    QuietHeld(c, DoMiss(c, j, aborts));
  }

  lemma DeleteHeld(c: Cluster, group: string, fileId: string, hash: string, file: string)
    requires Held(c) && group in c.tracker && ParseHeaderFilePath(file).Some?
    ensures Held(DoDelete(c, group, fileId, hash, file))
  {
    hide Held, FanOut, ParseHeaderFilePath, Started;
    var (filePath, fileName) := ParseHeaderFilePath(file).value;
    StartedAt(FanOut(c.tracker[group].storages, DeleteAt(fileId, filePath, fileName, hash, group)));
    QuietHeld(c, DoDelete(c, group, fileId, hash, file));
  }

  lemma CrashHeld(c: Cluster)
    requires Held(c)
    ensures Held(DoCrash(c))
  {
    hide Held;
    QuietHeld(c, DoCrash(c));
  }

  // In every reachable state the source of a stored file still holds its bytes, every other
  // copy has the same bytes or was cut short by its last write, and every destination that
  // answered Success has a copy, until a delete names the file.
  lemma {:induction false} RunHeld(md5: Digest, c0: Cluster, steps: seq<Step>)
    requires Init(c0)
    ensures Held(After(md5, c0, steps))
  {
    if steps != [] {
      var pre := steps[..|steps| - 1];
      RunInv(md5, c0, pre);
      RunHeld(md5, c0, pre);
      NextHeld(md5, After(md5, c0, pre), steps[|steps| - 1]);
    }
  }

  lemma {:induction false} HeldFrom(md5: Digest, c: Cluster, steps: seq<Step>)
    requires Inv(md5, c) && Held(c)
    ensures Held(After(md5, c, steps))
  {
    hide Held, Inv, Next;
    if steps != [] {
      var pre := steps[..|steps| - 1];
      RunGrows(md5, c, pre);
      HeldFrom(md5, c, pre);
      NextHeld(md5, After(md5, c, pre), steps[|steps| - 1]);
    }
  }

  // --- What follows for files without duties and for empty files ---

  // The flight brought this upload, which has duties exactly if the flight's answer was handled.
  ghost predicate Carried(rec: Record, f: Flight) {
    f.req == rec.req && (rec.fan.Some? <==> f.end == Handled)
  }

  // A stored file has duties exactly when the tracker handled its upload's answer; otherwise it
  // stays on its own node, and no sync of it is ever started.
  lemma StoredFileDuties(md5: Digest, c0: Cluster, steps: seq<Step>, p: string)
    requires Init(c0) && p in After(md5, c0, steps).uploads
    ensures var c := After(md5, c0, steps); var rec := c.uploads[p];
      && (exists j :: 0 <= j < |c.flights| && Carried(rec, c.flights[j]))
      && (rec.fan.None? && p !in c.deletes ==> OnlyAt(c.nodes, rec.src, p))
      && (rec.fan.None? ==> forall i :: 0 <= i < |c.tasks| ==>
           c.tasks[i].info.action != SYNC_ADD || PathOf(c.tasks[i].info) != p)
  {
    hide PathOf, NodesOk, RegistryOk, UploadsOk, PathsOk, LogsOk, OnlyAt, GenFilePath, GenFileName, StoredPath;
    var c := After(md5, c0, steps);
    RunInv(md5, c0, steps);
    RunHeld(md5, c0, steps);
    assert HasFlight(c, p);
    var j :| 0 <= j < |c.flights| && StoredBy(c.uploads, c.flights[j], p);
    assert Carried(c.uploads[p], c.flights[j]);
    if p !in c.deletes { assert HoldersOk(c, p); }
    forall i | 0 <= i < |c.tasks| && c.tasks[i].info.action == SYNC_ADD && PathOf(c.tasks[i].info) == p
      ensures c.uploads[p].fan.Some?
    {
      assert TaskOk(c, c.tasks[i]);
    }
  }

  // An empty file is never confirmed by any destination, so no sync or repair of it succeeds
  // before a delete names it.
  lemma EmptyNeverReplicated(md5: Digest, c0: Cluster, steps: seq<Step>, p: string)
    requires Init(c0)
    requires var c := After(md5, c0, steps);
      p in c.uploads && p !in c.deletes && Fetchable(c.uploads[p], p) && c.uploads[p].Content() == []
    ensures var c := After(md5, c0, steps);
      && (forall i :: 0 <= i < |c.tasks| && c.tasks[i].info in c.uploads[p].Msgs() ==> c.tasks[i].phase != Acked)
      && (forall m :: m in c.uploads[p].Msgs() ==> m !in c.repaired)
  {
    hide PathOf, UrlSafe, NodesOk, RegistryOk, PathsOk, LogsOk, FlightsOk, RecordOk, SyncOk;
    var c := After(md5, c0, steps);
    RunInv(md5, c0, steps);
    RunHeld(md5, c0, steps);
    RunConserved(md5, c0, steps);
    assert HoldersOk(c, p);
    forall i: nat | i < |c.tasks| && c.tasks[i].info in c.uploads[p].Msgs() ensures c.tasks[i].phase != Acked {
      MsgAtPath(md5, c, p, c.tasks[i].info);
      assert TaskOk(c, c.tasks[i]);
      assert !Confirmed(c, i, p);
    }
    forall m | m in c.uploads[p].Msgs() ensures m !in c.repaired {
      assert m in c.repaired ==> RepairSeen(c, m);
    }
  }
}
