// The first sync of each message: one per message, so an acknowledged one brought the file's
// bytes for good, whatever may cut off the copies of later repairs.
module FirstSyncs {
  import opened Lib
  import opened Order
  import opened Names
  import opened Membership
  import opened Routing
  import opened Nodes
  import opened Replication
  import opened Repairs
  import opened Protocol
  import opened ProtocolInv
  import opened Conservation
  import opened Contents
  import opened Loss

  ghost predicate IsFirst(c: Cluster, i: int) {
    0 <= i < |c.tasks| && !c.tasks[i].repair && c.tasks[i].info.action == SYNC_ADD
  }

  // The destination of m holds the stored bytes of p.
  ghost predicate Replicated(c: Cluster, p: string, m: SyncFileInfo)
    requires p in c.uploads
  {
    FileAt(c.nodes, HostOf(m.dst), p) == Some(c.uploads[p].Content())
  }

  // A first sync that was answered with Success and never logged brought the bytes.
  ghost predicate Brought(c: Cluster, i: int)
    requires 0 <= i < |c.tasks|
  {
    var m := c.tasks[i].info;
    var p := PathOf(m);
    p in c.uploads && Alive(c, p) && c.tasks[i].wire == Delivered(Some(SUCCESS)) && m !in c.logged ==>
      Replicated(c, p, m)
  }

  // No delete has named the file, and its bytes reach other nodes unchanged.
  predicate Alive(c: Cluster, p: string)
    requires p in c.uploads
  {
    p !in c.deletes && Fetchable(c.uploads[p], p)
  }

  // Every message has one first sync, a logged one is given up, and fan-outs go to different nodes.
  ghost predicate Firsts(c: Cluster) {
    && (forall i, j :: IsFirst(c, i) && IsFirst(c, j) && i != j ==> c.tasks[i].info != c.tasks[j].info)
    && (forall i :: IsFirst(c, i) && c.tasks[i].info in c.logged ==> c.tasks[i].phase == Logged)
    && (forall p :: p in c.uploads ==> DistinctHosts(c.uploads[p].Msgs()))
    && (forall i :: IsFirst(c, i) ==> Brought(c, i))
  }

  // --- Steps that start no first sync of an upload and deliver nothing ---

  ghost predicate SameFiles(c: Cluster, c': Cluster) {
    forall p, b :: p in c.uploads ==> FileAt(c'.nodes, b, p) == FileAt(c.nodes, b, p)
  }

  ghost predicate SameRecords(c: Cluster, c': Cluster) {
    && (forall p :: p in c.uploads ==> p in c'.uploads && c'.uploads[p] == c.uploads[p])
    && (forall p :: p in c'.uploads && p !in c.uploads ==> c'.uploads[p].Msgs() == [])
  }

  // Old tasks keep message, kind and a delivery's answer; new ones are no first syncs of uploads.
  ghost predicate SameFirsts(c: Cluster, c': Cluster) {
    && |c.tasks| <= |c'.tasks|
    && (forall i :: 0 <= i < |c.tasks| ==>
          var t, t' := c.tasks[i], c'.tasks[i];
          t'.info == t.info && t'.repair == t.repair && (t'.wire.Delivered? ==> t'.wire == t.wire))
    && (forall i :: |c.tasks| <= i < |c'.tasks| ==> !IsFirst(c', i))
  }

  lemma QuietFirsts(c: Cluster, c': Cluster)
    requires Firsts(c) && TasksOk(c) && SameFiles(c, c') && SameRecords(c, c') && SameFirsts(c, c')
    requires c.deletes <= c'.deletes && c.logged <= c'.logged
    requires forall i :: IsFirst(c', i) && i < |c.tasks| && c'.tasks[i].info in c'.logged ==>
      c'.tasks[i].phase == Logged
    ensures Firsts(c')
  {
    hide PathOf, HostOf, UrlSafe, FileAt, DistinctHosts;
    forall i | IsFirst(c', i) ensures IsFirst(c, i) && Brought(c', i) {
      assert IsFirst(c, i) && Brought(c, i);
      assert TaskOk(c, c.tasks[i]);
    }
    NoHosts();
  }

  // The condition on logged messages, when nothing was logged and given-up syncs stay given up.
  lemma StillLogged(c: Cluster, c': Cluster)
    requires Firsts(c) && SameFirsts(c, c') && c'.logged == c.logged
    requires forall i :: 0 <= i < |c.tasks| && c.tasks[i].phase == Logged ==> c'.tasks[i].phase == Logged
    ensures forall i :: IsFirst(c', i) && i < |c.tasks| && c'.tasks[i].info in c'.logged ==> c'.tasks[i].phase == Logged
  {
    hide Brought, DistinctHosts;
    forall i | IsFirst(c', i) && i < |c.tasks| && c'.tasks[i].info in c'.logged ensures c'.tasks[i].phase == Logged {
      assert IsFirst(c, i);
    }
  }

  lemma PlainFirsts(c: Cluster, c': Cluster)
    requires Firsts(c) && TasksOk(c) && SameFiles(c, c') && SameRecords(c, c') && SameFirsts(c, c')
    requires c.deletes <= c'.deletes && c'.logged == c.logged
    requires forall i :: 0 <= i < |c.tasks| && c.tasks[i].phase == Logged ==> c'.tasks[i].phase == Logged
    ensures Firsts(c')
  {
    hide Firsts, SameFiles, SameRecords, TasksOk;
    StillLogged(c, c');
    QuietFirsts(c, c');
  }

  lemma FailFirsts(c: Cluster, i: nat)
    requires Firsts(c) && TasksOk(c) && i < |c.tasks|
    ensures Firsts(Fail(c, i))
  {
    hide Brought, DistinctHosts, KeyOf, TasksOk;
    var c' := Fail(c, i);
    forall k | IsFirst(c', k) && k < |c.tasks| && c'.tasks[k].info in c'.logged ensures c'.tasks[k].phase == Logged {
      assert IsFirst(c, k);
      assert c.tasks[i].info == c.tasks[k].info && !c.tasks[i].repair ==> IsFirst(c, i);
    }
    QuietFirsts(c, c');
  }

  lemma SucceedFirsts(c: Cluster, i: nat)
    requires Firsts(c) && TasksOk(c) && IsWaiting(c, i)
    ensures Firsts(Succeed(c, i))
  {
    hide Firsts, KeyOf, TasksOk;
    PlainFirsts(c, Succeed(c, i));
  }

  lemma SendFirsts(c: Cluster, i: nat)
    requires Firsts(c) && TasksOk(c) && IsPending(c, i)
    ensures Firsts(SetTask(c, i, c.tasks[i].(phase := Waiting, wire := Travelling)))
  {
    hide Firsts, TasksOk;
    PlainFirsts(c, SetTask(c, i, c.tasks[i].(phase := Waiting, wire := Travelling)));
  }

  lemma ReportFirsts(c: Cluster, a: string, free: nat, time: int, now: int)
    requires Firsts(c) && TasksOk(c) && a in c.nodes
    ensures Firsts(DoReport(c, a, free, time, now))
  {
    hide Firsts, TasksOk, ReportStep, AddrOf, HostOf;
    PlainFirsts(c, DoReport(c, a, free, time, now));
  }

  lemma MissFirsts(c: Cluster, j: nat, aborts: bool)
    requires Firsts(c) && TasksOk(c) && j < |c.flights|
    ensures Firsts(DoMiss(c, j, aborts))
  {
    hide Firsts, TasksOk, AbortStep;
    PlainFirsts(c, DoMiss(c, j, aborts));
  }

  lemma CrashFirsts(c: Cluster)
    requires Firsts(c) && TasksOk(c)
    ensures Firsts(DoCrash(c))
  {
    hide Firsts, TasksOk;
    PlainFirsts(c, DoCrash(c));
  }

  lemma DeleteFirsts(c: Cluster, group: string, fileId: string, hash: string, file: string)
    requires Firsts(c) && TasksOk(c) && group in c.tracker && ParseHeaderFilePath(file).Some?
    ensures Firsts(DoDelete(c, group, fileId, hash, file))
  {
    hide Firsts, TasksOk, FanOut, Started, ParseHeaderFilePath, BaseUrl;
    var c' := DoDelete(c, group, fileId, hash, file);
    var (filePath, fileName) := ParseHeaderFilePath(file).value;
    var m := c.tracker[group].storages;
    var make := DeleteAt(fileId, filePath, fileName, hash, group);
    var msgs := FanOut(m, make);
    FanOutComplete(m, make);
    StartedAt(msgs);
    forall i | |c.tasks| <= i < |c'.tasks| ensures !IsFirst(c', i) {
      assert msgs[i - |c.tasks|] in msgs;
    }
    PlainFirsts(c, c');
  }

  lemma CollectFirsts(c: Cluster, a: string, path: string)
    requires Firsts(c) && TasksOk(c) && PathsOk(c) && a in c.nodes
    ensures Firsts(c.(nodes := c.nodes[a := Collect(c.nodes[a], path)]))
  {
    hide Firsts, TasksOk, KnownPath;
    var c' := c.(nodes := c.nodes[a := Collect(c.nodes[a], path)]);
    assert path in c.nodes[a].trash ==> path !in c.uploads;
    PlainFirsts(c, c');
  }

  lemma SaveFirsts(md5: Digest, c: Cluster, j: nat, env: UploadEnv)
    requires Inv(md5, c) && Firsts(c) && Savable(c, j)
    ensures Firsts(DoSave(md5, c, j, env))
  {
    hide Firsts, TasksOk, Upload, DoSave, StoredPath, FileAt, NodesOk, RegistryOk, UploadsOk, PathsOk, LogsOk,
      FlightsOk;
    var c' := DoSave(md5, c, j, env);
    SaveParts(md5, c, j, env);
    SaveGrows(md5, c, j, env);
    forall p | p in c.uploads ensures forall b :: FileAt(c'.nodes, b, p) == FileAt(c.nodes, b, p) {
      SaveTouches(md5, c, j, env, p);
    }
    PlainFirsts(c, c');
  }

  // --- The fan-out of an upload ---

  lemma AnswerFirsts(md5: Digest, c: Cluster, j: nat)
    requires Inv(md5, c) && Firsts(c) && Answerable(c, j)
    ensures Firsts(DoAnswer(c, j))
  {
    hide NodesOk, RegistryOk, UploadsOk, PathsOk, TasksOk, LogsOk, FlightsOk, Firsts, DoAnswer, StoredBy,
      StoredPath;
    var c', f := DoAnswer(c, j), c.flights[j];
    if f.reply.value.Stored? {
      var p := StoredPath(f.reply.value.filePath, f.reply.value.fileName);
      StoredFlight(md5, c, j);
      FreshMessages(md5, c, j, p);
      FannedFirsts(c, c', p);
    } else {
      AnswerRefused(c, j);
      PlainFirsts(c, c');
    }
  }

  lemma FannedFirsts(c: Cluster, c': Cluster, p: string)
    requires Firsts(c) && FannedAt(c', p, |c.tasks|) && c'.tasks[..|c.tasks|] == c.tasks && p in c.uploads
    requires c' == c.(flights := c'.flights, tasks := c'.tasks, uploads := c.uploads[p := c'.uploads[p]])
    requires c'.uploads[p] == c.uploads[p].(fan := c'.uploads[p].fan)
    requires forall m :: m in c'.uploads[p].Msgs() ==> m !in c'.logged
    ensures Firsts(c')
  {
    hide PathOf, HostOf, UrlSafe, DistinctHosts, FileAt;
    var msgs, n := c'.uploads[p].Msgs(), |c.tasks|;
    forall i | IsFirst(c', i)
      ensures Brought(c', i)
      ensures c'.tasks[i].info in c'.logged ==> c'.tasks[i].phase == Logged
    {
      if i < n {
        assert c'.tasks[i] == c'.tasks[..n][i] && IsFirst(c, i) && Brought(c, i);
      } else {
        assert c'.tasks[n + (i - n)] == Fresh(msgs[i - n]) && msgs[i - n] in msgs;
      }
    }
    forall i, k | IsFirst(c', i) && IsFirst(c', k) && i < k ensures c'.tasks[i].info != c'.tasks[k].info {
      if k < n {
        assert c'.tasks[i] == c'.tasks[..n][i] && c'.tasks[k] == c'.tasks[..n][k] && IsFirst(c, i) && IsFirst(c, k);
      } else {
        assert c'.tasks[n + (k - n)].info == msgs[k - n];
        if i >= n {
          assert c'.tasks[n + (i - n)].info == msgs[i - n];
          Apart(c', p, n, i - n, k - n);
        }
      }
    }
  }

  // --- Deliveries ---

  // A first ADD that is answered with Success copied the whole file.
  lemma FirstDelivered(md5: Digest, c: Cluster, i: nat, at: DeliverFate)
    requires UploadsOk(md5, c) && TasksOk(c) && Held(c) && IsFirst(c, i)
    ensures Brought(DoDeliver(md5, c, i, at), i)
  {
    hide UrlSafe, PathOf, HostOf, Fetch, UploadsOk, HoldersOk, Damage;
    var m := c.tasks[i].info;
    var p := PathOf(m);
    assert TaskOk(c, c.tasks[i]);
    if Alive(c, p) {
      assert HoldersOk(c, p);
      SourceHolds(c, p);
      FetchShape(md5, c, m, at.odd);
      MsgEnds(md5, c, m);
      WholeAnswer(md5, c.nodes, m, at);
    }
  }

  // Success means that the whole fetched body was copied.
  lemma WholeAnswer(md5: Digest, nodes: NodeMap, m: SyncFileInfo, at: DeliverFate)
    requires m.action == SYNC_ADD && HostOf(m.dst) in nodes
    ensures var (nodes', answer) := Deliver(md5, nodes, m, at);
      answer == Some(SUCCESS) ==> FileAt(nodes', HostOf(m.dst), PathOf(m)) == Fetch(nodes, m, at.odd)
  {
    hide HostOf, PathOf, Fetch, SyncInfo;
  }

  // A delivery leaves the copies alone that other first syncs brought.
  lemma OtherBrought(md5: Digest, c: Cluster, i: nat, at: DeliverFate, k: int)
    requires UploadsOk(md5, c) && TasksOk(c) && Held(c) && Firsts(c) && i < |c.tasks| && IsFirst(c, k) && k != i
    ensures Brought(DoDeliver(md5, c, i, at), k)
  {
    hide UrlSafe, PathOf, HostOf, UploadsOk, HoldersOk, Damage, Deliver, OpOf, FileAt;
    var m, p := c.tasks[k].info, PathOf(c.tasks[k].info);
    assert TaskOk(c, c.tasks[k]) && TaskOk(c, c.tasks[i]) && Brought(c, k);
    if p !in c.deletes && m !in c.logged {
      assert HoldersOk(c, p);
      DeliverCopies(md5, c, i, at, p);
      if PathOf(c.tasks[i].info) == p { OtherHost(c, i, k, p); }
    }
  }

  // Another sync of the file goes to another node than a first sync that was never logged.
  lemma OtherHost(c: Cluster, i: nat, k: int, p: string)
    requires TasksOk(c) && Firsts(c) && i < |c.tasks| && IsFirst(c, k) && k != i
    requires p in c.uploads && p !in c.deletes && c.tasks[k].info !in c.logged
    requires PathOf(c.tasks[i].info) == p == PathOf(c.tasks[k].info)
    ensures HostOf(c.tasks[i].info.dst) != HostOf(c.tasks[k].info.dst)
  {
    hide PathOf, HostOf, DistinctHosts, Brought;
    assert TaskOk(c, c.tasks[k]) && TaskOk(c, c.tasks[i]);
    assert IsFirst(c, i) ==> c.tasks[i].info != c.tasks[k].info;
    if HostOf(c.tasks[i].info.dst) == HostOf(c.tasks[k].info.dst) {
      SameHost(c.uploads[p].Msgs(), c.tasks[k].info, c.tasks[i].info);
    }
  }

  lemma SameHost(msgs: seq<SyncFileInfo>, m: SyncFileInfo, n: SyncFileInfo)
    requires DistinctHosts(msgs) && m in msgs && n in msgs && HostOf(m.dst) == HostOf(n.dst)
    ensures m == n
  {
    hide HostOf;
    var i :| 0 <= i < |msgs| && msgs[i] == m;
    var k :| 0 <= k < |msgs| && msgs[k] == n;
  }

  lemma DeliverFirsts(md5: Digest, c: Cluster, i: nat, at: DeliverFate)
    requires Inv(md5, c) && Held(c) && Firsts(c) && i < |c.tasks|
    ensures Firsts(DoDeliver(md5, c, i, at))
  {
    hide NodesOk, RegistryOk, UploadsOk, PathsOk, TasksOk, LogsOk, FlightsOk, Held, Brought, DistinctHosts,
      Deliver, OpOf, Damage, HostOf;
    var c' := DoDeliver(md5, c, i, at);
    forall k | IsFirst(c', k) ensures IsFirst(c, k) && Brought(c', k) {
      assert IsFirst(c, k);
      if k == i { FirstDelivered(md5, c, i, at); } else { OtherBrought(md5, c, i, at, k); }
    }
  }

  // --- All steps, all runs ---

  lemma NextFirsts(md5: Digest, c: Cluster, s: Step)
    requires Inv(md5, c) && Held(c) && Firsts(c)
    ensures Firsts(Next(md5, c, s))
  {
    hide Firsts, Held, NodesOk, RegistryOk, UploadsOk, TasksOk, LogsOk, FlightsOk, PathsOk, DoReport, DoSave,
      DoAnswer, DoMiss, DoDelete, DoDeliver, DoCrash, Collect, AbortStep, Fail, Succeed, Usable, Consider, Routed,
      SameFiles, SameRecords;
    if Enabled(c, s) {
      match s {
        case Report(a, free, time, now) => ReportFirsts(c, a, free, time, now);
        case ProxyAbort(group, a) => Untouched(c, Next(md5, c, s)); PlainFirsts(c, Next(md5, c, s));
        case RouteUpload(h, group, a, req) => Untouched(c, Next(md5, c, s)); PlainFirsts(c, Next(md5, c, s));
        case SaveUpload(j, env) => SaveFirsts(md5, c, j, env);
        case AnswerUpload(j) => AnswerFirsts(md5, c, j);
        case MissAnswer(j, aborts) => MissFirsts(c, j, aborts);
        case DeleteFile(group, fileId, hash, file) => DeleteFirsts(c, group, fileId, hash, file);
        case SkipUnusable(i) => FailFirsts(c, i);
        case Send(i) => SendFirsts(c, i);
        case DeliverTask(i, at) => DeliverFirsts(md5, c, i, at);
        case Answer(i) => if c.tasks[i].wire.answer == Some(SUCCESS) { SucceedFirsts(c, i); } else { FailFirsts(c, i); }
        case GiveUp(i) => FailFirsts(c, i);
        case RepairEntry(sync) => Untouched(c, Next(md5, c, s)); PlainFirsts(c, Next(md5, c, s));
        case CollectTrash(a, path) => CollectFirsts(c, a, path);
        case CrashTracker => CrashFirsts(c);
      }
    }
  }

  lemma Untouched(c: Cluster, c': Cluster)
    requires c'.nodes == c.nodes && c'.uploads == c.uploads
    ensures SameFiles(c, c') && SameRecords(c, c')
  {
  }

  lemma {:induction false} FirstsFrom(md5: Digest, c: Cluster, steps: seq<Step>)
    requires Inv(md5, c) && Held(c) && Firsts(c)
    ensures Firsts(After(md5, c, steps))
  {
    hide Inv, Held, Firsts, Next;
    if steps != [] {
      var pre := steps[..|steps| - 1];
      RunGrows(md5, c, pre);
      HeldFrom(md5, c, pre);
      FirstsFrom(md5, c, pre);
      NextFirsts(md5, After(md5, c, pre), steps[|steps| - 1]);
    }
  }

  lemma RunFirsts(md5: Digest, c0: Cluster, steps: seq<Step>)
    requires Init(c0)
    ensures Firsts(After(md5, c0, steps))
  {
    InitInv(md5, c0);
    FirstsFrom(md5, c0, steps);
  }

  // An acknowledged first sync means that its destination holds the file's bytes, until a delete
  // names the file, whatever else is delivered, repaired or cut off.
  lemma FirstAcked(md5: Digest, c0: Cluster, steps: seq<Step>, p: string, i: nat)
    requires Init(c0)
    requires var c := After(md5, c0, steps);
      p in c.uploads && Alive(c, p) && i < |c.tasks| && !c.tasks[i].repair
      && c.tasks[i].info in c.uploads[p].Msgs() && c.tasks[i].phase == Acked
    ensures var c := After(md5, c0, steps); Replicated(c, p, c.tasks[i].info)
  {
    hide UrlSafe, PathOf, HostOf, NodesOk, RegistryOk, UploadsOk, PathsOk, LogsOk, FlightsOk, DistinctHosts,
      FileAt, After;
    var c := After(md5, c0, steps);
    RunInv(md5, c0, steps);
    RunFirsts(md5, c0, steps);
    MsgAtPath(md5, c, p, c.tasks[i].info);
    assert IsFirst(c, i) && Brought(c, i) && TaskOk(c, c.tasks[i]);
  }
}
