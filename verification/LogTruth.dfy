// When an empty log tells the truth, byte for byte: always while repair looks storages up as
// written, since it then never drops an entry. When it looks them up by address: in groups of at
// most two storages while no copy is cut off, and with cut-off copies only without replicas.
module LogTruth {
  import opened Lib
  import opened Names
  import opened Membership
  import opened Nodes
  import opened Replication
  import opened Repairs
  import opened Routing
  import opened Protocol
  import opened ProtocolInv
  import opened Conservation
  import opened Contents
  import opened Loss
  import opened FirstSyncs
  import opened Copies
  import opened Guarantees
  import opened LogRuns

  // Nothing under way for a destination of p means that it holds the bytes of p.
  ghost predicate LogTells(c: Cluster, p: string) {
    p in c.uploads && p !in c.deletes ==> forall m :: m in c.uploads[p].Msgs() && Settled(c, m) ==> Replicated(c, p, m)
  }

  // --- As written: no repair ever succeeds ---

  ghost predicate NoRepairs(c: Cluster) {
    c.repaired == {} && forall i :: 0 <= i < |c.tasks| ==> !c.tasks[i].repair
  }

  // The lookup by URL never finds a storage.
  lemma NeverTried(md5: Digest, c: Cluster, e: SyncFileInfo)
    requires Inv(md5, c) && e in c.logged
    ensures Consider(AsWritten, c.tracker, e) != Try
  {
    hide PathOf, NodesOk, UploadsOk, PathsOk, TasksOk, FlightsOk;
    assert SyncOk(c.uploads, c.deletes, e);
    if Registered(c.tracker, e.group, e.dst) { SlashFree(md5, c, e.group, e.dst); }
  }

  lemma SlashFree(md5: Digest, c: Cluster, g: string, a: string)
    requires Inv(md5, c) && Registered(c.tracker, g, a)
    ensures '/' !in a
  {
    hide UploadsOk, PathsOk, TasksOk, LogsOk, FlightsOk;
    assert SlotOk(c.nodes, g, a, c.tracker[g].storages[a]);
  }

  lemma NoRepairsStep(md5: Digest, c: Cluster, s: Step)
    requires Inv(md5, c) && c.mode == AsWritten && NoRepairs(c)
    ensures NoRepairs(Next(md5, c, s))
  {
    hide Inv, DoReport, DoSave, DoAnswer, DoMiss, DoDelete, DoDeliver, DoCrash, Fail, Succeed, Collect, AbortStep,
      Usable, Consider, Routed;
    if Enabled(c, s) {
      match s {
        case Report(a, free, time, now) => ReportTasks(c, a, free, time, now);
        case SaveUpload(j, env) => SaveTasks(md5, c, j, env);
        case AnswerUpload(j) => AnswerTasksFresh(c, j);
        case MissAnswer(j, aborts) => MissedTasks(c, j, aborts); MissedRepaired(c, j, aborts);
        case DeleteFile(group, fileId, hash, file) => DeleteTasks(c, group, fileId, hash, file);
        case SkipUnusable(i) => SettledRepairs(c, i);
        case Answer(i) => SettledRepairs(c, i);
        case GiveUp(i) => SettledRepairs(c, i);
        case DeliverTask(i, at) => DeliverTasks(md5, c, i, at);
        case RepairEntry(sync) => NeverTried(md5, c, sync);
        case CrashTracker => CrashTasks(c);
        case _ =>
      }
    }
  }

  // Tasks keep their kind and the repaired messages are the same.
  ghost predicate SameKinds(c: Cluster, c': Cluster) {
    && c'.repaired == c.repaired && |c.tasks| <= |c'.tasks|
    && forall i :: 0 <= i < |c'.tasks| ==> c'.tasks[i].repair == (i < |c.tasks| && c.tasks[i].repair)
  }

  lemma ReportTasks(c: Cluster, a: string, free: nat, time: int, now: int)
    requires a in c.nodes
    ensures SameKinds(c, DoReport(c, a, free, time, now))
  {
    hide ReportStep, AddrOf, HostOf;
  }

  lemma SaveTasks(md5: Digest, c: Cluster, j: nat, env: UploadEnv)
    requires Savable(c, j)
    ensures SameKinds(c, DoSave(md5, c, j, env))
  {
    hide Upload, StoredPath;
  }

  lemma AnswerTasksFresh(c: Cluster, j: nat)
    requires Answerable(c, j)
    ensures SameKinds(c, DoAnswer(c, j))
  {
    hide FanOut, Started, StoredPath;
    var r, f := c.flights[j].reply.value, c.flights[j];
    if r.Stored? {
      StartedAt(FanOut(c.tracker[f.group].storages, AddTo(c.tracker[f.group].storages[f.a], r.info, r.filePath,
                r.fileName, f.group)));
    }
  }

  lemma MissedRepaired(c: Cluster, j: nat, aborts: bool)
    requires j < |c.flights|
    ensures DoMiss(c, j, aborts).repaired == c.repaired
  {
  }

  lemma DeleteTasks(c: Cluster, group: string, fileId: string, hash: string, file: string)
    requires group in c.tracker && ParseHeaderFilePath(file).Some?
    ensures SameKinds(c, DoDelete(c, group, fileId, hash, file))
  {
    hide FanOut, Started, ParseHeaderFilePath;
    var (filePath, fileName) := ParseHeaderFilePath(file).value;
    StartedAt(FanOut(c.tracker[group].storages, DeleteAt(fileId, filePath, fileName, hash, group)));
  }

  lemma SettledRepairs(c: Cluster, i: nat)
    requires i < |c.tasks| && !c.tasks[i].repair
    ensures SameKinds(c, Fail(c, i)) && SameKinds(c, Succeed(c, i))
  {
    hide KeyOf;
  }

  lemma DeliverTasks(md5: Digest, c: Cluster, i: nat, at: DeliverFate)
    requires i < |c.tasks|
    ensures SameKinds(c, DoDeliver(md5, c, i, at))
  {
    hide Deliver, Damage, OpOf, HostOf;
  }

  lemma CrashTasks(c: Cluster)
    ensures SameKinds(c, DoCrash(c))
  {
  }

  lemma {:induction false} RunNoRepairs(md5: Digest, c0: Cluster, steps: seq<Step>)
    requires Init(c0) && c0.mode == AsWritten
    ensures NoRepairs(After(md5, c0, steps))
  {
    hide Inv, Next;
    if steps != [] {
      var pre := steps[..|steps| - 1];
      RunNoRepairs(md5, c0, pre);
      InitInv(md5, c0);
      RunGrows(md5, c0, pre);
      NoRepairsStep(md5, After(md5, c0, pre), steps[|steps| - 1]);
    }
  }

  // As written the log tells the truth in every reachable state, for any number of storages and
  // whatever copies are cut off.
  lemma LogTellsAsWritten(md5: Digest, c0: Cluster, steps: seq<Step>, p: string)
    requires Init(c0) && c0.mode == AsWritten
    requires var c := After(md5, c0, steps); p in c.uploads ==> Fetchable(c.uploads[p], p)
    ensures LogTells(After(md5, c0, steps), p)
  {
    hide Replicated, UrlSafe, Done;
    var c := After(md5, c0, steps);
    RunNoRepairs(md5, c0, steps);
    if p in c.uploads && p !in c.deletes {
      forall m | m in c.uploads[p].Msgs() && Settled(c, m) ensures Replicated(c, p, m) {
        DoneReplicated(md5, c0, steps, p, m);
      }
    }
  }

  // No copy of p was cut off by its last write.
  ghost predicate Undamaged(c: Cluster, p: string) {
    forall d :: (d, p) !in c.damaged
  }

  // With at most one destination it does so however repair looks storages up, as long as no copy
  // is cut off.
  lemma LogTellsSingle(md5: Digest, c0: Cluster, steps: seq<Step>, more: seq<Step>, p: string)
    requires Init(c0) && p in After(md5, c0, steps).uploads && After(md5, c0, steps).uploads[p].fan.Some?
    requires |After(md5, c0, steps).uploads[p].Msgs()| <= 1 && Fetchable(After(md5, c0, steps).uploads[p], p)
    requires Undamaged(After(md5, c0, steps), p) && Whole(more)
    ensures LogTells(After(md5, After(md5, c0, steps), more), p)
  {
    hide Inv, Replicated, Done, UrlSafe, DamageKnown, Whole, HostOf;
    var c1 := After(md5, c0, steps);
    RunInv(md5, c0, steps);
    RunDamage(md5, c0, steps);
    RunGrows(md5, c1, more);
    DamageFrom(md5, c1, more);
    AfterConcat(md5, c0, steps, more);
    var c2 := After(md5, c0, steps + more);
    if p !in c2.deletes {
      forall m | m in c2.uploads[p].Msgs() && Settled(c2, m) ensures Replicated(c2, p, m) {
        DoneReplicated(md5, c0, steps + more, p, m);
      }
    }
  }

  // --- When the log tells the truth ---

  // When the fan-out starts, the file is on its own node only.
  lemma FanningAway(md5: Digest, c: Cluster, j: nat, p: string)
    requires Inv(md5, c) && Held(c) && AboutToFan(c, j, p) && p !in c.deletes
    ensures var c1 := DoAnswer(c, j); var f := c.flights[j];
      && p in c.uploads && p in c1.uploads && c.uploads[p].fan.None? && c1.nodes == c.nodes
      && c1.deletes == c.deletes && c1.mode == c.mode
      && c1.tracker == c.tracker && c1.uploads[p] == c.uploads[p].(fan := c1.uploads[p].fan)
      && c1.uploads[p].src == f.a && c1.uploads[p].group == f.group
      && forall m :: m in c1.uploads[p].Msgs() ==> FileAt(c1.nodes, HostOf(m.dst), p).None?
  {
    hide DoAnswer, FanOut, StoredPath, Started, HostOf, FileAt, NodesOk, RegistryOk, PathsOk, TasksOk, LogsOk,
      UploadsOk, FlightsOk, GenFilePath, GenFileName, UrlSafe;
    var c1 := DoAnswer(c, j);
    AnswerParts(c, j, p);
    AnswerInv(md5, c, j);
    assert HoldersOk(c, p);
    forall m | m in c1.uploads[p].Msgs() ensures FileAt(c1.nodes, HostOf(m.dst), p).None? {
      MsgAtPath(md5, c1, p, m);
      MsgEnds(md5, c1, m);
    }
  }

  // The state of the fan-out, as a reachable one.
  lemma Fanned(md5: Digest, c0: Cluster, steps: seq<Step>, j: nat, p: string)
    requires Init(c0) && AboutToFan(After(md5, c0, steps), j, p)
    requires var c := After(md5, c0, steps); Spreadable(c, p)
    ensures var c := After(md5, c0, steps); var c1 := DoAnswer(c, j);
      && After(md5, c0, steps + [AnswerUpload(j)]) == c1 && c1.mode == c0.mode
      && JustFanned(md5, c1, p, |c.tasks|) && p in c1.uploads && Spreadable(c1, p)
      && |c1.uploads[p].Msgs()| == GroupSize(c, j) - 1 && |c.tasks| + GroupSize(c, j) - 1 == |c1.tasks|
      && c1.uploads[p].fan.Some? && Undamaged(c1, p)
  {
    hide Next, DoAnswer, Inv, Held, StoredBy, After, UrlSafe, FileAt, HostOf, KeyOf;
    var c := After(md5, c0, steps);
    InitInv(md5, c0);
    RunGrows(md5, c0, steps);
    RunHeld(md5, c0, steps);
    RunDamage(md5, c0, steps);
    FreshMessages(md5, c, j, p);
    AnswerInv(md5, c, j);
    AnswerHeld(md5, c, j);
    FanningAway(md5, c, j, p);
    AnswerIsNext(md5, c, j);
    AfterAppend(md5, c0, steps, AnswerUpload(j));
  }

  // In runs that cut no copy off from the fan-out on, "nothing under way" means "replicated" for
  // every destination of a non-empty file if and only if repair looks storages up as written,
  // and so never drops an entry, or the group had at most two storages when the fan-out started.
  // The reports of these runs may be stamped from any time on.
  lemma LogTellsIff(md5: Digest, c0: Cluster, steps: seq<Step>, j: nat, p: string, t: int)
    requires Init(c0) && AboutToFan(After(md5, c0, steps), j, p)
    requires var c := After(md5, c0, steps); Spreadable(c, p)
    ensures var c := After(md5, c0, steps);
      (forall more :: Since(more, t) && Whole(more) ==> LogTells(After(md5, DoAnswer(c, j), more), p))
      <==> c0.mode == AsWritten || GroupSize(c, j) <= 2
  {
    hide Next, DoAnswer, Inv, Held, StoredBy, After, UrlSafe, FannedAt, Since, Whole, ForgetRun, Settled,
      Undamaged, FileAt, HostOf, KeyOf;
    var c := After(md5, c0, steps);
    var c1 := DoAnswer(c, j);
    var fan := steps + [AnswerUpload(j)];
    Fanned(md5, c0, steps, j, p);
    if c0.mode == AsWritten || GroupSize(c, j) <= 2 {
      forall more | Since(more, t) && Whole(more) ensures LogTells(After(md5, c1, more), p) {
        if c0.mode == AsWritten {
          AsWrittenAfter(md5, c0, fan, more, p);
        } else {
          LogTellsSingle(md5, c0, fan, more, p);
        }
      }
    } else {
      FirstForgotten(md5, c1, p, |c.tasks|, t);
      var m1, src := c1.uploads[p].Msgs()[1], c1.uploads[p].src;
      ForgetRunSince(c1, |c.tasks|, m1, src, t);
      assert !LogTells(After(md5, c1, ForgetRun(c1, |c.tasks|, m1, src, t)), p);
    }
  }

  // In all runs, cut-off copies included, it does so if and only if repair looks storages up as
  // written or the file has no destination at all.
  lemma LogTellsCutIff(md5: Digest, c0: Cluster, steps: seq<Step>, j: nat, p: string, t: int)
    requires Init(c0) && AboutToFan(After(md5, c0, steps), j, p)
    requires var c := After(md5, c0, steps); Spreadable(c, p)
    ensures var c := After(md5, c0, steps);
      (forall more :: Since(more, t) ==> LogTells(After(md5, DoAnswer(c, j), more), p))
      <==> c0.mode == AsWritten || GroupSize(c, j) <= 1
  {
    hide Next, DoAnswer, Inv, Held, StoredBy, After, UrlSafe, FannedAt, Since, CutRun, Settled, Undamaged, FileAt,
      HostOf, KeyOf;
    var c := After(md5, c0, steps);
    var c1 := DoAnswer(c, j);
    var fan := steps + [AnswerUpload(j)];
    Fanned(md5, c0, steps, j, p);
    if c0.mode == AsWritten || GroupSize(c, j) <= 1 {
      forall more | Since(more, t) ensures LogTells(After(md5, c1, more), p) {
        if c0.mode == AsWritten { AsWrittenAfter(md5, c0, fan, more, p); } else { RunGrows(md5, c1, more); }
      }
    } else {
      RepairedThenCut(md5, c1, p, |c.tasks|, t);
      var m, src := c1.uploads[p].Msgs()[0], c1.uploads[p].src;
      CutRunSince(c1, |c.tasks|, m, src, t);
      assert !LogTells(After(md5, c1, CutRun(c1, |c.tasks|, m, src, t)), p);
    }
  }

  lemma AsWrittenAfter(md5: Digest, c0: Cluster, steps: seq<Step>, more: seq<Step>, p: string)
    requires Init(c0) && c0.mode == AsWritten && p in After(md5, c0, steps).uploads
    requires Fetchable(After(md5, c0, steps).uploads[p], p)
    ensures LogTells(After(md5, After(md5, c0, steps), more), p)
  {
    hide Inv, LogTells, UrlSafe;
    RunInv(md5, c0, steps);
    RunGrows(md5, After(md5, c0, steps), more);
    AfterConcat(md5, c0, steps, more);
    LogTellsAsWritten(md5, c0, steps + more, p);
  }
}
