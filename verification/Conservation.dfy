// Replication duties over whole runs: none disappears without a trace, and for an upload with
// at most one destination the log accounts for that destination exactly.
module Conservation {
  import opened Lib
  import opened Order
  import opened Names
  import opened Membership
  import opened Routing
  import opened Nodes
  import opened Replication
  import opened Protocol
  import opened ProtocolInv

  // The key has an entry in the log, or a repair of that key was acknowledged.
  ghost predicate KeyKept(c: Cluster, k: string) {
    k in c.log || exists r :: r in c.repaired && KeyOf(r) == k
  }

  // A fresh sync is never given up without being logged.
  ghost predicate FreshOk(c: Cluster, t: Task) {
    !t.repair ==> t.phase != Dropped && (t.phase == Logged ==> t.info in c.logged)
  }

  ghost predicate Has(c: Cluster, m: SyncFileInfo) {
    exists i :: 0 <= i < |c.tasks| && c.tasks[i].info == m && !c.tasks[i].repair
  }

  // An acknowledged repair really was answered with Success.
  ghost predicate RepairSeen(c: Cluster, r: SyncFileInfo) {
    exists i :: 0 <= i < |c.tasks| && c.tasks[i].info == r && c.tasks[i].repair && c.tasks[i].phase == Acked
  }

  ghost predicate Conserved(c: Cluster) {
    && (forall i :: 0 <= i < |c.tasks| ==> FreshOk(c, c.tasks[i]))
    && (forall p, m :: p in c.uploads && m in c.uploads[p].Msgs() ==> Has(c, m))
    && (forall m :: m in c.asked ==> Has(c, m))
    && (forall r :: r in c.repaired ==> RepairSeen(c, r))
    && (forall m :: m in c.logged ==> KeyKept(c, KeyOf(m)))
  }

  // Tasks keep their place, message and kind; an acknowledged one stays acknowledged.
  ghost predicate TasksGrow(c: Cluster, c': Cluster) {
    && |c.tasks| <= |c'.tasks|
    && forall i :: 0 <= i < |c.tasks| ==>
         c'.tasks[i].info == c.tasks[i].info && c'.tasks[i].repair == c.tasks[i].repair
         && (c.tasks[i].phase == Acked ==> c'.tasks[i].phase == Acked)
  }

  ghost predicate KeysKept(c: Cluster, c': Cluster) {
    && (forall k :: KeyKept(c, k) ==> KeyKept(c', k))
    && c.logged <= c'.logged
  }

  lemma GrowsHas(c: Cluster, c': Cluster)
    requires TasksGrow(c, c')
    ensures forall m :: Has(c, m) ==> Has(c', m)
    ensures forall r :: RepairSeen(c, r) ==> RepairSeen(c', r)
  {
    forall m | Has(c, m) ensures Has(c', m) {
      var i :| 0 <= i < |c.tasks| && c.tasks[i].info == m && !c.tasks[i].repair;
      assert c'.tasks[i].info == m && !c'.tasks[i].repair;
    }
    forall r | RepairSeen(c, r) ensures RepairSeen(c', r) {
      var i :| 0 <= i < |c.tasks| && c.tasks[i].info == r && c.tasks[i].repair && c.tasks[i].phase == Acked;
      assert c'.tasks[i].info == r && c'.tasks[i].repair && c'.tasks[i].phase == Acked;
    }
  }

  // A step that changes one task or appends some, and loses no key.
  lemma ConservedStep(c: Cluster, c': Cluster)
    requires Conserved(c) && TasksGrow(c, c') && KeysKept(c, c')
    requires forall i :: 0 <= i < |c'.tasks| ==>
      (i < |c.tasks| && c'.tasks[i].phase == c.tasks[i].phase) || FreshOk(c', c'.tasks[i])
    requires forall p, m :: p in c'.uploads && m in c'.uploads[p].Msgs() ==>
      Has(c', m) || (p in c.uploads && m in c.uploads[p].Msgs())
    requires forall m :: m in c'.asked ==> m in c.asked || Has(c', m)
    requires forall r :: r in c'.repaired ==> r in c.repaired || RepairSeen(c', r)
    requires forall m :: m in c'.logged ==> m in c.logged || KeyKept(c', KeyOf(m))
    ensures Conserved(c')
  {
    hide KeyKept, KeyOf;
    GrowsHas(c, c');
    forall i | 0 <= i < |c'.tasks| ensures FreshOk(c', c'.tasks[i]) {
      if i < |c.tasks| && c'.tasks[i].phase == c.tasks[i].phase { assert FreshOk(c, c.tasks[i]); }
    }
  }

  lemma FailConserved(c: Cluster, i: nat)
    requires Conserved(c) && i < |c.tasks| && c.tasks[i].phase != Acked
    ensures Conserved(Fail(c, i))
  {
    hide KeyOf;
    var c' := Fail(c, i);
    assert !c.tasks[i].repair ==> KeyOf(c.tasks[i].info) in c'.log;
    assert KeysKept(c, c');
    ConservedStep(c, c');
  }

  lemma SucceedConserved(c: Cluster, i: nat)
    requires Conserved(c) && IsWaiting(c, i)
    ensures Conserved(Succeed(c, i))
  {
    hide KeyOf;
    var c' := Succeed(c, i);
    var t := c.tasks[i];
    assert KeysKept(c, c') by {
      forall k | KeyKept(c, k) ensures KeyKept(c', k) {
        if t.repair && k == KeyOf(t.info) { assert t.info in c'.repaired && KeyOf(t.info) == k; }
        else if k !in c.log {
          var r :| r in c.repaired && KeyOf(r) == k;
          assert r in c'.repaired && KeyOf(r) == k;
        }
      }
    }
    assert t.repair ==> RepairSeen(c', t.info) by { assert c'.tasks[i].info == t.info; }
    ConservedStep(c, c');
  }

  // Handling an answer starts a sync for every message of the new fan-out.
  lemma AnswerConserved(md5: Digest, c: Cluster, j: nat)
    requires Inv(md5, c) && Conserved(c) && Answerable(c, j)
    ensures Conserved(DoAnswer(c, j))
  {
    hide Inv, KeyOf, StoredPath, DoAnswer, Started, FanOut, StoredBy;
    var c', f := DoAnswer(c, j), c.flights[j];
    if f.reply.value.Stored? {
      var p := StoredPath(f.reply.value.filePath, f.reply.value.fileName);
      StoredFlight(md5, c, j);
      AnswerParts(c, j, p);
      FannedConserved(c, c', p);
    } else {
      AnswerRefused(c, j);
      QuietConserved(c, c');
    }
  }

  lemma FannedConserved(c: Cluster, c': Cluster, p: string)
    requires Conserved(c) && p in c'.uploads && c'.uploads == c.uploads[p := c'.uploads[p]]
    requires c'.tasks == c.tasks + Started(c'.uploads[p].Msgs())
    requires c'.log == c.log && c'.logged == c.logged && c'.repaired == c.repaired && c'.asked == c.asked
    ensures Conserved(c')
  {
    hide KeyOf, Started;
    var msgs := c'.uploads[p].Msgs();
    StartedAt(msgs);
    forall m | m in msgs ensures Has(c', m) {
      var i :| 0 <= i < |msgs| && msgs[i] == m;
      assert c'.tasks[|c.tasks| + i].info == m;
    }
    assert forall i :: |c.tasks| <= i < |c'.tasks| ==> c'.tasks[i] == Started(msgs)[i - |c.tasks|];
    ConservedStep(c, c');
  }

  // A save records its upload without any fan-out yet.
  lemma SaveConserved(md5: Digest, c: Cluster, j: nat, env: UploadEnv)
    requires Conserved(c) && Savable(c, j)
    ensures Conserved(DoSave(md5, c, j, env))
  {
    hide Upload, StoredPath, DoSave;
    SaveParts(md5, c, j, env);
    QuietConserved(c, DoSave(md5, c, j, env));
  }

  lemma DeleteConserved(c: Cluster, group: string, fileId: string, hash: string, file: string)
    requires Conserved(c) && group in c.tracker && ParseHeaderFilePath(file).Some?
    ensures Conserved(DoDelete(c, group, fileId, hash, file))
  {
    hide KeyOf, FanOut, ParseHeaderFilePath, Started;
    var c' := DoDelete(c, group, fileId, hash, file);
    var (filePath, fileName) := ParseHeaderFilePath(file).value;
    var msgs := FanOut(c.tracker[group].storages, DeleteAt(fileId, filePath, fileName, hash, group));
    StartedAt(msgs);
    assert c'.tasks == c.tasks + Started(msgs);
    assert forall i :: |c.tasks| <= i < |c'.tasks| ==> c'.tasks[i] == Started(msgs)[i - |c.tasks|];
    forall m | m in msgs ensures Has(c', m) {
      var i :| 0 <= i < |msgs| && msgs[i] == m;
      assert c'.tasks[|c.tasks| + i].info == m;
    }
    ConservedStep(c, c');
  }

  lemma QuietConserved(c: Cluster, c': Cluster)
    requires Conserved(c) && TasksGrow(c, c') && c'.log == c.log && c'.logged == c.logged && c'.repaired == c.repaired
    requires c'.asked == c.asked
    requires forall p, m :: p in c'.uploads && m in c'.uploads[p].Msgs() ==> p in c.uploads && m in c.uploads[p].Msgs()
    requires forall i :: 0 <= i < |c'.tasks| ==>
      (i < |c.tasks| && c'.tasks[i].phase == c.tasks[i].phase)
      || c'.tasks[i].repair || c'.tasks[i].phase in {Pending, Waiting, Lost}
    ensures Conserved(c')
  {
    hide KeyOf;
    assert KeysKept(c, c');
    ConservedStep(c, c');
  }

  lemma NextConserved(md5: Digest, c: Cluster, s: Step)
    requires Inv(md5, c) && Conserved(c)
    ensures Conserved(Next(md5, c, s))
  {
    hide Conserved, NodesOk, RegistryOk, UploadsOk, PathsOk, LogsOk, SyncOk, FlightsOk, DoReport, DoSave, DoAnswer,
      DoMiss, DoDelete, DoDeliver, DoCrash, Fail, Succeed, Collect, AbortStep, Usable, Consider, Routed;
    if Enabled(c, s) {
      match s {
        case Report(a, free, time, now) => ReportConserved(c, a, free, time, now);
        case SaveUpload(j, env) => SaveConserved(md5, c, j, env);
        case AnswerUpload(j) => AnswerConserved(md5, c, j);
        case MissAnswer(j, aborts) => MissConserved(c, j, aborts);
        case DeleteFile(group, fileId, hash, file) => DeleteConserved(c, group, fileId, hash, file);
        case SkipUnusable(i) => FailConserved(c, i);
        case Answer(i) =>
          if c.tasks[i].wire.answer == Some(SUCCESS) { SucceedConserved(c, i); } else { FailConserved(c, i); }
        case GiveUp(i) => FailConserved(c, i);
        case DeliverTask(i, at) => DeliverConserved(md5, c, i, at);
        case CrashTracker => CrashConserved(c);
        case _ => QuietConserved(c, Next(md5, c, s));
      }
    }
  }

  lemma ReportConserved(c: Cluster, a: string, free: nat, time: int, now: int)
    requires Conserved(c) && a in c.nodes
    ensures Conserved(DoReport(c, a, free, time, now))
  {
    hide Conserved, ReportStep, AddrOf, HostOf;
    QuietConserved(c, DoReport(c, a, free, time, now));
  }

  lemma MissConserved(c: Cluster, j: nat, aborts: bool)
    requires Conserved(c) && j < |c.flights|
    ensures Conserved(DoMiss(c, j, aborts))
  {
    hide Conserved, AbortStep;
    QuietConserved(c, DoMiss(c, j, aborts));
  }

  lemma DeliverConserved(md5: Digest, c: Cluster, i: nat, at: DeliverFate)
    requires Conserved(c) && i < |c.tasks|
    ensures Conserved(DoDeliver(md5, c, i, at))
  {
    hide Conserved, Deliver, Damage, OpOf, HostOf;
    QuietConserved(c, DoDeliver(md5, c, i, at));
  }

  lemma CrashConserved(c: Cluster)
    requires Conserved(c)
    ensures Conserved(DoCrash(c))
  {
    hide Conserved;
    QuietConserved(c, DoCrash(c));
  }

  lemma {:induction false} RunConserved(md5: Digest, c: Cluster, steps: seq<Step>)
    requires Init(c)
    ensures Conserved(After(md5, c, steps))
  {
    if steps != [] {
      RunInv(md5, c, steps[..|steps| - 1]);
      RunConserved(md5, c, steps[..|steps| - 1]);
      NextConserved(md5, After(md5, c, steps[..|steps| - 1]), steps[|steps| - 1]);
    }
  }

  // Where a replication duty can stand.
  ghost predicate Accounted(c: Cluster, t: Task) {
    match t.phase
    case Pending => true
    case Waiting => true
    case Acked => t.wire == Delivered(Some(SUCCESS))
    case Logged => KeyKept(c, KeyOf(t.info))
    case Dropped => false
    case Lost => true
  }

  // m has a first sync with an account.
  ghost predicate HasAccounted(c: Cluster, m: SyncFileInfo) {
    exists i :: 0 <= i < |c.tasks| && c.tasks[i].info == m && !c.tasks[i].repair && Accounted(c, c.tasks[i])
  }

  lemma HasAccount(md5: Digest, c: Cluster, m: SyncFileInfo)
    requires Inv(md5, c) && Conserved(c) && Has(c, m)
    ensures HasAccounted(c, m)
  {
    var i :| 0 <= i < |c.tasks| && c.tasks[i].info == m && !c.tasks[i].repair;
    assert TaskOk(c, c.tasks[i]) && FreshOk(c, c.tasks[i]);
    assert Accounted(c, c.tasks[i]);
  }

  // No duty is silently lost: in every reachable state every message of an upload's fan-out
  // has its sync, which is in progress, or was answered with Success, or is logged with its key
  // in the log or already repaired, or was cut off by a crash of the tracker.
  lemma NoDutySilentlyLost(md5: Digest, c0: Cluster, steps: seq<Step>, p: string, m: SyncFileInfo)
    requires Init(c0)
    requires var c := After(md5, c0, steps); p in c.uploads && m in c.uploads[p].Msgs()
    ensures HasAccounted(After(md5, c0, steps), m)
  {
    var c := After(md5, c0, steps);
    RunInv(md5, c0, steps);
    RunConserved(md5, c0, steps);
    HasAccount(md5, c, m);
  }

  // The same for deletes: every storage registered in the group when a delete was accepted has a
  // sync for it with such an account, in every state that may follow.
  lemma NoDeleteSilentlyLost(md5: Digest, c0: Cluster, steps: seq<Step>, group: string, fileId: string, hash: string,
                             file: string, more: seq<Step>, b: string)
    requires Init(c0)
    requires var c := After(md5, c0, steps); Registered(c.tracker, group, b) && ParseHeaderFilePath(file).Some?
    ensures var c := After(md5, c0, steps);
      var c2 := After(md5, c0, steps + [DeleteFile(group, fileId, hash, file)] + more);
      var path, s := ParseHeaderFilePath(file).value, c.tracker[group].storages[b];
      var url := s.schema + "://" + s.addr;
      HasAccounted(c2, SyncFileInfo("", url, fileId, path.0, path.1, hash, SYNC_DELETE, group))
  {
    hide Inv, ParseHeaderFilePath, After, Next, Conserved;
    var c, s := After(md5, c0, steps), DeleteFile(group, fileId, hash, file);
    var path := ParseHeaderFilePath(file).value;
    var m := DeleteMessage(c.tracker[group].storages[b], fileId, path.0, path.1, hash, group);
    AfterAppend(md5, c0, steps, s);
    AfterConcat(md5, c0, steps + [s], more);
    RunInv(md5, c0, steps);
    NextInv(md5, c, s);
    DeleteAsked(md5, c, group, fileId, hash, file, b);
    RunGrows(md5, Next(md5, c, s), more);
    AskedAccounted(md5, c0, steps + [s] + more, m);
  }

  lemma DeleteAsked(md5: Digest, c: Cluster, group: string, fileId: string, hash: string, file: string, b: string)
    requires Registered(c.tracker, group, b) && ParseHeaderFilePath(file).Some?
    ensures var path := ParseHeaderFilePath(file).value;
      DeleteMessage(c.tracker[group].storages[b], fileId, path.0, path.1, hash, group)
      in Next(md5, c, DeleteFile(group, fileId, hash, file)).asked
  {
    hide FanOut, Started, ParseHeaderFilePath;
    var path := ParseHeaderFilePath(file).value;
    var make := DeleteAt(fileId, path.0, path.1, hash, group);
    var m := c.tracker[group].storages;
    FanOutComplete(m, make);
    assert make(m[b]) == Some(DeleteMessage(m[b], fileId, path.0, path.1, hash, group));
  }

  lemma AskedAccounted(md5: Digest, c0: Cluster, steps: seq<Step>, m: SyncFileInfo)
    requires Init(c0) && m in After(md5, c0, steps).asked
    ensures HasAccounted(After(md5, c0, steps), m)
  {
    var c := After(md5, c0, steps);
    RunInv(md5, c0, steps);
    RunConserved(md5, c0, steps);
    HasAccount(md5, c, m);
  }

  // Only a crash cuts syncs off.
  lemma {:induction false} OnlyCrashCutsOff(md5: Digest, c0: Cluster, steps: seq<Step>, i: nat)
    requires Init(c0) && forall j :: 0 <= j < |steps| ==> steps[j] != CrashTracker
    requires i < |After(md5, c0, steps).tasks|
    ensures After(md5, c0, steps).tasks[i].phase != Lost
  {
    if steps != [] {
      var pre := steps[..|steps| - 1];
      var c, s := After(md5, c0, pre), steps[|steps| - 1];
      forall j: nat | j < |c.tasks| ensures c.tasks[j].phase != Lost { OnlyCrashCutsOff(md5, c0, pre, j); }
      NoNewLoss(md5, c, s, i);
    }
  }

  lemma SettledPhases(c: Cluster, i: nat)
    requires i < |c.tasks|
    ensures |Fail(c, i).tasks| == |Succeed(c, i).tasks| == |c.tasks|
    ensures forall j :: 0 <= j < |c.tasks| && c.tasks[j].phase != Lost ==>
      Fail(c, i).tasks[j].phase != Lost && Succeed(c, i).tasks[j].phase != Lost
  {
    hide KeyOf;
  }

  lemma NoNewLoss(md5: Digest, c: Cluster, s: Step, i: nat)
    requires s != CrashTracker && forall j :: 0 <= j < |c.tasks| ==> c.tasks[j].phase != Lost
    requires i < |Next(md5, c, s).tasks|
    ensures Next(md5, c, s).tasks[i].phase != Lost
  {
    hide Upload, FanOut, Started, Deliver, ReportStep, AbortStep, Collect, ParseHeaderFilePath, KeyOf, Decimal,
      HostOf, AddrOf, Damage, OpOf, StoredPath, Fail, Succeed, DoAnswer, Usable, Consider, Routed, DoSave, DoMiss,
      DoDeliver;
    if Enabled(c, s) {
      match s {
        case SkipUnusable(k) => SettledPhases(c, k);
        case Answer(k) => SettledPhases(c, k);
        case GiveUp(k) => SettledPhases(c, k);
        case AnswerUpload(j) => AnsweredPhases(c, j);
        case SaveUpload(j, env) => SaveParts(md5, c, j, env);
        case DeliverTask(k, at) => DeliveredPhases(md5, c, k, at);
        case MissAnswer(j, aborts) => assert DoMiss(c, j, aborts).tasks == c.tasks by { MissedTasks(c, j, aborts); }
        case DeleteFile(group, fileId, hash, file) =>
          var (filePath, fileName) := ParseHeaderFilePath(file).value;
          StartedAt(FanOut(c.tracker[group].storages, DeleteAt(fileId, filePath, fileName, hash, group)));
        case _ =>
      }
    }
  }

  lemma MissedTasks(c: Cluster, j: nat, aborts: bool)
    requires j < |c.flights|
    ensures DoMiss(c, j, aborts).tasks == c.tasks
  {
  }

  lemma DeliveredPhases(md5: Digest, c: Cluster, i: nat, at: DeliverFate)
    requires i < |c.tasks|
    ensures var c' := DoDeliver(md5, c, i, at);
      |c'.tasks| == |c.tasks| && forall j :: 0 <= j < |c.tasks| ==> c'.tasks[j].phase == c.tasks[j].phase
  {
    hide Deliver, Damage, OpOf, HostOf;
  }

  lemma AnsweredPhases(c: Cluster, j: nat)
    requires Answerable(c, j)
    ensures var c' := DoAnswer(c, j);
      |c.tasks| <= |c'.tasks| && forall i :: 0 <= i < |c'.tasks| ==>
        if i < |c.tasks| then c'.tasks[i] == c.tasks[i] else c'.tasks[i].phase == Pending
  {
    hide FanOut, Started, StoredPath;
    var r, f := c.flights[j].reply.value, c.flights[j];
    if r.Stored? {
      StartedAt(FanOut(c.tracker[f.group].storages, AddTo(c.tracker[f.group].storages[f.a], r.info, r.filePath,
                r.fileName, f.group)));
    }
  }

  // --- Exact accounting for a single destination ---

  // Two ADD messages of stored uploads with the same log key belong to the same upload.
  lemma SameKeySameUpload(md5: Digest, c: Cluster, m1: SyncFileInfo, m2: SyncFileInfo)
    requires UploadsOk(md5, c) && SyncOk(c.uploads, c.deletes, m1) && SyncOk(c.uploads, c.deletes, m2)
    requires m1.action == SYNC_ADD && KeyOf(m1) == KeyOf(m2)
    ensures m2.action == SYNC_ADD && PathOf(m1) == PathOf(m2)
  {
    hide PathOf, NameId, HostOf;
    LogKeyInjective(m1.fileName, m1.action, m2.fileName, m2.action);
    var r1, r2 := c.uploads[PathOf(m1)], c.uploads[PathOf(m2)];
    assert RecordOk(md5, c.nodes, c.ids, PathOf(m1), r1) && RecordOk(md5, c.nodes, c.ids, PathOf(m2), r2);
    assert MsgOk(c.nodes, r1, m1) && MsgOk(c.nodes, r2, m2);
  }

  // The log still names this very message, or a repair of it was answered with Success.
  ghost predicate Exact(c: Cluster, m: SyncFileInfo) {
    (KeyOf(m) in c.log && c.log[KeyOf(m)] == m) || (m in c.repaired && RepairSeen(c, m))
  }

  // No other message with its file name and action was ever logged.
  ghost predicate Unrivalled(c: Cluster, m: SyncFileInfo) {
    forall x :: x in c.logged && x.fileName == m.fileName && x.action == m.action ==> x == m
  }

  // In every reachable state a logged message is accounted for by itself while it is unrivalled.
  lemma UnrivalledExact(md5: Digest, c0: Cluster, steps: seq<Step>, m: SyncFileInfo)
    requires Init(c0)
    requires var c := After(md5, c0, steps); m in c.logged && Unrivalled(c, m)
    ensures Exact(After(md5, c0, steps), m)
  {
    hide NodesOk, RegistryOk, UploadsOk, PathsOk, TasksOk, FlightsOk, PathOf, After;
    var c := After(md5, c0, steps);
    RunInv(md5, c0, steps);
    RunConserved(md5, c0, steps);
    forall x | x in c.logged && KeyOf(x) == KeyOf(m) ensures x == m {
      assert SyncOk(c.uploads, c.deletes, x) && SyncOk(c.uploads, c.deletes, m);
      LogKeyInjective(x.fileName, x.action, m.fileName, m.action);
    }
    if KeyOf(m) in c.log {
      assert c.log[KeyOf(m)] in c.logged;
    } else {
      var r :| r in c.repaired && KeyOf(r) == KeyOf(m);
      assert r in c.logged;
    }
  }

  // The i-th sync is one of the upload stored at p, and was logged.
  ghost predicate LoggedSync(c: Cluster, p: string, i: nat)
    requires p in c.uploads
  {
    i < |c.tasks| && !c.tasks[i].repair && c.tasks[i].phase == Logged && c.tasks[i].info in c.uploads[p].Msgs()
  }

  // With at most one destination (a group of at most two storages), a logged sync is still the
  // log's own entry for its key, or a repair of exactly this message was answered with Success.
  lemma SingleDestinationExact(md5: Digest, c0: Cluster, steps: seq<Step>, p: string, i: nat)
    requires Init(c0)
    requires var c := After(md5, c0, steps); p in c.uploads && |c.uploads[p].Msgs()| <= 1 && LoggedSync(c, p, i)
    ensures var c := After(md5, c0, steps); Exact(c, c.tasks[i].info)
  {
    hide Inv, KeyKept, Exact, After;
    var c := After(md5, c0, steps);
    var m := c.tasks[i].info;
    RunInv(md5, c0, steps);
    RunConserved(md5, c0, steps);
    OnlyMessage(md5, c, p, m);
    assert FreshOk(c, c.tasks[i]);
    UnrivalledExact(md5, c0, steps, m);
  }

  // The only logged message under the key of a single-destination upload is its own.
  lemma OnlyMessage(md5: Digest, c: Cluster, p: string, m: SyncFileInfo)
    requires Inv(md5, c) && p in c.uploads && m in c.uploads[p].Msgs() && |c.uploads[p].Msgs()| <= 1
    ensures forall x :: x in c.logged && KeyOf(x) == KeyOf(m) ==> x == m
  {
    hide PathOf, TargetPath, KeyOf, NodesOk, RegistryOk, PathsOk, TasksOk, Decimal, GenFileName, GenFilePath,
      HostOf;
    MsgAtPath(md5, c, p, m);
    forall x | x in c.logged && KeyOf(x) == KeyOf(m) ensures x == m {
      SameKeySameUpload(md5, c, m, x);
    }
  }
}
