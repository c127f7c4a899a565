// The storage object a sync holds on to: what the tracker sees of a destination when a sync is
// sent or skipped, and which syncs it then sends.
module Captured {
  import opened Lib
  import opened Names
  import opened Membership
  import opened Routing
  import opened Nodes
  import opened Replication
  import opened Repairs
  import opened Protocol
  import opened ProtocolInv
  import opened Conservation
  import opened Loss

  // The slot of the storage a sync goes to.
  predicate Filed(t: TrackerState, m: SyncFileInfo) {
    Registered(t, m.group, HostOf(m.dst))
  }

  function StatusAt(t: TrackerState, m: SyncFileInfo): StorageStatus
    requires Filed(t, m)
  {
    t[m.group].storages[HostOf(m.dst)].status
  }

  // --- What the tracker sends ---

  // A pending sync of an upload can be sent exactly if the object it holds shows Active, one of a
  // delete exactly if that object does not show Offline; the other ones can only be skipped.
  lemma SendsIff(c: Cluster, i: nat)
    requires IsPending(c, i) && IsAction(c.tasks[i].info.action)
    ensures var s, m := SeenStatus(c.tracker, c.tasks[i]), c.tasks[i].info;
      && (m.action == SYNC_ADD ==> (Enabled(c, Send(i)) <==> s == StorageActive))
      && (m.action == SYNC_DELETE ==> (Enabled(c, Send(i)) <==> s != StorageOffline))
      && (Enabled(c, SkipUnusable(i)) <==> !Enabled(c, Send(i)))
  {
    hide SeenStatus;
  }

  // --- What a sync sees ---

  // The step is an accepted report of the storage at d of group g.
  ghost predicate Replaces(c: Cluster, s: Step, g: string, d: string) {
    s.Report? && s.a == d && Reports(c.nodes, g, d)
  }

  // Each step keeps what a sync holds, but the first accepted report of its storage: from then on
  // it sees the last status of the replaced object.
  lemma HeldOn(md5: Digest, c: Cluster, s: Step, i: nat)
    requires NodesOk(c) && i < |c.tasks| && s != CrashTracker
    ensures var c' := Next(md5, c, s); var t, m := c.tasks[i], c.tasks[i].info;
      && i < |c'.tasks| && c'.tasks[i].info == m && (Filed(c.tracker, m) ==> Filed(c'.tracker, m))
      && c'.tasks[i].frozen ==
           if t.frozen.None? && Filed(c.tracker, m) && Replaces(c, s, m.group, HostOf(m.dst))
           then Some(StatusAt(c.tracker, m)) else t.frozen
  {
    hide HostOf, Upload, FanOut, Started, Deliver, Collect, KeyOf, Decimal, Damage, OpOf, StoredPath, Fail,
      Succeed, Usable, Consider, Routed, DoReport, DoAnswer, DoMiss, DoDelete, DoSave, DoDeliver, AbortStep;
    if Enabled(c, s) {
      match s {
        case Report(a, free, time, now) => ReportHolds(c, a, free, time, now, i);
        case ProxyAbort(group, a) => AbortFiled(c.tracker, group, a, c.tasks[i].info);
        case SaveUpload(j, env) => SaveParts(md5, c, j, env);
        case AnswerUpload(j) => AnswerHolds(c, j, i);
        case MissAnswer(j, aborts) => MissHolds(c, j, aborts, i);
        case DeleteFile(group, fileId, hash, file) => DeleteHolds(c, group, fileId, hash, file, i);
        case DeliverTask(k, at) => DeliverHolds(md5, c, k, at, i);
        case SkipUnusable(k) => SettledHolds(c, k, i);
        case Answer(k) => SettledHolds(c, k, i);
        case GiveUp(k) => SettledHolds(c, k, i);
        case _ =>
      }
    }
  }

  lemma ReportHolds(c: Cluster, a: string, free: nat, time: int, now: int, i: nat)
    requires NodesOk(c) && a in c.nodes && i < |c.tasks|
    ensures var c' := DoReport(c, a, free, time, now); var t, m := c.tasks[i], c.tasks[i].info;
      && i < |c'.tasks| && c'.tasks[i].info == m && (Filed(c.tracker, m) ==> Filed(c'.tracker, m))
      && c'.tasks[i].frozen ==
           if t.frozen.None? && Filed(c.tracker, m) && a == HostOf(m.dst) && Reports(c.nodes, m.group, a)
           then Some(StatusAt(c.tracker, m)) else t.frozen
  {
    hide HostOf, JoinHostPort;
    assert ConfOk(a, c.nodes[a].conf);
  }

  lemma AbortFiled(t: TrackerState, group: string, a: string, m: SyncFileInfo)
    ensures Filed(t, m) ==> Filed(AbortStep(t, group, a), m)
  {
    hide HostOf;
  }

  lemma AnswerHolds(c: Cluster, j: nat, i: nat)
    requires Answerable(c, j) && i < |c.tasks|
    ensures var c' := DoAnswer(c, j); i < |c'.tasks| && c'.tasks[i] == c.tasks[i] && c'.tracker == c.tracker
  {
    hide FanOut, Started, StoredPath;
  }

  lemma MissHolds(c: Cluster, j: nat, aborts: bool, i: nat)
    requires j < |c.flights| && i < |c.tasks|
    ensures var c' := DoMiss(c, j, aborts); c'.tasks == c.tasks
    ensures Filed(c.tracker, c.tasks[i].info) ==> Filed(DoMiss(c, j, aborts).tracker, c.tasks[i].info)
  {
    hide HostOf, AbortStep;
    AbortFiled(c.tracker, c.flights[j].group, c.flights[j].a, c.tasks[i].info);
  }

  lemma DeleteHolds(c: Cluster, group: string, fileId: string, hash: string, file: string, i: nat)
    requires group in c.tracker && ParseHeaderFilePath(file).Some? && i < |c.tasks|
    ensures var c' := DoDelete(c, group, fileId, hash, file);
      i < |c'.tasks| && c'.tasks[i] == c.tasks[i] && c'.tracker == c.tracker
  {
    hide FanOut, Started, ParseHeaderFilePath;
  }

  lemma DeliverHolds(md5: Digest, c: Cluster, k: nat, at: DeliverFate, i: nat)
    requires k < |c.tasks| && i < |c.tasks|
    ensures var c' := DoDeliver(md5, c, k, at);
      && |c'.tasks| == |c.tasks| && c'.tracker == c.tracker
      && c'.tasks[i].info == c.tasks[i].info && c'.tasks[i].frozen == c.tasks[i].frozen
  {
    hide Deliver, Damage, OpOf, HostOf;
  }

  lemma SettledHolds(c: Cluster, k: nat, i: nat)
    requires k < |c.tasks| && i < |c.tasks|
    ensures |Fail(c, k).tasks| == |Succeed(c, k).tasks| == |c.tasks|
    ensures Fail(c, k).tasks[i].info == Succeed(c, k).tasks[i].info == c.tasks[i].info
    ensures Fail(c, k).tasks[i].frozen == Succeed(c, k).tasks[i].frozen == c.tasks[i].frozen
    ensures Fail(c, k).tracker == Succeed(c, k).tracker == c.tracker
  {
    hide KeyOf;
  }

  // No step of the run is an accepted report of the storage m goes to.
  ghost predicate Unreplaced(c: Cluster, steps: seq<Step>, m: SyncFileInfo) {
    forall k :: 0 <= k < |steps| ==> !Replaces(c, steps[k], m.group, HostOf(m.dst))
  }

  predicate NoCrash(steps: seq<Step>) {
    forall k :: 0 <= k < |steps| ==> steps[k] != CrashTracker
  }

  // As long as no report replaces its object, a sync sees the status of its slot in the registry.
  lemma {:induction false} SeesItsSlot(md5: Digest, c: Cluster, steps: seq<Step>, i: nat)
    requires Inv(md5, c) && i < |c.tasks| && c.tasks[i].frozen.None? && Filed(c.tracker, c.tasks[i].info)
    requires NoCrash(steps) && Unreplaced(c, steps, c.tasks[i].info)
    ensures var c', m := After(md5, c, steps), c.tasks[i].info;
      && i < |c'.tasks| && c'.tasks[i].info == m && c'.tasks[i].frozen.None? && Filed(c'.tracker, m)
      && SeenStatus(c'.tracker, c'.tasks[i]) == StatusAt(c'.tracker, m)
  {
    hide Inv, Next, HostOf, Reports, StatusAt;
    if steps != [] {
      var n := |steps| - 1;
      var mid, m := After(md5, c, steps[..n]), c.tasks[i].info;
      SeesItsSlot(md5, c, steps[..n], i);
      RunGrows(md5, c, steps[..n]);
      GrownNodes(md5, c, mid, m.group, HostOf(m.dst));
      HeldOn(md5, mid, steps[n], i);
    }
    SlotSeen(After(md5, c, steps), i);
  }

  lemma SlotSeen(c: Cluster, i: nat)
    requires i < |c.tasks| && c.tasks[i].frozen.None? && Filed(c.tracker, c.tasks[i].info)
    ensures SeenStatus(c.tracker, c.tasks[i]) == StatusAt(c.tracker, c.tasks[i].info)
  {
    hide HostOf;
  }

  // What was seen of a replaced object does not change any more.
  lemma {:induction false} SeenStays(md5: Digest, c: Cluster, steps: seq<Step>, i: nat)
    requires Inv(md5, c) && i < |c.tasks| && c.tasks[i].frozen.Some? && NoCrash(steps)
    ensures var c' := After(md5, c, steps);
      && i < |c'.tasks| && c'.tasks[i].info == c.tasks[i].info && c'.tasks[i].frozen == c.tasks[i].frozen
      && SeenStatus(c'.tracker, c'.tasks[i]) == c.tasks[i].frozen.value
  {
    hide Inv, Next, HostOf, Reports;
    if steps != [] {
      var n := |steps| - 1;
      var mid := After(md5, c, steps[..n]);
      SeenStays(md5, c, steps[..n], i);
      RunGrows(md5, c, steps[..n]);
      GrownNodes(md5, c, mid, "", "");
      HeldOn(md5, mid, steps[n], i);
    }
  }

  // From the first report on that replaces its object, a sync sees for good the status its slot
  // had just before that report.
  lemma SeesItsObject(md5: Digest, c: Cluster, steps: seq<Step>, k: nat, i: nat)
    requires Inv(md5, c) && i < |c.tasks| && c.tasks[i].frozen.None? && Filed(c.tracker, c.tasks[i].info)
    requires NoCrash(steps) && k < |steps| && Unreplaced(c, steps[..k], c.tasks[i].info)
    requires Replaces(c, steps[k], c.tasks[i].info.group, HostOf(c.tasks[i].info.dst))
    ensures var before, c', m := After(md5, c, steps[..k]), After(md5, c, steps), c.tasks[i].info;
      && Filed(before.tracker, m) && i < |c'.tasks| && c'.tasks[i].info == m
      && SeenStatus(c'.tracker, c'.tasks[i]) == StatusAt(before.tracker, m)
  {
    hide Inv, Next, HostOf, Reports, StatusAt, SeenStatus, After;
    var m, mid := c.tasks[i].info, After(md5, c, steps[..k]);
    SeesItsSlot(md5, c, steps[..k], i);
    RunGrows(md5, c, steps[..k]);
    GrownNodes(md5, c, mid, m.group, HostOf(m.dst));
    HeldOn(md5, mid, steps[k], i);
    NextInv(md5, mid, steps[k]);
    AfterAppend(md5, c, steps[..k], steps[k]);
    AfterConcat(md5, c, steps[..k] + [steps[k]], steps[k + 1..]);
    assert steps[..k] + [steps[k]] + steps[k + 1..] == steps;
    SeenStays(md5, Next(md5, mid, steps[k]), steps[k + 1..], i);
  }

  lemma GrownNodes(md5: Digest, c: Cluster, c': Cluster, g: string, d: string)
    requires Inv(md5, c') && Grows(c, c')
    ensures NodesOk(c') && (Reports(c'.nodes, g, d) <==> Reports(c.nodes, g, d))
  {
    hide RegistryOk, UploadsOk, PathsOk, TasksOk, LogsOk, FlightsOk, FlightsGrow;
  }

  // --- Every sync that may still be sent holds an object ---

  ghost predicate Holding(c: Cluster, t: Task) {
    t.phase == Pending && !t.repair ==> t.frozen.Some? || Filed(c.tracker, t.info)
  }

  ghost predicate AllHolding(c: Cluster) {
    forall i :: 0 <= i < |c.tasks| ==> Holding(c, c.tasks[i])
  }

  // A step that starts no sync of an upload or a delete.
  lemma StillHolding(md5: Digest, c: Cluster, s: Step)
    requires Inv(md5, c) && AllHolding(c) && !s.AnswerUpload? && !s.DeleteFile? && s != CrashTracker
    ensures AllHolding(Next(md5, c, s))
  {
    hide NodesOk, RegistryOk, UploadsOk, PathsOk, TasksOk, LogsOk, FlightsOk, Next, Filed;
    var c' := Next(md5, c, s);
    OldPhases(md5, c, s);
    forall i | 0 <= i < |c'.tasks| ensures Holding(c', c'.tasks[i]) {
      if i < |c.tasks| {
        HeldOn(md5, c, s, i);
        assert Holding(c, c.tasks[i]);
      }
    }
  }

  // Such a step makes no sync pending again, and starts none that is.
  lemma OldPhases(md5: Digest, c: Cluster, s: Step)
    requires !s.AnswerUpload? && !s.DeleteFile?
    ensures var c' := Next(md5, c, s);
      && |c.tasks| <= |c'.tasks|
      && (forall i :: 0 <= i < |c.tasks| && c'.tasks[i].phase == Pending && !c'.tasks[i].repair ==>
            c.tasks[i].phase == Pending && !c.tasks[i].repair)
      && forall i :: |c.tasks| <= i < |c'.tasks| ==> c'.tasks[i].repair
  {
    hide HostOf, Upload, FanOut, Started, Deliver, Collect, KeyOf, Decimal, Damage, OpOf, StoredPath, Usable,
      Consider, Routed, AbortStep, ReportStep, AddrOf, Fail, Succeed, DoSave, DoMiss;
    if Enabled(c, s) {
      match s {
        case SaveUpload(j, env) => SaveParts(md5, c, j, env);
        case MissAnswer(j, aborts) => MissedTasks(c, j, aborts);
        case SkipUnusable(k) => SettledPending(c, k);
        case Answer(k) => SettledPending(c, k);
        case GiveUp(k) => SettledPending(c, k);
        case _ =>
      }
    }
  }

  lemma SettledPending(c: Cluster, k: nat)
    requires k < |c.tasks|
    ensures |Fail(c, k).tasks| == |Succeed(c, k).tasks| == |c.tasks|
    ensures forall i :: 0 <= i < |c.tasks| ==>
      && (Fail(c, k).tasks[i] == c.tasks[i] || Fail(c, k).tasks[i].phase != Pending)
      && (Succeed(c, k).tasks[i] == c.tasks[i] || Succeed(c, k).tasks[i].phase != Pending)
  {
    hide KeyOf;
  }

  lemma StartedHolding(c: Cluster, c': Cluster, msgs: seq<SyncFileInfo>)
    requires AllHolding(c) && c'.tasks == c.tasks + Started(msgs) && c'.tracker == c.tracker
    requires forall m :: m in msgs ==> Filed(c.tracker, m)
    ensures AllHolding(c')
  {
    hide Filed, Started;
    StartedAt(msgs);
    forall i | 0 <= i < |c'.tasks| ensures Holding(c', c'.tasks[i]) {
      if i < |c.tasks| { assert Holding(c, c.tasks[i]); } else { assert msgs[i - |c.tasks|] in msgs; }
    }
  }

  lemma AnswerHolding(md5: Digest, c: Cluster, j: nat)
    requires Inv(md5, c) && AllHolding(c) && Answerable(c, j)
    ensures AllHolding(DoAnswer(c, j))
  {
    hide UploadsOk, PathsOk, TasksOk, LogsOk, FlightsOk, DoAnswer, StoredPath, FanOut, Started, StoredBy, ConfOk,
      Reports, HostOf;
    var c', f := DoAnswer(c, j), c.flights[j];
    if f.reply.value.Stored? {
      var p, r := StoredPath(f.reply.value.filePath, f.reply.value.fileName), f.reply.value;
      StoredFlight(md5, c, j);
      AnswerParts(c, j, p);
      RegisteredAddressed(c, f.group);
      var m := c.tracker[f.group].storages;
      var msgs := FanOut(m, AddTo(m[f.a], r.info, r.filePath, r.fileName, f.group));
      AddFanOut(m, f.a, r.info, r.filePath, r.fileName, f.group);
      forall x | x in msgs ensures Filed(c.tracker, x) { MessageFiled(m, x); }
      StartedHolding(c, c', msgs);
    } else {
      AnswerRefused(c, j);
      forall i | 0 <= i < |c'.tasks| ensures Holding(c', c'.tasks[i]) { assert Holding(c, c.tasks[i]); }
    }
  }

  // A message addressed to a storage of the group goes to that storage's slot.
  lemma MessageFiled(m: Storages, x: SyncFileInfo)
    requires Addressed(m) && exists b :: b in m && x.dst == m[b].schema + "://" + b
    ensures HostOf(x.dst) in m
  {
    var b :| b in m && x.dst == m[b].schema + "://" + b;
    HostOfBaseUrl(m[b].schema, b);
  }

  lemma DeleteHolding(md5: Digest, c: Cluster, group: string, fileId: string, hash: string, file: string)
    requires Inv(md5, c) && AllHolding(c) && group in c.tracker && ParseHeaderFilePath(file).Some?
    ensures AllHolding(DoDelete(c, group, fileId, hash, file))
  {
    hide UploadsOk, PathsOk, TasksOk, LogsOk, FlightsOk, FanOut, Started, ParseHeaderFilePath, ConfOk, Reports,
      HostOf;
    var (filePath, fileName) := ParseHeaderFilePath(file).value;
    var m := c.tracker[group].storages;
    var msgs := FanOut(m, DeleteAt(fileId, filePath, fileName, hash, group));
    RegisteredAddressed(c, group);
    DeleteFanOut(m, fileId, filePath, fileName, hash, group);
    forall x | x in msgs ensures Filed(c.tracker, x) { MessageFiled(m, x); }
    StartedHolding(c, DoDelete(c, group, fileId, hash, file), msgs);
  }

  lemma CrashHolding(c: Cluster)
    ensures AllHolding(DoCrash(c))
  {
  }

  lemma NextHolding(md5: Digest, c: Cluster, s: Step)
    requires Inv(md5, c) && AllHolding(c)
    ensures AllHolding(Next(md5, c, s))
  {
    hide NodesOk, RegistryOk, UploadsOk, PathsOk, TasksOk, LogsOk, FlightsOk, AllHolding, DoAnswer, DoDelete,
      DoCrash;
    match s {
      case AnswerUpload(j) => if Enabled(c, s) { AnswerHolding(md5, c, j); }
      case DeleteFile(group, fileId, hash, file) =>
        if Enabled(c, s) { DeleteHolding(md5, c, group, fileId, hash, file); }
      case CrashTracker => CrashHolding(c);
      case _ => StillHolding(md5, c, s);
    }
  }

  // In every reachable state each sync that may still be sent holds the object in its slot, or one
  // that a report has replaced; so what it sees is always the status of its object.
  lemma {:induction false} RunHolding(md5: Digest, c0: Cluster, steps: seq<Step>)
    requires Init(c0)
    ensures AllHolding(After(md5, c0, steps))
  {
    hide Inv, Next, Holding;
    if steps != [] {
      var pre := steps[..|steps| - 1];
      RunInv(md5, c0, pre);
      RunHolding(md5, c0, pre);
      NextHolding(md5, After(md5, c0, pre), steps[|steps| - 1]);
    }
  }
}
