// Runs after which nothing is under way for a destination that lacks the file's bytes: one of two
// destinations is forgotten, or a repaired copy is cut off by a late request.
module LogRuns {
  import opened Lib
  import opened Names
  import opened Membership
  import opened Nodes
  import opened Replication
  import opened Repairs
  import opened Routing
  import opened Protocol
  import opened ProtocolInv
  import opened Conservation
  import opened Contents
  import opened Loss
  import opened FirstSyncs
  import opened Copies
  import opened Guarantees

  // Nothing is under way for m: its syncs have finished, no request for it is travelling, and its
  // key is not in the log.
  ghost predicate Settled(c: Cluster, m: SyncFileInfo) {
    Done(c, m) && forall i :: 0 <= i < |c.tasks| && c.tasks[i].info == m ==> c.tasks[i].wire != Travelling
  }

  // Every report of the run is stamped no earlier than t.
  predicate Since(steps: seq<Step>, t: int) {
    forall i :: 0 <= i < |steps| && steps[i].Report? ==> t <= steps[i].time <= steps[i].now
  }

  // --- Reports that make storages Active ---

  // A report that makes its storage Active.
  function Fit(a: string, t: int): Step {
    Report(a, MIN_STORAGE_SPACE + 1, t, t)
  }

  // The storage is Active by a report stamped t.
  ghost predicate ActiveAt(c: Cluster, g: string, a: string, t: int) {
    Registered(c.tracker, g, a) && FitIn(c.tracker, g, a, t)
  }

  lemma FitRegistry(t: TrackerState, r: Membership.StatusReport, time: int)
    requires Accepted(r) && r.free > MIN_STORAGE_SPACE
    ensures var t' := ReportStep(t, r, time, time);
      && Registered(t', r.group, AddrOf(r)) && FitIn(t', r.group, AddrOf(r), time) && t'[r.group].status == GroupActive
      && (forall g, b :: Registered(t, g, b) ==>
            Registered(t', g, b) && (FitIn(t, g, b, time) ==> FitIn(t', g, b, time)))
  {
    hide AddrOf, MinFree;
    var t' := ReportStep(t, r, time, time);
    assert IsActive(t'[r.group].storages, AddrOf(r));
  }

  ghost predicate FitIn(t: TrackerState, g: string, a: string, time: int)
    requires Registered(t, g, a)
  {
    t[g].storages[a].status == StorageActive && t[g].storages[a].updateTime == time
  }

  // A report stamped t makes its storage Active and takes out none that reported at t too; it
  // moves nothing but the registry and what syncs under way see of the replaced object.
  lemma FitActivates(md5: Digest, c: Cluster, g: string, a: string, t: int)
    requires NodesOk(c) && Reports(c.nodes, g, a)
    ensures var c' := Next(md5, c, Fit(a, t));
      && ActiveAt(c', g, a, t) && c'.tracker[g].status == GroupActive
      && (forall b :: ActiveAt(c, g, b, t) ==> ActiveAt(c', g, b, t))
      && SameTasks(c, c') && c' == c.(tracker := c'.tracker, tasks := c'.tasks)
  {
    hide JoinHostPort, ReportStep, HostOf;
    var r := ReportOf(c.nodes[a].conf, MIN_STORAGE_SPACE + 1);
    FitRegistry(c.tracker, r, t);
    assert AddrOf(r) == a;
  }

  // Every task is as it was, but for what it sees of its storage.
  ghost predicate SameTasks(c: Cluster, c': Cluster) {
    |c'.tasks| == |c.tasks| && forall i :: 0 <= i < |c.tasks| ==>
      c'.tasks[i] == c.tasks[i].(frozen := c'.tasks[i].frozen)
  }

  // Both storages of an ADD are Active, so repair by address tries it.
  lemma BothActive(c: Cluster, m: SyncFileInfo, t: int)
    requires ActiveAt(c, m.group, HostOf(m.src), t) && ActiveAt(c, m.group, HostOf(m.dst), t)
    ensures Consider(ByAddress, c.tracker, m) == Try
  {
    hide HostOf;
  }

  // The reports of both ends of a sync.
  function EndReports(src: string, m: SyncFileInfo, t: int): seq<Step> {
    [Fit(src, t), Fit(HostOf(m.dst), t)]
  }

  // After these, repair by address tries the sync, and only the registry has moved.
  lemma BothReport(md5: Digest, c: Cluster, m: SyncFileInfo, t: int)
    requires NodesOk(c) && Reports(c.nodes, m.group, HostOf(m.src)) && Reports(c.nodes, m.group, HostOf(m.dst))
    ensures var c' := After(md5, c, EndReports(HostOf(m.src), m, t));
      && SameTasks(c, c') && Consider(ByAddress, c'.tracker, m) == Try
      && c' == c.(tracker := c'.tracker, tasks := c'.tasks)
  {
    hide Next, After, HostOf, Reports, Consider, ActiveAt, ConfOk;
    var s1, s2 := Fit(HostOf(m.src), t), Fit(HostOf(m.dst), t);
    AfterUpToThree(md5, c, s1, s2, s2);
    FitActivates(md5, c, m.group, HostOf(m.src), t);
    var c1 := Next(md5, c, s1);
    FitActivates(md5, c1, m.group, HostOf(m.dst), t);
    BothActive(Next(md5, c1, s2), m, t);
  }

  // Both ends of a fan-out message can report, while the source is registered.
  lemma EndsReport(md5: Digest, c: Cluster, p: string, m: SyncFileInfo)
    requires Inv(md5, c) && p in c.uploads && m in c.uploads[p].Msgs()
    requires Registered(c.tracker, c.uploads[p].group, c.uploads[p].src)
    ensures NodesOk(c) && m.group == c.uploads[p].group && HostOf(m.src) == c.uploads[p].src
    ensures Reports(c.nodes, m.group, HostOf(m.src)) && Reports(c.nodes, m.group, HostOf(m.dst))
  {
    hide PathsOk, TasksOk, LogsOk, FlightsOk, ConfOk, Reports, HostOf, NameId;
    var g, a := c.uploads[p].group, c.uploads[p].src;
    assert SlotOk(c.nodes, g, a, c.tracker[g].storages[a]);
    assert RecordOk(md5, c.nodes, c.ids, p, c.uploads[p]) && MsgOk(c.nodes, c.uploads[p], m);
  }

  // --- A repair in which every part works ---

  function RepairRun(n: nat, m: SyncFileInfo): seq<Step> {
    [RepairEntry(m), DeliverTask(n, WHOLE), Answer(n)]
  }

  // The repair of a logged ADD whose every part works: the entry goes, other nodes keep their copies.
  lemma RepairWorks(md5: Digest, c: Cluster, p: string, m: SyncFileInfo)
    requires Inv(md5, c) && p in c.uploads && p !in c.deletes && HoldersOk(c, p)
    requires Consider(c.mode, c.tracker, m) == Try
    requires Fetchable(c.uploads[p], p) && c.uploads[p].Content() != [] && m in c.uploads[p].Msgs() && m in c.logged
    ensures var n := |c.tasks|; var c' := After(md5, c, RepairRun(n, m));
      && c'.log == c.log - {KeyOf(m)} && c'.tasks == c.tasks + [Task(m, true, Acked, Delivered(Some(SUCCESS)), None)]
      && c'.uploads == c.uploads && c'.deletes == c.deletes && c'.nodes.Keys == c.nodes.Keys
      && forall b :: b != HostOf(m.dst) ==> FileAt(c'.nodes, b, p) == FileAt(c.nodes, b, p)
  {
    hide UrlSafe, PathOf, HostOf, KeyOf, Inv, Next, DoDeliver, Consider, HoldersOk;
    var n := |c.tasks|;
    var c1 := Next(md5, c, RepairEntry(m));
    AfterUpToThree(md5, c, RepairEntry(m), DeliverTask(n, WHOLE), Answer(n));
    RepairSent(md5, c, p, m);
    RepairDelivered(md5, c1, p, n);
    var c2 := Next(md5, c1, DeliverTask(n, WHOLE));
    NextInv(md5, c1, DeliverTask(n, WHOLE));
    RepairAnswered(md5, c2, n);
  }

  lemma RepairSent(md5: Digest, c: Cluster, p: string, m: SyncFileInfo)
    requires Inv(md5, c) && p in c.uploads && HoldersOk(c, p) && m in c.logged && Consider(c.mode, c.tracker, m) == Try
    ensures var c' := Next(md5, c, RepairEntry(m));
      c' == c.(tasks := c.tasks + [Task(m, true, Waiting, Travelling, None)]) && Inv(md5, c') && HoldersOk(c', p)
  {
    hide Inv, UrlSafe, PathOf, HostOf, FileAt, Consider;
    var c' := Next(md5, c, RepairEntry(m));
    NextInv(md5, c, RepairEntry(m));
    forall i: nat | Confirmed(c', i, p) ensures Confirmed(c, i, p) && c'.tasks[i] == c.tasks[i] {}
    forall a | a in c'.nodes && Fetchable(c.uploads[p], p) ensures ReplicaOk(c', p, a) { assert ReplicaOk(c, p, a); }
  }

  lemma RepairDelivered(md5: Digest, c: Cluster, p: string, n: nat)
    requires Inv(md5, c) && p in c.uploads && p !in c.deletes && HoldersOk(c, p) && n < |c.tasks|
    requires c.tasks[n].wire == Travelling && c.tasks[n].info in c.uploads[p].Msgs()
    requires Fetchable(c.uploads[p], p) && c.uploads[p].Content() != []
    ensures var c' := Next(md5, c, DeliverTask(n, WHOLE)); var t := c.tasks[n];
      && c'.tasks == c.tasks[n := t.(wire := Delivered(Some(SUCCESS)))]
      && c'.log == c.log && c'.uploads == c.uploads && c'.deletes == c.deletes
      && forall b :: b != HostOf(t.info.dst) ==> FileAt(c'.nodes, b, p) == FileAt(c.nodes, b, p)
  {
    hide UrlSafe, PathOf, HostOf, NodesOk, RegistryOk, UploadsOk, PathsOk, LogsOk, FlightsOk, SyncOk, Fetch,
      Damage, HoldersOk, OpOf, Deliver, Next;
    var m := c.tasks[n].info;
    DeliverNow(md5, c, n, WHOLE);
    assert TaskOk(c, c.tasks[n]);
    MsgAtPath(md5, c, p, m);
    MsgEnds(md5, c, m);
    SourceHolds(c, p);
    FetchShape(md5, c, m, None);
    AnyDelivery(md5, c.nodes, m, WHOLE);
    DeliverCopies(md5, c, n, WHOLE, p);
  }

  lemma DeliverNow(md5: Digest, c: Cluster, i: nat, at: DeliverFate)
    requires i < |c.tasks| && c.tasks[i].wire == Travelling
    ensures Next(md5, c, DeliverTask(i, at)) == DoDeliver(md5, c, i, at)
  {
    hide DoDeliver;
  }

  lemma RepairAnswered(md5: Digest, c: Cluster, n: nat)
    requires IsWaiting(c, n) && c.tasks[n].repair && c.tasks[n].wire == Delivered(Some(SUCCESS))
    ensures var c' := Next(md5, c, Answer(n)); var t := c.tasks[n];
      && c'.tasks == c.tasks[n := t.(phase := Acked)] && c'.log == c.log - {KeyOf(t.info)}
      && c'.uploads == c.uploads && c'.deletes == c.deletes && c'.nodes == c.nodes
  {
    hide KeyOf;
  }

  // Both ends of a logged sync report and its entry is repaired; other nodes keep their copies.
  lemma ReportedAndRepaired(md5: Digest, c: Cluster, p: string, m: SyncFileInfo, t: int)
    requires Inv(md5, c) && Held(c) && c.mode == ByAddress && p in c.uploads && Spreadable(c, p)
    requires m in c.uploads[p].Msgs()
    requires m in c.logged && Registered(c.tracker, c.uploads[p].group, c.uploads[p].src)
    ensures var c' := After(md5, c, EndReports(c.uploads[p].src, m, t) + RepairRun(|c.tasks|, m));
      && |c'.tasks| == |c.tasks| + 1 && c'.tasks[|c.tasks|].info == m
      && (forall i :: 0 <= i < |c.tasks| ==> c'.tasks[i] == c.tasks[i].(frozen := c'.tasks[i].frozen))
      && c'.log == c.log - {KeyOf(m)} && c'.uploads == c.uploads && c'.deletes == c.deletes
      && forall b :: b != HostOf(m.dst) ==> FileAt(c'.nodes, b, p) == FileAt(c.nodes, b, p)
  {
    hide Inv, Held, After, KeyOf, UrlSafe, FileAt, HostOf, HoldersOk, Consider, RepairRun, EndReports;
    var ends, repair := EndReports(c.uploads[p].src, m, t), RepairRun(|c.tasks|, m);
    EndsReport(md5, c, p, m);
    BothReport(md5, c, m, t);
    RunGrows(md5, c, ends);
    HeldFrom(md5, c, ends);
    var c1 := After(md5, c, ends);
    HeldAt(c1, p);
    RepairWorks(md5, c1, p, m);
    AfterConcat(md5, c, ends, repair);
  }

  // --- The run that forgets a destination ---

  // The file at p is not deleted, fetched as it is, and not empty.
  predicate Spreadable(c: Cluster, p: string)
    requires p in c.uploads
  {
    p !in c.deletes && Fetchable(c.uploads[p], p) && c.uploads[p].Content() != []
  }

  // What is known when the tracker has just started the fan-out of p.
  ghost predicate JustFanned(md5: Digest, c: Cluster, p: string, n: nat) {
    && Inv(md5, c) && Held(c) && p in c.uploads && FannedAt(c, p, n) && Spreadable(c, p)
    && Registered(c.tracker, c.uploads[p].group, c.uploads[p].src)
    && (forall m :: m in c.uploads[p].Msgs() ==> FileAt(c.nodes, HostOf(m.dst), p).None?)
    && (forall m, m' :: m in c.uploads[p].Msgs() && m' in c.uploads[p].Msgs() ==> KeyOf(m) == KeyOf(m'))
  }

  // m's file is stored and undeleted, nothing is under way for m, and its destination has no copy.
  ghost predicate Forgotten(c: Cluster, p: string, m: SyncFileInfo) {
    p in c.uploads && m in c.uploads[p].Msgs() && p !in c.deletes && Settled(c, m)
    && FileAt(c.nodes, HostOf(m.dst), p).None?
  }

  // Both syncs fail; then both ends of the second one report and its entry is repaired.
  function ForgetRun(c1: Cluster, n: nat, second: SyncFileInfo, src: string, t: int): seq<Step>
    requires n + 1 < |c1.tasks|
  {
    TwoFails(c1, n) + (EndReports(src, second, t) + RepairRun(|c1.tasks|, second))
  }

  // Of the syncs of the first message only its first one is there.
  lemma OnlyFirst(c1: Cluster, p: string, n: nat, i: nat)
    requires FannedAt(c1, p, n) && c1.uploads[p].Msgs() != [] && i < |c1.tasks|
    requires c1.tasks[i].info == c1.uploads[p].Msgs()[0]
    ensures i == n
  {
    hide HostOf, DistinctHosts;
    if i > n {
      assert c1.tasks[n + (i - n)] == Fresh(c1.uploads[p].Msgs()[i - n]);
      Apart(c1, p, n, 0, i - n);
    }
  }

  // With repair by address the first of two destinations of a non-empty file can be forgotten;
  // the reports of the run may carry any time.
  lemma FirstForgotten(md5: Digest, c1: Cluster, p: string, n: nat, t: int)
    requires JustFanned(md5, c1, p, n) && c1.mode == ByAddress && |c1.uploads[p].Msgs()| >= 2
    ensures var msgs := c1.uploads[p].Msgs();
      Forgotten(After(md5, c1, ForgetRun(c1, n, msgs[1], c1.uploads[p].src, t)), p, msgs[0])
  {
    hide NodesOk, RegistryOk, UploadsOk, PathsOk, TasksOk, LogsOk, FlightsOk, Held, Next, After, KeyOf, UrlSafe,
      FannedAt, FileAt, HostOf, TwoFails, RepairRun, EndReports, Postable, Usable;
    var msgs, src := c1.uploads[p].Msgs(), c1.uploads[p].src;
    var m0, m1 := msgs[0], msgs[1];
    FreshPostable(md5, c1, p, n, 0);
    FreshPostable(md5, c1, p, n, 1);
    Apart(c1, p, n, 0, 1);
    var fails, rest := TwoFails(c1, n), EndReports(src, m1, t) + RepairRun(|c1.tasks|, m1);
    TwoFailsLog(md5, c1, n);
    RunGrows(md5, c1, fails);
    HeldFrom(md5, c1, fails);
    ReportedAndRepaired(md5, After(md5, c1, fails), p, m1, t);
    AfterConcat(md5, c1, fails, rest);
    var c4 := After(md5, c1, fails + rest);
    forall i | 0 <= i < |c4.tasks| && c4.tasks[i].info == m0 ensures i == n { OnlyFirst(c1, p, n, i); }
  }

  lemma ForgetRunSince(c1: Cluster, n: nat, second: SyncFileInfo, src: string, t: int)
    requires n + 1 < |c1.tasks|
    ensures Since(ForgetRun(c1, n, second, src, t), t) && Whole(ForgetRun(c1, n, second, src, t))
  {
    hide Usable, HostOf;
  }

  // --- The run that cuts a repaired copy off ---

  // A delivery whose copy breaks off after the file was opened.
  const CUT := DeliverFate(SyncCopyFails([]), true, None)

  // The sync fails; both ends report; a first repair request is given up and a second one
  // succeeds; then the first one arrives after all, and its copy breaks off.
  function CutRun(c1: Cluster, n: nat, m: SyncFileInfo, src: string, t: int): seq<Step>
    requires n < |c1.tasks|
  {
    FailSteps(c1, n) + EndReports(src, m, t) + OvertakenRun(|c1.tasks|, m)
  }

  // A repair request that is given up stays on its way.
  lemma RepairGivenUp(md5: Digest, c: Cluster, m: SyncFileInfo)
    requires m in c.logged && Consider(c.mode, c.tracker, m) == Try
    ensures After(md5, c, [RepairEntry(m), GiveUp(|c.tasks|)])
      == c.(tasks := c.tasks + [Task(m, true, Dropped, Travelling, None)])
  {
    hide KeyOf, Consider, After, Next;
    var n := |c.tasks|;
    AfterUpToThree(md5, c, RepairEntry(m), GiveUp(n), GiveUp(n));
    RepairPosted(md5, c, m);
    var c1 := Next(md5, c, RepairEntry(m));
    GivenUp(md5, c1, n);
    assert c1.tasks[n := Task(m, true, Dropped, Travelling, None)]
      == c.tasks + [Task(m, true, Dropped, Travelling, None)];
  }

  lemma RepairPosted(md5: Digest, c: Cluster, m: SyncFileInfo)
    requires m in c.logged && Consider(c.mode, c.tracker, m) == Try
    ensures Next(md5, c, RepairEntry(m)) == c.(tasks := c.tasks + [Task(m, true, Waiting, Travelling, None)])
  {
    hide Consider;
  }

  lemma GivenUp(md5: Digest, c: Cluster, n: nat)
    requires IsWaiting(c, n) && c.tasks[n].repair
    ensures Next(md5, c, GiveUp(n)) == SetTask(c, n, c.tasks[n].(phase := Dropped))
  {
  }

  // A copy of a URL-safe file that breaks off at once leaves an empty file, whatever was there.
  lemma CutOffCopy(md5: Digest, c: Cluster, i: nat, p: string)
    requires Inv(md5, c) && p in c.uploads && Fetchable(c.uploads[p], p)
    requires i < |c.tasks| && c.tasks[i].info in c.uploads[p].Msgs() && c.tasks[i].wire == Travelling
    ensures var c' := Next(md5, c, DeliverTask(i, CUT)); var m := c.tasks[i].info;
      && FileAt(c'.nodes, HostOf(m.dst), p) == Some([])
      && c'.tasks == c.tasks[i := c.tasks[i].(wire := Delivered(Some(FAIL)))]
      && c'.log == c.log && c'.uploads == c.uploads && c'.deletes == c.deletes
  {
    hide Inv, HostOf, PathOf, Fetch, Damage, UrlSafe;
    SourceOf(md5, c, p, c.tasks[i].info);
    SafeFetch(c.nodes, c.tasks[i].info, None);
  }

  // m's file is stored, undeleted and not empty, nothing is under way for m, and its destination
  // holds an empty file.
  ghost predicate Spoiled(c: Cluster, p: string, m: SyncFileInfo) {
    p in c.uploads && m in c.uploads[p].Msgs() && p !in c.deletes && c.uploads[p].Content() != [] && Settled(c, m)
    && FileAt(c.nodes, HostOf(m.dst), p) == Some([])
  }

  // A given-up repair request is overtaken by one that succeeds; then its own copy breaks off.
  function OvertakenRun(late: nat, m: SyncFileInfo): seq<Step> {
    [RepairEntry(m), GiveUp(late)] + RepairRun(late + 1, m) + [DeliverTask(late, CUT)]
  }

  lemma Overtaken(md5: Digest, c: Cluster, p: string, m: SyncFileInfo)
    requires Inv(md5, c) && Held(c) && p in c.uploads && p !in c.deletes && m in c.uploads[p].Msgs() && m in c.logged
    requires Consider(c.mode, c.tracker, m) == Try && Fetchable(c.uploads[p], p) && c.uploads[p].Content() != []
    ensures var n := |c.tasks|; var c' := After(md5, c, OvertakenRun(n, m));
      && c'.tasks == c.tasks + [Task(m, true, Dropped, Delivered(Some(FAIL)), None),
                               Task(m, true, Acked, Delivered(Some(SUCCESS)), None)]
      && c'.log == c.log - {KeyOf(m)} && c'.uploads == c.uploads && c'.deletes == c.deletes
      && FileAt(c'.nodes, HostOf(m.dst), p) == Some([])
  {
    hide Inv, Held, Next, After, KeyOf, UrlSafe, FileAt, HostOf, HoldersOk, Consider, RepairRun;
    var n := |c.tasks|;
    var given, repair := [RepairEntry(m), GiveUp(n)], RepairRun(n + 1, m);
    RepairGivenUp(md5, c, m);
    RunGrows(md5, c, given);
    HeldFrom(md5, c, given);
    var c1 := After(md5, c, given);
    HeldAt(c1, p);
    RepairWorks(md5, c1, p, m);
    RunGrows(md5, c1, repair);
    var c2 := After(md5, c1, repair);
    CutOffCopy(md5, c2, n, p);
    AfterConcat(md5, c, given, repair);
    AfterAppend(md5, c, given + repair, DeliverTask(n, CUT));
  }

  // With repair by address any destination of a non-empty file can end so.
  lemma RepairedThenCut(md5: Digest, c1: Cluster, p: string, n: nat, t: int)
    requires JustFanned(md5, c1, p, n) && c1.mode == ByAddress && c1.uploads[p].Msgs() != []
    ensures var m := c1.uploads[p].Msgs()[0];
      Spoiled(After(md5, c1, CutRun(c1, n, m, c1.uploads[p].src, t)), p, m)
  {
    hide NodesOk, RegistryOk, UploadsOk, PathsOk, TasksOk, LogsOk, FlightsOk, Held, Next, After, KeyOf, UrlSafe,
      FannedAt, FileAt, HostOf, FailSteps, Consider, OvertakenRun, EndReports, Usable, Reports;
    var late, m, src := |c1.tasks|, c1.uploads[p].Msgs()[0], c1.uploads[p].src;
    FreshPostable(md5, c1, p, n, 0);
    var fails, ends := FailSteps(c1, n), EndReports(src, m, t);
    FailLogs(md5, c1, n);
    var c2 := After(md5, c1, fails);
    RunGrows(md5, c1, fails);
    HeldFrom(md5, c1, fails);
    EndsReport(md5, c2, p, m);
    BothReport(md5, c2, m, t);
    RunGrows(md5, c2, ends);
    HeldFrom(md5, c2, ends);
    Overtaken(md5, After(md5, c2, ends), p, m);
    AfterConcat(md5, c1, fails, ends);
    AfterConcat(md5, c1, fails + ends, OvertakenRun(late, m));
    var c6 := After(md5, c1, fails + ends + OvertakenRun(late, m));
    forall i | 0 <= i < |c6.tasks| && c6.tasks[i].info == m
      ensures c6.tasks[i].wire != Travelling && (!c6.tasks[i].repair ==> c6.tasks[i].phase == Logged)
    {
      if i < late { OnlyFirst(c1, p, n, i); }
    }
  }

  lemma CutRunSince(c1: Cluster, n: nat, m: SyncFileInfo, src: string, t: int)
    requires n < |c1.tasks|
    ensures Since(CutRun(c1, n, m, src, t), t)
  {
    hide Usable, HostOf;
  }
}
