// What the tracker's methods do, as runs of the cluster: so what holds in every reachable state
// holds between and after their calls.
module Refinement {
  import opened Lib
  import opened Order
  import opened Names
  import opened Membership
  import MembershipRuns
  import opened Routing
  import opened Nodes
  import opened Replication
  import opened Trackers
  import opened Protocol
  import opened ProtocolInv
  import opened ClusterRepairs
  import opened Captured

  // --- One sync attempt ---

  function AttemptSteps(i: nat, usable: bool, fate: PostFate): seq<Step> {
    if !usable then [SkipUnusable(i)]
    else match fate
      case Unreachable => [Send(i), GiveUp(i)]
      case ReplyLost(at) => [Send(i), DeliverTask(i, at), GiveUp(i)]
      case Answered(at) => [Send(i), DeliverTask(i, at), Answer(i)]
  }

  // The steps of one sync, each when it can happen.
  lemma SyncSteps(md5: Digest, c: Cluster, i: nat, at: DeliverFate)
    ensures i < |c.tasks| ==>
      var t := c.tasks[i];
      && (t.phase == Pending && !t.repair && Usable(c, t) ==>
           Next(md5, c, Send(i)) == SetTask(c, i, t.(phase := Waiting, wire := Travelling)))
      && (t.phase == Pending && !t.repair && !Usable(c, t) ==> Next(md5, c, SkipUnusable(i)) == Fail(c, i))
      && (t.wire == Travelling ==> Next(md5, c, DeliverTask(i, at)) == DoDeliver(md5, c, i, at))
      && (t.phase == Waiting ==> Next(md5, c, GiveUp(i)) == Fail(c, i))
      && (t.phase == Waiting && t.wire.Delivered? ==>
            Next(md5, c, Answer(i)) == if t.wire.answer == Some(SUCCESS) then Succeed(c, i) else Fail(c, i))
  {
    hide Fail, Succeed, DoDeliver, Usable;
  }

  // The steps of an attempt, sent if the step can be taken.
  lemma AttemptRuns(md5: Digest, c: Cluster, i: nat, sends: bool, fate: PostFate)
    requires IsPending(c, i) && sends == Usable(c, c.tasks[i])
    ensures var c' := After(md5, c, AttemptSteps(i, sends, fate));
      && (c'.nodes, c'.log) == Attempt(md5, sends, c.nodes, c.log, c.tasks[i].info, fate)
      && c'.tracker == c.tracker && c'.uploads == c.uploads && c'.deletes == c.deletes && |c'.tasks| == |c.tasks|
      && c'.tasks[i].phase in {Acked, Logged}
      && forall j :: 0 <= j < |c.tasks| && j != i ==> c'.tasks[j] == c.tasks[j]
  {
    hide KeyOf, Deliver, Damage, OpOf, HostOf, After, Next, Usable;
    var steps := AttemptSteps(i, sends, fate);
    AfterUpToThree(md5, c, steps[0], if |steps| > 1 then steps[1] else steps[0],
                   if |steps| > 2 then steps[2] else steps[0]);
    var at := if fate.Unreachable? then WHOLE else fate.at;
    var c1 := Next(md5, c, steps[0]);
    SyncSteps(md5, c, i, at);
    SyncSteps(md5, c1, i, at);
    SyncSteps(md5, Next(md5, c1, DeliverTask(i, at)), i, at);
  }

  // A sync attempt of the tracker is a run of that sync: with the status s that the captured object
  // shows, the nodes and the log that SyncFile leaves for an upload, which posts only to an Active
  // storage, and those that SyncDelete leaves, which skips only an Offline one. The run sends
  // exactly when the method posts, and nothing else of the cluster moves.
  lemma AttemptIsRun(md5: Digest, c: Cluster, i: nat, s: StorageStatus, fate: PostFate)
    requires IsPending(c, i) && IsAction(c.tasks[i].info.action) && s == SeenStatus(c.tracker, c.tasks[i])
    ensures var m := c.tasks[i].info;
      var sends := if m.action == SYNC_ADD then s == StorageActive else s != StorageOffline;
      var c' := After(md5, c, AttemptSteps(i, sends, fate));
      && (m.action == SYNC_ADD ==>
            (c'.nodes, c'.log) == Attempt(md5, s == StorageActive, c.nodes, c.log, m, fate))
      && (m.action == SYNC_DELETE ==>
            (c'.nodes, c'.log) == Attempt(md5, s != StorageOffline, c.nodes, c.log, m, fate))
      && (Enabled(c, Send(i)) <==> sends) && (Enabled(c, SkipUnusable(i)) <==> !sends)
      && c'.tracker == c.tracker && c'.uploads == c.uploads && c'.deletes == c.deletes && |c'.tasks| == |c.tasks|
      && c'.tasks[i].phase in {Acked, Logged}
      && forall j :: 0 <= j < |c.tasks| && j != i ==> c'.tasks[j] == c.tasks[j]
  {
    hide Attempt, After, Usable, Enabled, SeenStatus, AttemptSteps;
    SendsIff(c, i);
    SendIsUsable(c, i);
    AttemptRuns(md5, c, i, Usable(c, c.tasks[i]), fate);
  }

  lemma SendIsUsable(c: Cluster, i: nat)
    requires IsPending(c, i)
    ensures Enabled(c, Send(i)) <==> Usable(c, c.tasks[i])
  {
    hide Usable;
  }

  // --- One repair pass ---

  function RepairSteps(n: nat, sync: SyncFileInfo, fate: PostFate): seq<Step> {
    match fate
    case Unreachable => [RepairEntry(sync), GiveUp(n)]
    case ReplyLost(at) => [RepairEntry(sync), DeliverTask(n, at), GiveUp(n)]
    case Answered(at) => [RepairEntry(sync), DeliverTask(n, at), Answer(n)]
  }

  // The POST of one log entry and what repair makes of the answer.
  lemma RepairIsRun(md5: Digest, c: Cluster, sync: SyncFileInfo, fate: PostFate)
    requires sync in c.logged && Consider(c.mode, c.tracker, sync) == Try
    ensures var c' := After(md5, c, RepairSteps(|c.tasks|, sync, fate));
      var (nodes', resp) := Post(md5, c.nodes, sync, fate);
      && c'.nodes == nodes' && c'.log == Settle(c.log, sync, resp)
      && c'.tracker == c.tracker && c'.uploads == c.uploads && c'.deletes == c.deletes && c.logged <= c'.logged
      && c'.mode == c.mode
  {
    hide KeyOf, Deliver, Damage, OpOf, HostOf, After, Next, Consider;
    var n := |c.tasks|;
    var steps := RepairSteps(n, sync, fate);
    AfterUpToThree(md5, c, steps[0], steps[1], if |steps| > 2 then steps[2] else steps[0]);
    var at := if fate.Unreachable? then WHOLE else fate.at;
    var c1 := Next(md5, c, steps[0]);
    assert c1 == c.(tasks := c.tasks + [Task(sync, true, Waiting, Travelling, None)]) by { RepairStart(md5, c, sync); }
    SyncSteps(md5, c1, n, at);
    SyncSteps(md5, Next(md5, c1, DeliverTask(n, at)), n, at);
  }

  lemma RepairStart(md5: Digest, c: Cluster, sync: SyncFileInfo)
    requires sync in c.logged && Consider(c.mode, c.tracker, sync) == Try
    ensures Next(md5, c, RepairEntry(sync)) == c.(tasks := c.tasks + [Task(sync, true, Waiting, Travelling, None)])
  {
  }

  // The tracker is down: its registry is gone, no upload is waited for, and every sync under way
  // is cut off.
  ghost predicate Down(c: Cluster) {
    && c.tracker.Keys == {} && (forall j :: 0 <= j < |c.flights| ==> c.flights[j].end != Open)
    && forall i :: 0 <= i < |c.tasks| ==> c.tasks[i].phase != Pending && c.tasks[i].phase != Waiting
  }

  // A run from c that ends with the nodes and log of a repair pass. A pass that crashes takes the
  // tracker down, as the cron library does not recover its jobs.
  ghost predicate RunsTo(md5: Digest, c: Cluster, steps: seq<Step>, pass: Pass) {
    var c' := After(md5, c, steps);
    && c'.nodes == pass.nodes && c'.log == pass.log && c'.mode == c.mode
    && c'.uploads == c.uploads && c'.deletes == c.deletes
    && if pass.crashed then Down(c') else c'.tracker == c.tracker
  }

  lemma {:induction false} PassIsRun(md5: Digest, c: Cluster, snapshot: Log, keys: seq<string>,
                                     fate: string -> PostFate)
    requires forall k :: k in keys ==> k in snapshot
    requires forall k :: k in snapshot ==> snapshot[k] in c.logged
    ensures exists steps ::
              RunsTo(md5, c, steps, RepairPass(md5, c.mode, c.tracker, c.nodes, c.log, snapshot, keys, fate))
    decreases |keys|
  {
    hide KeyOf, Post, Consider, Next, After, Settle, RepairSteps;
    var pass := RepairPass(md5, c.mode, c.tracker, c.nodes, c.log, snapshot, keys, fate);
    if keys == [] {
      AfterNothing(md5, c);
      assert RunsTo(md5, c, [], pass);
    } else if Consider(c.mode, c.tracker, snapshot[keys[0]]) == Crash {
      CrashTakesDown(md5, c);
      assert RunsTo(md5, c, [CrashTracker], pass);
    } else if Consider(c.mode, c.tracker, snapshot[keys[0]]) == Skip {
      PassIsRun(md5, c, snapshot, keys[1..], fate);
    } else {
      var sync := snapshot[keys[0]];
      var first := RepairSteps(|c.tasks|, sync, fate(keys[0]));
      var c1 := After(md5, c, first);
      RepairIsRun(md5, c, sync, fate(keys[0]));
      PassIsRun(md5, c1, snapshot, keys[1..], fate);
      var more := RepairPass(md5, c1.mode, c1.tracker, c1.nodes, c1.log, snapshot, keys[1..], fate);
      var rest :| RunsTo(md5, c1, rest, more);
      AfterConcat(md5, c, first, rest);
      assert RunsTo(md5, c, first + rest, pass);
    }
  }

  // The log, the nodes and the requests on their way outlive the tracker.
  lemma CrashTakesDown(md5: Digest, c: Cluster)
    ensures var c' := After(md5, c, [CrashTracker]);
      && Down(c') && c'.nodes == c.nodes && c'.log == c.log && c'.mode == c.mode
      && c'.uploads == c.uploads && c'.deletes == c.deletes && |c'.tasks| == |c.tasks|
      && forall i :: 0 <= i < |c.tasks| ==>
           && c'.tasks[i].info == c.tasks[i].info && c'.tasks[i].wire == c.tasks[i].wire
           && c'.tasks[i].phase == if c.tasks[i].phase in {Pending, Waiting} then Lost else c.tasks[i].phase
  {
    AfterUpToThree(md5, c, CrashTracker, CrashTracker, CrashTracker);
  }

  lemma AfterNothing(md5: Digest, c: Cluster)
    ensures After(md5, c, []) == c
  {
  }

  // A repair pass of the tracker in any reachable state is a run of the cluster, so every
  // guarantee about runs holds after it.
  lemma FullRepairIsRun(md5: Digest, c: Cluster, fate: string -> PostFate)
    requires Inv(md5, c)
    ensures exists more :: RunsTo(md5, c, more, FullRepair(md5, c.mode, c.tracker, c.nodes, c.log, fate))
  {
    hide RunsTo, RepairPass, SortedSeq;
    assert forall k :: k in c.log ==> c.log[k] in c.logged by { LoggedEntries(md5, c); }
    LogKeysListed(c.log);
    PassIsRun(md5, c, c.log, SortedSeq(c.log.Keys), fate);
    assert FullRepair(md5, c.mode, c.tracker, c.nodes, c.log, fate)
        == RepairPass(md5, c.mode, c.tracker, c.nodes, c.log, c.log, SortedSeq(c.log.Keys), fate);
  }

  // As written, the next repair tick takes the tracker down, with all syncs under way, if and only
  // if the group of some log entry is registered; nodes and log stay as they are in any case.
  lemma TickAsWritten(md5: Digest, c: Cluster, fate: string -> PostFate)
    requires Inv(md5, c) && c.mode == AsWritten
    ensures var crashed := exists k :: k in c.log && c.log[k].group in c.tracker;
      exists more :: RunsTo(md5, c, more, Pass(c.nodes, c.log, crashed))
  {
    hide RunsTo, FullRepair;
    FullRepairIsRun(md5, c, fate);
    RepairAsWritten(md5, c, fate);
  }

  lemma LoggedEntries(md5: Digest, c: Cluster)
    requires Inv(md5, c)
    ensures forall k :: k in c.log ==> c.log[k] in c.logged
  {
  }

  // --- One upload ---

  function UploadSteps(j: nat, h: nat, group: string, a: string, req: UploadRequest, env: UploadEnv,
                       fate: ProxyFate): seq<Step> {
    match fate
    case Unreached => [RouteUpload(h, group, a, req), MissAnswer(j, true)]
    case AnswerLost => [RouteUpload(h, group, a, req), SaveUpload(j, env), MissAnswer(j, true)]
    case AnswerBroken => [RouteUpload(h, group, a, req), SaveUpload(j, env), MissAnswer(j, false)]
    case AnswerPassed => [RouteUpload(h, group, a, req), SaveUpload(j, env), AnswerUpload(j)]
  }

  // The run ends with this registry, these nodes, and these syncs started.
  ghost predicate EndsAs(md5: Digest, c: Cluster, steps: seq<Step>, t': TrackerState, nodes': NodeMap,
                         msgs: seq<SyncFileInfo>) {
    var c' := After(md5, c, steps);
    c'.tracker == t' && c'.nodes == nodes' && c'.tasks == c.tasks + Started(msgs) && c'.log == c.log
  }

  // What the tracker's QuickUpload does, whatever it answers, is a run of one upload: nothing, or
  // the routed upload with the fate of its proxy.
  lemma UploadIsRun(md5: Digest, c: Cluster, h: nat, req: UploadRequest, env: UploadEnv, fate: ProxyFate,
                    answer: UploadAnswer, t': TrackerState, nodes': NodeMap, msgs: seq<SyncFileInfo>)
    requires RegistryOk(c.nodes, c.tracker) && Decimal(req.uuid) && req.uuid !in c.drawn
    requires UploadEffect(md5, c.tracker, c.nodes, h, req, env, fate, answer, t', nodes', msgs)
    ensures if answer.NoStorage? then t' == c.tracker && nodes' == c.nodes && msgs == []
            else exists n, a :: Routed(c.tracker, h, n, a)
                                && EndsAs(md5, c, UploadSteps(|c.flights|, h, n, a, req, env, fate), t', nodes', msgs)
  {
    hide RegistryOk, ProxyUpload, Routed, AbortStep, Decimal, Unroutable, EndsAs, SyncsFor, UploadSteps;
    if !answer.NoStorage? {
      var n, a :| Routed(c.tracker, h, n, a)
                  && (answer.BadGateway? ==> t' == AbortStep(c.tracker, n, a))
                  && (answer.BadGateway? ==> (nodes', Failed) == ProxyUpload(md5, c.nodes, a, req, env, fate))
                  && (answer.NoAnswer? ==> t' == c.tracker)
                  && (answer.NoAnswer? ==> (nodes', Torn) == ProxyUpload(md5, c.nodes, a, req, env, fate))
                  && (answer.Proxied? ==> t' == c.tracker && Registered(c.tracker, n, a))
                  && (answer.Proxied? ==>
                        (nodes', Passed(answer.result)) == ProxyUpload(md5, c.nodes, a, req, env, fate))
                  && (answer.Proxied? ==> msgs == SyncsFor(c.tracker[n].storages, a, answer.result, n));
      RoutedRegistered(c.tracker, h, n, a);
      RoutedNode(c, n, a);
      RoutedRun(md5, c, h, n, a, req, env, fate);
    }
  }

  lemma RoutedNode(c: Cluster, g: string, a: string)
    requires RegistryOk(c.nodes, c.tracker) && Registered(c.tracker, g, a)
    ensures a in c.nodes
  {
    assert SlotOk(c.nodes, g, a, c.tracker[g].storages[a]);
  }

  // The registry and the syncs after a routed upload with this fate.
  ghost function TrackerAfter(t: TrackerState, g: string, a: string, fate: ProxyFate): TrackerState {
    if fate.Unreached? || fate.AnswerLost? then AbortStep(t, g, a) else t
  }

  ghost function SyncsAfter(md5: Digest, c: Cluster, g: string, a: string, req: UploadRequest, env: UploadEnv,
                            fate: ProxyFate): seq<SyncFileInfo>
    requires Registered(c.tracker, g, a) && a in c.nodes
  {
    if fate.AnswerPassed? then SyncsFor(c.tracker[g].storages, a, Upload(md5, c.nodes[a], req, env).1, g) else []
  }

  lemma RoutedRun(md5: Digest, c: Cluster, h: nat, g: string, a: string, req: UploadRequest, env: UploadEnv,
                  fate: ProxyFate)
    requires Routed(c.tracker, h, g, a) && Registered(c.tracker, g, a) && a in c.nodes && Decimal(req.uuid)
    requires req.uuid !in c.drawn
    ensures EndsAs(md5, c, UploadSteps(|c.flights|, h, g, a, req, env, fate), TrackerAfter(c.tracker, g, a, fate),
                   ProxyUpload(md5, c.nodes, a, req, env, fate).0, SyncsAfter(md5, c, g, a, req, env, fate))
    ensures ProxyUpload(md5, c.nodes, a, req, env, fate).1 ==
      if fate.AnswerPassed? then Passed(Upload(md5, c.nodes[a], req, env).1)
      else if fate.AnswerBroken? then Torn
      else Failed
  {
    hide Upload, FanOut, StoredPath, Next, After, Routed, AbortStep, Decimal, SyncsFor;
    var j, steps := |c.flights|, UploadSteps(|c.flights|, h, g, a, req, env, fate);
    AfterUpToThree(md5, c, steps[0], steps[1], if |steps| > 2 then steps[2] else steps[0]);
    var c1 := Next(md5, c, steps[0]);
    RoutedStep(md5, c, h, g, a, req);
    assert Started([]) == [];
    if fate.Unreached? {
      MissedStep(md5, c1, j, true);
    } else {
      SavedStep(md5, c1, j, env);
      var c2 := Next(md5, c1, steps[1]);
      match fate {
        case AnswerLost => MissedStep(md5, c2, j, true);
        case AnswerBroken => MissedStep(md5, c2, j, false);
        case AnswerPassed => AnsweredStep(md5, c2, j);
      }
    }
  }

  lemma RoutedStep(md5: Digest, c: Cluster, h: nat, g: string, a: string, req: UploadRequest)
    requires Routed(c.tracker, h, g, a) && Decimal(req.uuid) && req.uuid !in c.drawn
    ensures Next(md5, c, RouteUpload(h, g, a, req)) ==
      c.(flights := c.flights + [Flight(g, a, req, None, Open)], drawn := c.drawn + {req.uuid})
  {
    hide Routed, Decimal;
  }

  lemma SavedStep(md5: Digest, c: Cluster, j: nat, env: UploadEnv)
    requires Savable(c, j)
    ensures var c' := Next(md5, c, SaveUpload(j, env)); var f := c.flights[j];
      var (n, r) := Upload(md5, c.nodes[f.a], f.req, env);
      && c'.nodes == c.nodes[f.a := n] && c'.flights == c.flights[j := f.(reply := Some(r))]
      && c'.tracker == c.tracker && c'.tasks == c.tasks && c'.log == c.log
      && (r.Stored? ==> StoredPath(r.filePath, r.fileName) in c'.uploads)
  {
    hide Upload, StoredPath;
  }

  lemma MissedStep(md5: Digest, c: Cluster, j: nat, aborts: bool)
    requires j < |c.flights| && c.flights[j].end == Open
    ensures var c' := Next(md5, c, MissAnswer(j, aborts)); var f := c.flights[j];
      && c'.tracker == (if aborts then AbortStep(c.tracker, f.group, f.a) else c.tracker)
      && c'.nodes == c.nodes && c'.tasks == c.tasks && c'.log == c.log
  {
    hide AbortStep;
  }

  lemma AnsweredStep(md5: Digest, c: Cluster, j: nat)
    requires Answerable(c, j)
    requires var r := c.flights[j].reply.value; r.Stored? ==> StoredPath(r.filePath, r.fileName) in c.uploads
    ensures var c' := Next(md5, c, AnswerUpload(j)); var f := c.flights[j];
      && c'.tracker == c.tracker && c'.nodes == c.nodes && c'.log == c.log
      && c'.tasks == c.tasks + Started(SyncsFor(c.tracker[f.group].storages, f.a, f.reply.value, f.group))
  {
    hide FanOut, StoredPath;
    assert Started([]) == [];
  }

  // --- Deletes, downloads and reports ---

  // What Delete answers, as a step: an accepted delete starts the syncs the method returns; one
  // for an unregistered group is none; one that panics takes the tracker down, since every group
  // of a healthy registry has a storage whose goroutine panics.
  lemma DeleteIsStep(md5: Digest, c: Cluster, group: string, fileId: string, hash: string, file: string,
                     answer: DeleteAnswer, msgs: seq<SyncFileInfo>)
    requires MembershipRuns.Healthy(c.tracker) && DeleteEffect(c.tracker, group, fileId, hash, file, answer, msgs)
    ensures var c' := Next(md5, c, DeleteFile(group, fileId, hash, file));
      match answer
      case NoGroup => c' == c && msgs == []
      case Panics => c' == c && c.tracker[group].storages.Keys != {} && Down(After(md5, c, [CrashTracker]))
      case Deleting => c' == c.(tasks := c.tasks + Started(msgs), deletes := c.deletes + {file}, asked := c'.asked)
  {
    hide FanOut, Started, ParseHeaderFilePath, Down, After;
    ParseFailsWithoutSlash(file);
    CrashTakesDown(md5, c);
    if answer.Panics? { assert MembershipRuns.KeyedGroup(c.tracker, group); }
  }

  // What Download answers, as a step: the registry moves only when the proxy fails, and then as
  // by the abort of the storage that serves the client.
  lemma DownloadIsStep(md5: Digest, c: Cluster, name: string, h: nat, reachable: bool, answer: DownloadAnswer,
                       t': TrackerState)
    requires DownloadEffect(c.tracker, name, h, reachable, answer, t')
    ensures if answer.Unserved? then
        Registered(c.tracker, name, answer.addr) && Next(md5, c, ProxyAbort(name, answer.addr)) == c.(tracker := t')
      else t' == c.tracker
  {
    hide Select, AbortStep;
    if answer.Unserved? { assert IsActive(c.tracker[name].storages, answer.addr); }
  }

  // A node's status report is one step; the registry becomes what the report method leaves.
  lemma ReportIsStep(md5: Digest, c: Cluster, a: string, free: nat, time: int, now: int)
    requires a in c.nodes
    ensures var c' := Next(md5, c, Report(a, free, time, now));
      && c'.tracker == ReportStep(c.tracker, ReportOf(c.nodes[a].conf, free), time, now)
      && c' == c.(tracker := c'.tracker, tasks := c'.tasks) && |c'.tasks| == |c.tasks|
      && forall i :: 0 <= i < |c.tasks| ==> c'.tasks[i] == c.tasks[i].(frozen := c'.tasks[i].frozen)
  {
    hide HostOf, AddrOf, Sweep, Save;
  }

  // --- The registry ---

  // The registry came about by these reports and proxy failures, since the last crash.
  ghost predicate RegistryFrom(t: TrackerState, es: seq<MembershipRuns.Event>) {
    t == MembershipRuns.Run(es)
  }

  lemma RegistryStep(md5: Digest, c: Cluster, s: Step, es: seq<MembershipRuns.Event>)
    requires RegistryFrom(c.tracker, es)
    ensures exists es' :: RegistryFrom(Next(md5, c, s).tracker, es')
  {
    hide DoReport, DoMiss, DoSave, DoAnswer, DoDelete, DoDeliver, Fail, Succeed, ReportStep, AbortStep, Collect,
      ParseHeaderFilePath, Decimal, Routed, Usable, Consider;
    var c' := Next(md5, c, s);
    if !Enabled(c, s) {
      assert RegistryFrom(c'.tracker, es);
    } else if s.Report? {
      var e := MembershipRuns.Report(ReportOf(c.nodes[s.a].conf, s.free), s.time, s.now);
      MembershipRuns.RunSnoc(es, e);
      ReportIsStep(md5, c, s.a, s.free, s.time, s.now);
      assert RegistryFrom(c'.tracker, es + [e]);
    } else if s.ProxyAbort? {
      AbortExplained(c.tracker, es, s.group, s.a);
      assert RegistryFrom(c'.tracker, es + [MembershipRuns.Abort(s.group, s.a)]);
    } else if s.MissAnswer? {
      MissedStep(md5, c, s.j, s.aborts);
      var f := c.flights[s.j];
      AbortExplained(c.tracker, es, f.group, f.a);
      assert RegistryFrom(c'.tracker, if s.aborts then es + [MembershipRuns.Abort(f.group, f.a)] else es);
    } else if s.CrashTracker? {
      EmptyRegistry(c'.tracker);
      assert RegistryFrom(c'.tracker, []);
    } else {
      TrackerKept(md5, c, s);
      assert RegistryFrom(c'.tracker, es);
    }
  }

  lemma AbortExplained(t: TrackerState, es: seq<MembershipRuns.Event>, group: string, a: string)
    requires RegistryFrom(t, es)
    ensures RegistryFrom(AbortStep(t, group, a), es + [MembershipRuns.Abort(group, a)])
  {
    hide AbortStep;
    MembershipRuns.RunSnoc(es, MembershipRuns.Abort(group, a));
  }

  // Only reports, proxy failures and a crash change the registry.
  lemma TrackerKept(md5: Digest, c: Cluster, s: Step)
    requires !s.Report? && !s.ProxyAbort? && !s.MissAnswer? && !s.CrashTracker?
    ensures Next(md5, c, s).tracker == c.tracker
  {
    hide Upload, FanOut, Started, Deliver, ReportStep, AbortStep, Collect, KeyOf, Decimal, Damage, OpOf,
      StoredPath, Fail, Succeed, Routed, Usable, Consider, HostOf;
    if Enabled(c, s) {
      match s {
        case SkipUnusable(i) => SettledTracker(c, i);
        case Answer(i) => SettledTracker(c, i);
        case GiveUp(i) => SettledTracker(c, i);
        case _ =>
      }
    }
  }

  lemma SettledTracker(c: Cluster, i: nat)
    requires i < |c.tasks|
    ensures Fail(c, i).tracker == Succeed(c, i).tracker == c.tracker
  {
    hide KeyOf;
  }

  lemma {:induction false} RunRegistry(md5: Digest, c0: Cluster, steps: seq<Step>)
    requires Init(c0)
    ensures exists es :: RegistryFrom(After(md5, c0, steps).tracker, es)
  {
    hide RegistryFrom, Next;
    if steps == [] {
      EmptyRegistry(c0.tracker);
      assert RegistryFrom(After(md5, c0, steps).tracker, []);
    } else {
      var pre := steps[..|steps| - 1];
      RunRegistry(md5, c0, pre);
      var c, s := After(md5, c0, pre), steps[|steps| - 1];
      var es :| RegistryFrom(c.tracker, es);
      RegistryStep(md5, c, s, es);
      var es' :| RegistryFrom(Next(md5, c, s).tracker, es');
      assert RegistryFrom(After(md5, c0, steps).tracker, es');
    }
  }

  lemma EmptyRegistry(t: TrackerState)
    requires t.Keys == {}
    ensures RegistryFrom(t, [])
  {
    assert t == map[];
  }

  // So in every reachable state of the cluster the registry keeps its invariants: keys, cached
  // capacities, and no Active storage in an Unavailable group.
  lemma RunRegistryHealthy(md5: Digest, c0: Cluster, steps: seq<Step>)
    requires Init(c0)
    ensures MembershipRuns.Healthy(After(md5, c0, steps).tracker)
  {
    hide MembershipRuns.Healthy, After;
    RunRegistry(md5, c0, steps);
    var es :| RegistryFrom(After(md5, c0, steps).tracker, es);
    MembershipRuns.RunHealthy(es);
  }
}
