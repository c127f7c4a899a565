// The whole system as a state machine: the tracker's registry and log, the nodes, every upload
// on its way and every sync in progress. An upload goes through routing, the save on its node
// and the answer; a sync through send, delivery and reply. Any of these may be lost.
module Protocol {
  import opened Lib
  import opened Order
  import opened Names
  import opened Membership
  import opened Routing
  import opened Nodes
  import opened Replication

  // Where a sync stands for the tracker: not started, waiting for the answer, answered with
  // Success, given up and logged, given up without logging (repair), or cut off by a crash.
  datatype Phase = Pending | Waiting | Acked | Logged | Dropped | Lost

  // Where its request is: not sent, travelling, or delivered with this answer.
  datatype Wire = Unsent | Travelling | Delivered(answer: Option<nat>)

  // A sync of an upload or delete, or (repair) of a log entry. It holds on to the storage object
  // it was started with; `frozen` is that object's status once a report has replaced it.
  datatype Task = Task(info: SyncFileInfo, repair: bool, phase: Phase, wire: Wire, frozen: Option<StorageStatus>)

  // Whether the tracker still waits for an upload's answer, has handled it, or never will.
  datatype FlightEnd = Open | Handled | Missed

  // An upload routed to a storage, and what the storage made of it.
  datatype Flight = Flight(group: string, a: string, req: UploadRequest, reply: Option<UploadResult>, end: FlightEnd)

  // A stored upload: the request, where it went, and the messages of its fan-out once started.
  datatype Record = Record(src: string, group: string, req: UploadRequest, filePath: string, fileName: string,
                           info: FileInfo, fan: Option<seq<SyncFileInfo>>) {
    function Content(): Bytes {
      if req.form.Some? then req.form.value.content else []
    }

    function Msgs(): seq<SyncFileInfo> {
      if fan.Some? then fan.value else []
    }
  }

  // `mode` says how repair looks storages up. `uploads`, `drawn`, `ids`, `deletes`, `logged`,
  // `repaired` and `damaged` are history: the stored uploads by path, the ids drawn, those that
  // reached a node, the paths some delete named, the messages of all deletes, those ever logged,
  // those whose repair was acknowledged, and the replicas whose last write was cut short.
  datatype Cluster = Cluster(mode: Addressing, tracker: TrackerState, nodes: NodeMap, log: Log, tasks: seq<Task>,
                             flights: seq<Flight>, uploads: map<string, Record>, drawn: set<string>, ids: set<string>,
                             deletes: set<string>, asked: set<SyncFileInfo>, logged: set<SyncFileInfo>,
                             repaired: set<SyncFileInfo>, damaged: set<(string, string)>)

  datatype Step =
    | Report(a: string, free: nat, time: int, now: int)
    | ProxyAbort(group: string, a: string)
    | RouteUpload(h: nat, group: string, a: string, req: UploadRequest)
    | SaveUpload(j: nat, env: UploadEnv)
    | AnswerUpload(j: nat)
    | MissAnswer(j: nat, aborts: bool)
    | DeleteFile(group: string, fileId: string, md5: string, file: string)
    | SkipUnusable(i: nat)
    | Send(i: nat)
    | DeliverTask(i: nat, at: DeliverFate)
    | Answer(i: nat)
    | GiveUp(i: nat)
    | RepairEntry(sync: SyncFileInfo)
    | CollectTrash(a: string, path: string)
    | CrashTracker

  function ReportOf(c: Conf, free: nat): Membership.StatusReport {
    Membership.StatusReport(c.group, c.schema, c.host, c.port, free)
  }

  function Fresh(m: SyncFileInfo): Task {
    Task(m, false, Pending, Unsent, None)
  }

  function Started(msgs: seq<SyncFileInfo>): seq<Task> {
    if msgs == [] then [] else Started(msgs[..|msgs| - 1]) + [Fresh(msgs[|msgs| - 1])]
  }

  // Logging a sync: the entry under its key is overwritten.
  function PutLog(c: Cluster, sync: SyncFileInfo): Cluster {
    c.(log := c.log[KeyOf(sync) := sync], logged := c.logged + {sync})
  }

  function SetTask(c: Cluster, i: nat, t: Task): Cluster
    requires i < |c.tasks|
  {
    c.(tasks := c.tasks[i := t])
  }

  function SetFlight(c: Cluster, j: nat, f: Flight): Cluster
    requires j < |c.flights|
  {
    c.(flights := c.flights[j := f])
  }

  // A failed or unanswered sync: a fresh one is logged, a repair leaves its entry alone.
  function Fail(c: Cluster, i: nat): Cluster
    requires i < |c.tasks|
  {
    var t := c.tasks[i];
    if t.repair then SetTask(c, i, t.(phase := Dropped))
    else PutLog(SetTask(c, i, t.(phase := Logged)), t.info)
  }

  function Succeed(c: Cluster, i: nat): Cluster
    requires i < |c.tasks|
  {
    var t := c.tasks[i];
    var c' := SetTask(c, i, t.(phase := Acked));
    if t.repair then c'.(log := c.log - {KeyOf(t.info)}, repaired := c.repaired + {t.info}) else c'
  }

  // --- When a step can happen ---

  predicate IsPending(c: Cluster, i: nat) { i < |c.tasks| && c.tasks[i].phase == Pending && !c.tasks[i].repair }

  predicate IsWaiting(c: Cluster, i: nat) { i < |c.tasks| && c.tasks[i].phase == Waiting }

  // The status a sync sees in the storage object it holds.
  function SeenStatus(t: TrackerState, task: Task): StorageStatus {
    var g, d := task.info.group, HostOf(task.info.dst);
    if task.frozen.Some? then task.frozen.value
    else if Registered(t, g, d) then t[g].storages[d].status
    else StorageOffline
  }

  // An upload's sync needs an Active storage, a delete's only one that is not Offline.
  predicate Usable(c: Cluster, task: Task) {
    var s := SeenStatus(c.tracker, task);
    if task.info.action == SYNC_ADD then s == StorageActive else s != StorageOffline
  }

  ghost predicate Enabled(c: Cluster, s: Step) {
    match s
    case Report(a, free, time, now) => a in c.nodes
    case ProxyAbort(group, a) => Registered(c.tracker, group, a)
    case RouteUpload(h, group, a, req) => Routed(c.tracker, h, group, a) && Decimal(req.uuid) && req.uuid !in c.drawn
    case SaveUpload(j, env) => Savable(c, j)
    case AnswerUpload(j) => Answerable(c, j)
    case MissAnswer(j, aborts) => j < |c.flights| && c.flights[j].end == Open
    case DeleteFile(group, fileId, md5, file) => group in c.tracker && ParseHeaderFilePath(file).Some?
    case SkipUnusable(i) => IsPending(c, i) && !Usable(c, c.tasks[i])
    case Send(i) => IsPending(c, i) && Usable(c, c.tasks[i])
    case DeliverTask(i, at) => i < |c.tasks| && c.tasks[i].wire == Travelling
    case Answer(i) => IsWaiting(c, i) && c.tasks[i].wire.Delivered?
    case GiveUp(i) => IsWaiting(c, i)
    case RepairEntry(sync) => sync in c.logged && Consider(c.mode, c.tracker, sync) == Try
    case CollectTrash(a, path) => a in c.nodes
    case CrashTracker => true
  }

  // A flight that has not reached its node yet.
  predicate Savable(c: Cluster, j: nat) {
    j < |c.flights| && c.flights[j].reply.None? && c.flights[j].a in c.nodes
  }

  // A flight whose answer the tracker can handle now.
  predicate Answerable(c: Cluster, j: nat) {
    j < |c.flights| && c.flights[j].end == Open && c.flights[j].reply.Some?
    && Registered(c.tracker, c.flights[j].group, c.flights[j].a)
  }

  // --- What a step does ---

  function Freeze(t: TrackerState, g: string, a: string, task: Task): Task {
    if Registered(t, g, a) && task.frozen.None? && task.info.group == g && HostOf(task.info.dst) == a
    then task.(frozen := Some(t[g].storages[a].status))
    else task
  }

  // An accepted report replaces the storage's object; syncs under way keep the old one.
  ghost function DoReport(c: Cluster, a: string, free: nat, time: int, now: int): Cluster
    requires a in c.nodes
  {
    var r := ReportOf(c.nodes[a].conf, free);
    if !Accepted(r) then c
    else
      c.(tracker := ReportStep(c.tracker, r, time, now),
         tasks := seq(|c.tasks|, i requires 0 <= i < |c.tasks| => Freeze(c.tracker, r.group, AddrOf(r), c.tasks[i])))
  }

  function DoSave(md5: Digest, c: Cluster, j: nat, env: UploadEnv): Cluster
    requires j < |c.flights| && c.flights[j].a in c.nodes
  {
    var f := c.flights[j];
    var (n, r) := Upload(md5, c.nodes[f.a], f.req, env);
    var c' := SetFlight(c, j, f.(reply := Some(r))).(nodes := c.nodes[f.a := n], ids := c.ids + {f.req.uuid});
    if r.Stored? then
      var rec := Record(f.a, f.group, f.req, r.filePath, r.fileName, r.info, None);
      c'.(uploads := c.uploads[StoredPath(r.filePath, r.fileName) := rec])
    else c'
  }

  // The fan-out reads the registry as it is when the answer has arrived.
  ghost function DoAnswer(c: Cluster, j: nat): Cluster
    requires Answerable(c, j)
  {
    var f := c.flights[j];
    var c' := SetFlight(c, j, f.(end := Handled));
    var r := f.reply.value;
    if r.Stored? && StoredPath(r.filePath, r.fileName) in c.uploads then
      var p := StoredPath(r.filePath, r.fileName);
      var m := c.tracker[f.group].storages;
      var msgs := FanOut(m, AddTo(m[f.a], r.info, r.filePath, r.fileName, f.group));
      c'.(tasks := c.tasks + Started(msgs), uploads := c.uploads[p := c.uploads[p].(fan := Some(msgs))])
    else c'
  }

  function DoMiss(c: Cluster, j: nat, aborts: bool): Cluster
    requires j < |c.flights|
  {
    var f := c.flights[j];
    SetFlight(c, j, f.(end := Missed)).(tracker := if aborts then AbortStep(c.tracker, f.group, f.a) else c.tracker)
  }

  ghost function DoDelete(c: Cluster, group: string, fileId: string, md5: string, file: string): Cluster
    requires group in c.tracker && ParseHeaderFilePath(file).Some?
  {
    var (filePath, fileName) := ParseHeaderFilePath(file).value;
    var msgs := FanOut(c.tracker[group].storages, DeleteAt(fileId, filePath, fileName, md5, group));
    c.(tasks := c.tasks + Started(msgs), deletes := c.deletes + {file}, asked := c.asked + set m | m in msgs)
  }

  // The replicas cut short after an ADD at (d, p) met this fate.
  function Damage(damaged: set<(string, string)>, op: NodeOp, d: string): set<(string, string)> {
    if op.OpAdd? && op.fate.SyncCopyFails? then damaged + {(d, PathOf(op.sync))}
    else if op.OpAdd? && op.fate.Fetched? then damaged - {(d, PathOf(op.sync))}
    else damaged
  }

  function DoDeliver(md5: Digest, c: Cluster, i: nat, at: DeliverFate): Cluster
    requires i < |c.tasks|
  {
    var t := c.tasks[i];
    var d := HostOf(t.info.dst);
    var (nodes', answer) := Deliver(md5, c.nodes, t.info, at);
    SetTask(c, i, t.(wire := Delivered(answer)))
      .(nodes := nodes', damaged := if d in c.nodes then Damage(c.damaged, OpOf(c.nodes, t.info, at), d) else c.damaged)
  }

  function CutOff(t: Task): Task {
    if t.phase == Pending || t.phase == Waiting then t.(phase := Lost) else t
  }

  function Missing(f: Flight): Flight {
    if f.end == Open then f.(end := Missed) else f
  }

  function DoCrash(c: Cluster): Cluster {
    c.(tracker := map[],
       tasks := seq(|c.tasks|, i requires 0 <= i < |c.tasks| => CutOff(c.tasks[i])),
       flights := seq(|c.flights|, j requires 0 <= j < |c.flights| => Missing(c.flights[j])))
  }

  // A step that is not enabled changes nothing, so any list of steps is a run.
  ghost function Next(md5: Digest, c: Cluster, s: Step): Cluster {
    if !Enabled(c, s) then c
    else
      match s
      case Report(a, free, time, now) => DoReport(c, a, free, time, now)
      case ProxyAbort(group, a) => c.(tracker := AbortStep(c.tracker, group, a))
      case RouteUpload(h, group, a, req) =>
        c.(flights := c.flights + [Flight(group, a, req, None, Open)], drawn := c.drawn + {req.uuid})
      case SaveUpload(j, env) => DoSave(md5, c, j, env)
      case AnswerUpload(j) => DoAnswer(c, j)
      case MissAnswer(j, aborts) => DoMiss(c, j, aborts)
      case DeleteFile(group, fileId, hash, file) => DoDelete(c, group, fileId, hash, file)
      case SkipUnusable(i) => Fail(c, i)
      case Send(i) => SetTask(c, i, c.tasks[i].(phase := Waiting, wire := Travelling))
      case DeliverTask(i, at) => DoDeliver(md5, c, i, at)
      case Answer(i) => if c.tasks[i].wire.answer == Some(SUCCESS) then Succeed(c, i) else Fail(c, i)
      case GiveUp(i) => Fail(c, i)
      case RepairEntry(sync) => c.(tasks := c.tasks + [Task(sync, true, Waiting, Travelling, None)])
      case CollectTrash(a, path) => c.(nodes := c.nodes[a := Collect(c.nodes[a], path)])
      case CrashTracker => DoCrash(c)
  }

  ghost function After(md5: Digest, c: Cluster, steps: seq<Step>): Cluster {
    if steps == [] then c else Next(md5, After(md5, c, steps[..|steps| - 1]), steps[|steps| - 1])
  }

  lemma AfterAppend(md5: Digest, c: Cluster, steps: seq<Step>, s: Step)
    ensures After(md5, c, steps + [s]) == Next(md5, After(md5, c, steps), s)
  {
    assert (steps + [s])[..|steps|] == steps;
  }

  lemma {:induction false} AfterConcat(md5: Digest, c: Cluster, steps: seq<Step>, more: seq<Step>)
    ensures After(md5, c, steps + more) == After(md5, After(md5, c, steps), more)
  {
    if more == [] {
      assert steps + more == steps;
    } else {
      AfterConcat(md5, c, steps, more[..|more| - 1]);
      assert (steps + more)[..|steps + more| - 1] == steps + more[..|more| - 1];
    }
  }

  lemma AfterUpToThree(md5: Digest, c: Cluster, s1: Step, s2: Step, s3: Step)
    ensures After(md5, c, [s1]) == Next(md5, c, s1)
    ensures After(md5, c, [s1, s2]) == Next(md5, Next(md5, c, s1), s2)
    ensures After(md5, c, [s1, s2, s3]) == Next(md5, Next(md5, Next(md5, c, s1), s2), s3)
  {
    hide Next;
    assert [s1] == [] + [s1] && [s1, s2] == [] + [s1] + [s2] && [s1, s2, s3] == [] + [s1] + [s2] + [s3];
    AfterAppend(md5, c, [], s1);
    AfterAppend(md5, c, [] + [s1], s2);
    AfterAppend(md5, c, [] + [s1] + [s2], s3);
  }

  // --- Where runs begin ---

  // A node is reached by the address its own configuration gives; schema, host and port are plain.
  predicate ConfOk(a: string, c: Conf) {
    && a == JoinHostPort(c.host, c.port)
    && ':' !in c.schema && '/' !in c.host && '/' !in c.port
  }

  ghost predicate Init(c: Cluster) {
    && c.tracker.Keys == {} && c.log.Keys == {} && c.tasks == [] && c.flights == [] && c.uploads.Keys == {}
    && c.drawn == {} && c.ids == {} && c.deletes == {} && c.asked == {} && c.logged == {} && c.repaired == {}
    && c.damaged == {}
    && forall a :: a in c.nodes ==>
         var n := c.nodes[a];
         ConfOk(a, n.conf) && n.files.Keys == {} && n.index.Keys == {} && n.trash == {}
  }
}
