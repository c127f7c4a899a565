// What every step of the protocol keeps about registry, uploads, paths, messages and logs.
module ProtocolInv {
  import opened Lib
  import opened Order
  import opened Names
  import opened Membership
  import opened Routing
  import opened Nodes
  import opened Replication
  import opened Protocol

  // --- The invariant ---

  // The upload a flight stored is on record, with a fan-out exactly if its answer was handled.
  ghost predicate StoredBy(uploads: map<string, Record>, f: Flight, p: string) {
    && p in uploads && f.reply.Some? && f.reply.value.Stored?
    && var rec, r := uploads[p], f.reply.value;
    && rec.src == f.a && rec.group == f.group && rec.req == f.req && rec.info == r.info
    && rec.filePath == r.filePath && rec.fileName == r.fileName && p == StoredPath(r.filePath, r.fileName)
    && (rec.fan.Some? <==> f.end == Handled)
  }

  ghost predicate FlightOk(c: Cluster, f: Flight) {
    && Decimal(f.req.uuid) && f.req.uuid in c.drawn && f.a in c.nodes && c.nodes[f.a].conf.group == f.group
    && (f.reply.None? ==> f.req.uuid !in c.ids && f.end != Handled)
    && (f.end == Open ==> Registered(c.tracker, f.group, f.a))
    && (f.reply.Some? && f.reply.value.Stored? ==>
          StoredBy(c.uploads, f, StoredPath(f.reply.value.filePath, f.reply.value.fileName)))
  }

  ghost predicate HasFlight(c: Cluster, p: string) {
    exists j :: 0 <= j < |c.flights| && StoredBy(c.uploads, c.flights[j], p)
  }

  // Every flight is in order and has an id of its own; every stored upload came by a flight.
  ghost predicate FlightsOk(c: Cluster) {
    && (forall j :: 0 <= j < |c.flights| ==> FlightOk(c, c.flights[j]))
    && (forall i, j :: 0 <= i < j < |c.flights| ==> c.flights[i].req.uuid != c.flights[j].req.uuid)
    && c.ids <= c.drawn
    && forall p :: p in c.uploads ==> HasFlight(c, p)
  }

  ghost predicate NodesOk(c: Cluster) {
    forall a :: a in c.nodes ==> ConfOk(a, c.nodes[a].conf)
  }

  // A registered storage is a node of that group, filed under its own address.
  ghost predicate SlotOk(nodes: NodeMap, g: string, a: string, s: ServerState) {
    s.addr == a && s.group == g && Reports(nodes, g, a) && s.schema == nodes[a].conf.schema
  }

  ghost predicate RegistryOk(nodes: NodeMap, t: TrackerState) {
    forall g, a :: Registered(t, g, a) ==> SlotOk(nodes, g, a, t[g].storages[a])
  }

  // A node of group g whose reports the tracker accepts.
  ghost predicate Reports(nodes: NodeMap, g: string, a: string) {
    a in nodes && nodes[a].conf.group == g && Accepted(ReportOf(nodes[a].conf, 0))
  }

  ghost predicate MsgOk(nodes: NodeMap, rec: Record, m: SyncFileInfo) {
    && m.action == SYNC_ADD && m.filePath == rec.filePath && m.fileName == rec.fileName
    && HostOf(m.src) == rec.src && m.fileHash == rec.info.md5 && m.group == rec.group
    && HostOf(m.dst) in nodes && HostOf(m.dst) != rec.src && '/' in m.dst && Reports(nodes, rec.group, HostOf(m.dst))
  }

  ghost predicate RecordOk(md5: Digest, nodes: NodeMap, ids: set<string>, p: string, rec: Record) {
    && rec.req.uuid in ids && NameId(rec.fileName) == rec.req.uuid
    && '/' !in rec.fileName && p == StoredPath(rec.filePath, rec.fileName)
    && rec.src in nodes && rec.group == nodes[rec.src].conf.group
    && (rec.info.md5 == "" || rec.info.md5 == md5(rec.Content()))
    && forall m :: m in rec.Msgs() ==> MsgOk(nodes, rec, m)
  }

  ghost predicate UploadsOk(md5: Digest, c: Cluster) {
    && (forall p :: p in c.uploads ==> RecordOk(md5, c.nodes, c.ids, p, c.uploads[p]))
    && (forall p, q :: p in c.uploads && q in c.uploads && c.uploads[p].req.uuid == c.uploads[q].req.uuid ==> p == q)
  }

  ghost predicate KnownPath(ids: set<string>, p: string) {
    IdOf(p) in ids
  }

  // Every file carries the name of an id already drawn; a file to be removed is no stored upload.
  ghost predicate PathsOk(c: Cluster) {
    forall a :: a in c.nodes ==>
      && (forall p :: p in c.nodes[a].files ==> KnownPath(c.ids, p))
      && (forall p :: p in c.nodes[a].trash ==> KnownPath(c.ids, p) && p !in c.uploads)
  }

  // An ADD message belongs to the fan-out of the upload of its file; a DELETE to a delete.
  ghost predicate SyncOk(uploads: map<string, Record>, deletes: set<string>, m: SyncFileInfo) {
    && '/' !in m.fileName && '/' in m.dst
    && if m.action == SYNC_ADD then PathOf(m) in uploads && m in uploads[PathOf(m)].Msgs()
       else m.action == SYNC_DELETE && PathOf(m) in deletes
  }

  ghost predicate TaskOk(c: Cluster, t: Task) {
    && SyncOk(c.uploads, c.deletes, t.info)
    && (t.repair ==> t.info in c.logged && t.phase != Pending && t.phase != Logged)
    && (t.phase == Acked ==> t.wire == Delivered(Some(SUCCESS)) && (t.repair ==> t.info in c.repaired))
  }

  ghost predicate TasksOk(c: Cluster) {
    forall i :: 0 <= i < |c.tasks| ==> TaskOk(c, c.tasks[i])
  }

  ghost predicate LogsOk(c: Cluster) {
    && (forall m :: m in c.logged ==> SyncOk(c.uploads, c.deletes, m))
    && (forall k :: k in c.log ==> c.log[k] in c.logged && k == KeyOf(c.log[k]))
    && c.repaired <= c.logged
  }

  ghost predicate Inv(md5: Digest, c: Cluster) {
    NodesOk(c) && RegistryOk(c.nodes, c.tracker) && UploadsOk(md5, c) && PathsOk(c) && TasksOk(c) && LogsOk(c)
    && FlightsOk(c)
  }

  // --- Nothing of the history is taken back ---

  ghost predicate SameNodes(nodes: NodeMap, nodes': NodeMap) {
    nodes'.Keys == nodes.Keys && forall a :: a in nodes ==> nodes'[a].conf == nodes[a].conf
  }

  // A record only gets its fan-out, once.
  ghost predicate Later(rec: Record, rec': Record) {
    rec' == rec || (rec.fan.None? && rec' == rec.(fan := rec'.fan))
  }

  ghost predicate FlightLater(f: Flight, f': Flight) {
    && f'.group == f.group && f'.a == f.a && f'.req == f.req
    && (f.reply.Some? ==> f'.reply == f.reply) && (f.end != Open ==> f'.end == f.end)
  }

  ghost predicate FlightsGrow(c: Cluster, c': Cluster) {
    |c.flights| <= |c'.flights| && forall j :: 0 <= j < |c.flights| ==> FlightLater(c.flights[j], c'.flights[j])
  }

  ghost predicate Grows(c: Cluster, c': Cluster) {
    && SameNodes(c.nodes, c'.nodes) && c'.mode == c.mode && FlightsGrow(c, c')
    && (forall p :: p in c.uploads ==> p in c'.uploads && Later(c.uploads[p], c'.uploads[p]))
    && c.drawn <= c'.drawn && c.ids <= c'.ids && c.deletes <= c'.deletes && c.asked <= c'.asked
    && c.logged <= c'.logged && c.repaired <= c'.repaired
  }

  lemma GrowsSync(c: Cluster, c': Cluster, m: SyncFileInfo)
    requires Grows(c, c') && SyncOk(c.uploads, c.deletes, m)
    ensures SyncOk(c'.uploads, c'.deletes, m)
  {
  }

  lemma GrowsTask(c: Cluster, c': Cluster, t: Task)
    requires Grows(c, c') && TaskOk(c, t)
    ensures TaskOk(c', t)
  {
  }

  lemma GrowsRecord(md5: Digest, c: Cluster, c': Cluster, p: string)
    requires Grows(c, c') && p in c.uploads && RecordOk(md5, c.nodes, c.ids, p, c.uploads[p])
    requires c'.uploads[p] == c.uploads[p]
    ensures RecordOk(md5, c'.nodes, c'.ids, p, c'.uploads[p])
  {
    hide TargetPath, GenFileName, GenFilePath, HostOf, Decimal;
    var rec := c.uploads[p];
    forall m | m in rec.Msgs() ensures MsgOk(c'.nodes, rec, m) {
      assert MsgOk(c.nodes, rec, m);
    }
  }

  // Uploads whose record and flight a step leaves in order keep their flight.
  lemma HasFlightLater(c: Cluster, c': Cluster, p: string)
    requires HasFlight(c, p) && |c.flights| <= |c'.flights|
    requires forall j :: 0 <= j < |c.flights| && StoredBy(c.uploads, c.flights[j], p) ==>
      StoredBy(c'.uploads, c'.flights[j], p)
    ensures HasFlight(c', p)
  {
    hide StoredBy;
    var j :| 0 <= j < |c.flights| && StoredBy(c.uploads, c.flights[j], p);
    assert StoredBy(c'.uploads, c'.flights[j], p);
  }

  // Flights and uploads are as they were, and every storage that was registered still is.
  lemma SameFlights(c: Cluster, c': Cluster)
    requires FlightsOk(c) && SameNodes(c.nodes, c'.nodes)
    requires c'.flights == c.flights && c'.uploads == c.uploads && c'.drawn == c.drawn && c'.ids == c.ids
    requires forall g, a :: Registered(c.tracker, g, a) ==> Registered(c'.tracker, g, a)
    ensures FlightsOk(c')
  {
    hide StoredBy, Decimal;
    forall j | 0 <= j < |c'.flights| ensures FlightOk(c', c'.flights[j]) { assert FlightOk(c, c.flights[j]); }
    forall p | p in c'.uploads ensures HasFlight(c', p) { assert HasFlight(c, p); }
  }

  lemma GrowsRegistry(nodes: NodeMap, nodes': NodeMap, t: TrackerState)
    requires SameNodes(nodes, nodes') && RegistryOk(nodes, t)
    ensures RegistryOk(nodes', t)
  {
    forall g, a | Registered(t, g, a) ensures SlotOk(nodes', g, a, t[g].storages[a]) {
      assert SlotOk(nodes, g, a, t[g].storages[a]);
    }
  }

  lemma KnownLater(ids: set<string>, ids': set<string>, p: string)
    requires ids <= ids' && KnownPath(ids, p)
    ensures KnownPath(ids', p)
  {
  }

  // A path made with an id not drawn before is in use nowhere.
  lemma FreshPath(md5: Digest, c: Cluster, req: UploadRequest, env: UploadEnv)
    requires PathsOk(c) && UploadsOk(md5, c)
    requires req.form.Some? && Decimal(req.uuid) && req.uuid !in c.ids
    ensures var p := TargetPath(req, env);
      p !in c.uploads && forall a :: a in c.nodes ==> p !in c.nodes[a].files && p !in c.nodes[a].trash
  {
    hide IdOf, GenFileName, GenFilePath;
    var p := TargetPath(req, env);
    UploadPathId(env.today, req.customDir, req.uuid, req.form.value.filename);
    if p in c.uploads { RecordKnown(md5, c, p); }
  }

  // A stored upload's path carries an id that reached a node.
  lemma RecordKnown(md5: Digest, c: Cluster, p: string)
    requires UploadsOk(md5, c) && p in c.uploads
    ensures KnownPath(c.ids, p)
  {
    hide IdOf, NameId, MsgOk;
    var rec := c.uploads[p];
    assert RecordOk(md5, c.nodes, c.ids, p, rec);
    StoredPathId(rec.filePath, rec.fileName);
  }

  // --- Steps on the registry ---

  lemma SaveRegistry(nodes: NodeMap, t: TrackerState, s: ServerState)
    requires RegistryOk(nodes, t) && SlotOk(nodes, s.group, s.addr, s)
    ensures RegistryOk(nodes, Save(t, s)) && forall g, b :: Registered(t, g, b) ==> Registered(Save(t, s), g, b)
  {
    var t' := Save(t, s);
    forall g, b | Registered(t', g, b) ensures SlotOk(nodes, g, b, t'[g].storages[b]) {
      if Registered(t, g, b) { assert SlotOk(nodes, g, b, t[g].storages[b]); }
    }
  }

  lemma SweepRegistry(nodes: NodeMap, t: TrackerState, now: int)
    requires RegistryOk(nodes, t)
    ensures RegistryOk(nodes, Sweep(t, now)) && forall g, b :: Registered(t, g, b) ==> Registered(Sweep(t, now), g, b)
  {
    var t' := Sweep(t, now);
    forall g, b | Registered(t', g, b) ensures SlotOk(nodes, g, b, t'[g].storages[b]) {
      assert Registered(t, g, b) && SlotOk(nodes, g, b, t[g].storages[b]);
    }
  }

  lemma ReportRegistry(nodes: NodeMap, t: TrackerState, a: string, free: nat, time: int, now: int)
    requires a in nodes && ConfOk(a, nodes[a].conf) && RegistryOk(nodes, t)
    ensures var t' := ReportStep(t, ReportOf(nodes[a].conf, free), time, now);
      RegistryOk(nodes, t') && forall g, b :: Registered(t, g, b) ==> Registered(t', g, b)
  {
    hide RegistryOk, JoinHostPort;
    var r := ReportOf(nodes[a].conf, free);
    if Accepted(r) {
      SaveRegistry(nodes, t, Reported(r, time));
      SweepRegistry(nodes, Save(t, Reported(r, time)), now);
    }
  }

  lemma AbortRegistry(nodes: NodeMap, t: TrackerState, group: string, a: string)
    requires RegistryOk(nodes, t)
    ensures var t' := AbortStep(t, group, a);
      RegistryOk(nodes, t') && forall g, b :: Registered(t, g, b) ==> Registered(t', g, b)
  {
    var t' := AbortStep(t, group, a);
    forall g, b | Registered(t', g, b) ensures SlotOk(nodes, g, b, t'[g].storages[b]) {
      assert Registered(t, g, b) && SlotOk(nodes, g, b, t[g].storages[b]);
    }
  }

  // --- Steps on tasks and logs ---

  // Only tasks, log and their history changed: one task was replaced or some appended.
  lemma TaskStep(md5: Digest, c: Cluster, c': Cluster)
    requires Inv(md5, c) && Grows(c, c') && LogsOk(c')
    requires c'.nodes == c.nodes && c'.tracker == c.tracker && c'.uploads == c.uploads && c'.ids == c.ids
    requires c'.flights == c.flights && c'.drawn == c.drawn
    requires forall i :: 0 <= i < |c'.tasks| ==> (i < |c.tasks| && c'.tasks[i] == c.tasks[i]) || TaskOk(c', c'.tasks[i])
    ensures Inv(md5, c')
  {
    hide FlightsOk, SyncOk, RecordOk, SlotOk, KnownPath, KeyOf;
    SameFlights(c, c');
    forall i | 0 <= i < |c'.tasks| ensures TaskOk(c', c'.tasks[i]) {
      if i < |c.tasks| && c'.tasks[i] == c.tasks[i] { GrowsTask(c, c', c.tasks[i]); }
    }
  }

  lemma PutLogsOk(c: Cluster, m: SyncFileInfo)
    requires LogsOk(c) && SyncOk(c.uploads, c.deletes, m)
    ensures LogsOk(PutLog(c, m))
  {
    hide SyncOk;
  }

  lemma FailInv(md5: Digest, c: Cluster, i: nat)
    requires Inv(md5, c) && i < |c.tasks|
    ensures Inv(md5, Fail(c, i)) && Grows(c, Fail(c, i))
  {
    hide FlightsOk, PathOf, RecordOk, SlotOk, KnownPath, SyncOk, KeyOf, NodesOk, RegistryOk, UploadsOk, PathsOk;
    assert TaskOk(c, c.tasks[i]);
    PutLogsOk(SetTask(c, i, c.tasks[i].(phase := Logged)), c.tasks[i].info);
    TaskStep(md5, c, Fail(c, i));
  }

  lemma SucceedInv(md5: Digest, c: Cluster, i: nat)
    requires Inv(md5, c) && IsWaiting(c, i) && c.tasks[i].wire == Delivered(Some(SUCCESS))
    ensures Inv(md5, Succeed(c, i)) && Grows(c, Succeed(c, i))
  {
    hide FlightsOk, PathOf, RecordOk, SlotOk, KnownPath;
    assert TaskOk(c, c.tasks[i]);
    TaskStep(md5, c, Succeed(c, i));
  }

  lemma SendInv(md5: Digest, c: Cluster, i: nat)
    requires Inv(md5, c) && IsPending(c, i)
    ensures var c' := SetTask(c, i, c.tasks[i].(phase := Waiting, wire := Travelling)); Inv(md5, c') && Grows(c, c')
  {
    hide FlightsOk, PathOf, RecordOk, SlotOk, KnownPath;
    assert TaskOk(c, c.tasks[i]);
    TaskStep(md5, c, SetTask(c, i, c.tasks[i].(phase := Waiting, wire := Travelling)));
  }

  lemma RepairInv(md5: Digest, c: Cluster, sync: SyncFileInfo)
    requires Inv(md5, c) && sync in c.logged
    ensures var c' := c.(tasks := c.tasks + [Task(sync, true, Waiting, Travelling, None)]); Inv(md5, c') && Grows(c, c')
  {
    hide FlightsOk, PathOf, RecordOk, SlotOk, KnownPath;
    TaskStep(md5, c, c.(tasks := c.tasks + [Task(sync, true, Waiting, Travelling, None)]));
  }

  lemma CrashInv(md5: Digest, c: Cluster)
    requires Inv(md5, c)
    ensures Inv(md5, DoCrash(c)) && Grows(c, DoCrash(c))
  {
    hide FlightsOk, PathOf, RecordOk, KnownPath, SyncOk;
    var c' := DoCrash(c);
    CrashFlights(c);
    forall i | 0 <= i < |c'.tasks| ensures TaskOk(c', c'.tasks[i]) {
      assert TaskOk(c, c.tasks[i]);
    }
  }

  lemma CrashFlights(c: Cluster)
    requires FlightsOk(c)
    ensures FlightsOk(DoCrash(c))
  {
    hide Decimal, GenFilePath, GenFileName, StoredPath;
    var c' := DoCrash(c);
    forall j | 0 <= j < |c'.flights| ensures FlightOk(c', c'.flights[j]) { assert FlightOk(c, c.flights[j]); }
    forall p | p in c'.uploads ensures HasFlight(c', p) {
      var j :| 0 <= j < |c.flights| && StoredBy(c.uploads, c.flights[j], p);
      assert StoredBy(c'.uploads, c'.flights[j], p);
    }
  }

  // A report freezes what syncs under way see of the replaced object, and touches nothing else.
  lemma ReportTasksOk(c: Cluster, a: string, free: nat, time: int, now: int)
    requires TasksOk(c) && a in c.nodes
    ensures TasksOk(DoReport(c, a, free, time, now))
  {
    hide PathOf, SyncOk, ReportStep, Freeze, Accepted, AddrOf;
    var c' := DoReport(c, a, free, time, now);
    forall i | 0 <= i < |c'.tasks| ensures TaskOk(c', c'.tasks[i]) {
      assert TaskOk(c, c.tasks[i]);
      if c'.tasks[i] != c.tasks[i] { FreezeKeeps(c.tracker, ReportOf(c.nodes[a].conf, free), c.tasks[i]); }
    }
  }

  lemma ReportInv(md5: Digest, c: Cluster, a: string, free: nat, time: int, now: int)
    requires Inv(md5, c) && a in c.nodes
    ensures var c' := DoReport(c, a, free, time, now); Inv(md5, c') && Grows(c, c')
  {
    hide TasksOk, FlightsOk, RecordOk, SlotOk, KnownPath, SyncOk, ReportStep, Freeze, ConfOk, Accepted, AddrOf;
    ReportRegistry(c.nodes, c.tracker, a, free, time, now);
    ReportTasksOk(c, a, free, time, now);
    SameFlights(c, DoReport(c, a, free, time, now));
  }

  lemma FreezeKeeps(t: TrackerState, r: Membership.StatusReport, task: Task)
    ensures Freeze(t, r.group, AddrOf(r), task) == task.(frozen := Freeze(t, r.group, AddrOf(r), task).frozen)
  {
  }

  lemma {:induction false} StartedAt(msgs: seq<SyncFileInfo>)
    ensures |Started(msgs)| == |msgs|
    ensures forall i :: 0 <= i < |msgs| ==> Started(msgs)[i] == Fresh(msgs[i])
  {
    if msgs != [] { StartedAt(msgs[..|msgs| - 1]); }
  }

  lemma DeleteInv(md5: Digest, c: Cluster, group: string, fileId: string, hash: string, file: string)
    requires Inv(md5, c) && group in c.tracker && ParseHeaderFilePath(file).Some?
    ensures var c' := DoDelete(c, group, fileId, hash, file); Inv(md5, c') && Grows(c, c')
  {
    hide RecordOk, SlotOk, KnownPath, FanOut, ParseHeaderFilePath;
    var c' := DoDelete(c, group, fileId, hash, file);
    var (filePath, fileName) := ParseHeaderFilePath(file).value;
    ParseFailsWithoutSlash(file);
    var m := c.tracker[group].storages;
    var make := DeleteAt(fileId, filePath, fileName, hash, group);
    var msgs := FanOut(m, make);
    FanOutComplete(m, make);
    StartedAt(msgs);
    forall i | 0 <= i < |msgs| ensures SyncOk(c'.uploads, c'.deletes, msgs[i]) {
      assert msgs[i] in msgs;
      var b :| b in m && make(m[b]) == Some(msgs[i]);
      BaseUrlHasSlash(m[b].schema, m[b].addr);
    }
    DeleteLogs(c, c');
    TaskStep(md5, c, c');
  }

  lemma DeleteLogs(c: Cluster, c': Cluster)
    requires LogsOk(c) && Grows(c, c') && c'.log == c.log && c'.logged == c.logged && c'.repaired == c.repaired
    ensures LogsOk(c')
  {
    forall m | m in c'.logged ensures SyncOk(c'.uploads, c'.deletes, m) { GrowsSync(c, c', m); }
  }

  // --- Steps on the nodes ---

  // What a node operation may do to files and trash: nothing outside path p, and no new trash.
  lemma SyncOpShape(md5: Digest, n: NodeState, op: NodeOp)
    requires op.OpAdd? || op.OpDelete?
    ensures var n' := Apply(md5, n, op);
      && n'.conf == n.conf && n'.trash == n.trash
      && (forall p :: p in n'.files ==> p in n.files || (op.OpAdd? && p == PathOf(op.sync)))
  {
    hide PathOf, SyncInfo;
  }

  lemma DeliverInv(md5: Digest, c: Cluster, i: nat, at: DeliverFate)
    requires Inv(md5, c) && i < |c.tasks| && c.tasks[i].phase != Acked
    ensures Inv(md5, DoDeliver(md5, c, i, at)) && Grows(c, DoDeliver(md5, c, i, at))
  {
    hide FlightsOk, RegistryOk, UploadsOk, RecordOk, SlotOk, KnownPath, Apply, OpOf, ReplyOf, ConfOk, PathOf,
      HostOf, Damage;
    var c' := DoDeliver(md5, c, i, at);
    var m := c.tasks[i].info;
    var d := HostOf(m.dst);
    assert TaskOk(c, c.tasks[i]);
    if d in c.nodes { DeliverNode(md5, c, m, d, at); }
    assert SameNodes(c.nodes, c'.nodes);
    NodesChange(md5, c, c');
    assert TasksOk(c') by {
      forall j | 0 <= j < |c'.tasks| ensures TaskOk(c', c'.tasks[j]) {
        assert TaskOk(c, c.tasks[j]);
        GrowsTask(c, c', c.tasks[j]);
      }
    }
    DeleteLogs(c, c');
  }

  lemma DeliverNode(md5: Digest, c: Cluster, m: SyncFileInfo, d: string, at: DeliverFate)
    requires Inv(md5, c) && SyncOk(c.uploads, c.deletes, m) && d in c.nodes
    ensures var n' := Apply(md5, c.nodes[d], OpOf(c.nodes, m, at));
      && n'.conf == c.nodes[d].conf
      && (forall p :: p in n'.files ==> KnownPath(c.ids, p))
      && n'.trash == c.nodes[d].trash
  {
    hide Apply, SlotOk, KnownPath, TargetPath, Fetch;
    SyncOpShape(md5, c.nodes[d], OpOf(c.nodes, m, at));
    if m.action == SYNC_ADD {
      RecordKnown(md5, c, PathOf(m));
    }
  }

  lemma TargetKnown(ids: set<string>, req: UploadRequest, env: UploadEnv)
    requires req.form.Some? && Decimal(req.uuid) && req.uuid in ids
    ensures KnownPath(ids, TargetPath(req, env))
  {
    UploadPathId(env.today, req.customDir, req.uuid, req.form.value.filename);
  }

  // The parts of the invariant about nodes and uploads, when no upload was added.
  lemma NodesChange(md5: Digest, c: Cluster, c': Cluster)
    requires Inv(md5, c) && Grows(c, c') && c'.uploads == c.uploads && c'.tracker == c.tracker
    requires c'.flights == c.flights && c'.drawn == c.drawn && c'.ids == c.ids
    requires forall a :: a in c'.nodes ==>
      && (forall p :: p in c'.nodes[a].files ==> KnownPath(c'.ids, p))
      && (forall p :: p in c'.nodes[a].trash ==> KnownPath(c'.ids, p) && p !in c.uploads)
    ensures NodesOk(c') && RegistryOk(c'.nodes, c'.tracker) && UploadsOk(md5, c') && PathsOk(c') && FlightsOk(c')
  {
    hide FlightsOk, KnownPath, RecordOk, SlotOk, ConfOk;
    GrowsRegistry(c.nodes, c'.nodes, c.tracker);
    SameFlights(c, c');
    forall p | p in c'.uploads ensures RecordOk(md5, c'.nodes, c'.ids, p, c'.uploads[p]) { GrowsRecord(md5, c, c', p); }
  }

  lemma CollectInv(md5: Digest, c: Cluster, a: string, path: string)
    requires Inv(md5, c) && a in c.nodes
    ensures var c' := c.(nodes := c.nodes[a := Collect(c.nodes[a], path)]); Inv(md5, c') && Grows(c, c')
  {
    hide FlightsOk, RecordOk, SlotOk, KnownPath, ConfOk, SyncOk, RegistryOk, UploadsOk;
    var c' := c.(nodes := c.nodes[a := Collect(c.nodes[a], path)]);
    assert SameNodes(c.nodes, c'.nodes);
    NodesChange(md5, c, c');
    assert TasksOk(c') by {
      forall j | 0 <= j < |c'.tasks| ensures TaskOk(c', c'.tasks[j]) { GrowsTask(c, c', c.tasks[j]); }
    }
    DeleteLogs(c, c');
  }

  // --- Uploads: routing ---

  lemma RouteInv(md5: Digest, c: Cluster, h: nat, group: string, a: string, req: UploadRequest)
    requires Inv(md5, c) && Enabled(c, RouteUpload(h, group, a, req))
    ensures var c' := Next(md5, c, RouteUpload(h, group, a, req)); Inv(md5, c') && Grows(c, c')
  {
    hide Decimal, FlightsOk, MayChoose, Select, PathsOk, UploadsOk, TasksOk, LogsOk;
    var c' := Next(md5, c, RouteUpload(h, group, a, req));
    assert SlotOk(c.nodes, group, a, c.tracker[group].storages[a]);
    NewFlight(c, c', Flight(group, a, req, None, Open));
    EndStep(md5, c, c');
  }

  lemma NewFlight(c: Cluster, c': Cluster, f: Flight)
    requires FlightsOk(c) && c' == c.(flights := c.flights + [f], drawn := c.drawn + {f.req.uuid})
    requires Decimal(f.req.uuid) && f.req.uuid !in c.drawn && f.reply.None? && f.end == Open
    requires Registered(c.tracker, f.group, f.a) && f.a in c.nodes && c.nodes[f.a].conf.group == f.group
    ensures FlightsOk(c')
  {
    hide StoredBy, Decimal;
    forall j | 0 <= j < |c'.flights| ensures FlightOk(c', c'.flights[j]) {
      if j < |c.flights| { assert FlightOk(c, c.flights[j]); }
    }
    forall p | p in c'.uploads ensures HasFlight(c', p) { HasFlightLater(c, c', p); }
  }

  // --- Uploads: the save on the node ---

  lemma StoredShape(md5: Digest, n: NodeState, req: UploadRequest, env: UploadEnv)
    ensures var r := Upload(md5, n, req, env).1;
      r.Stored? ==> req.form.Some? && r.filePath == GenFilePath(env.today, req.customDir)
                    && r.fileName == GenFileName(req.uuid, req.form.value.filename)
                    && StoredPath(r.filePath, r.fileName) == TargetPath(req, env)
  {
    hide GenFilePath, GenFileName, StoredPath, SaveFile, UploadInfo;
  }

  // The node after an upload: one new file at most, under the path of the new id.
  lemma UploadNode(md5: Digest, c: Cluster, a: string, req: UploadRequest, env: UploadEnv)
    requires Inv(md5, c) && a in c.nodes && Decimal(req.uuid) && req.uuid !in c.ids
    ensures var (n, r) := Upload(md5, c.nodes[a], req, env); var ids := c.ids + {req.uuid};
      && n.conf == c.nodes[a].conf
      && (forall p :: p in n.files ==> KnownPath(ids, p))
      && (forall p :: p in n.trash ==>
            KnownPath(ids, p) && p !in c.uploads && (r.Stored? ==> p != StoredPath(r.filePath, r.fileName)))
  {
    hide KnownPath, RecordOk, SlotOk, TargetPath, Upload;
    var (n, r) := Upload(md5, c.nodes[a], req, env);
    var ids := c.ids + {req.uuid};
    UploadShape(md5, c.nodes[a], req, env);
    StoredShape(md5, c.nodes[a], req, env);
    if req.form.Some? {
      FreshPath(md5, c, req, env);
      TargetKnown(ids, req, env);
    }
    forall p | KnownPath(c.ids, p) ensures KnownPath(ids, p) { KnownLater(c.ids, ids, p); }
  }

  // What a save changes.
  lemma SaveParts(md5: Digest, c: Cluster, j: nat, env: UploadEnv)
    requires Savable(c, j)
    ensures var c' := DoSave(md5, c, j, env); var f := c.flights[j];
      var (n, r) := Upload(md5, c.nodes[f.a], f.req, env);
      && c' == c.(nodes := c.nodes[f.a := n], ids := c.ids + {f.req.uuid}, uploads := c'.uploads,
                  flights := c.flights[j := f.(reply := Some(r))])
      && (!r.Stored? ==> c'.uploads == c.uploads)
      && (r.Stored? ==>
            var p := StoredPath(r.filePath, r.fileName);
            p in c'.uploads && c'.uploads == c.uploads[p := c'.uploads[p]]
            && c'.uploads[p] == Record(f.a, f.group, f.req, r.filePath, r.fileName, r.info, None))
  {
    hide Upload, StoredPath;
  }

  // The id of a flight that has not reached its node yet is in use nowhere.
  lemma SaveFresh(c: Cluster, j: nat)
    requires FlightsOk(c) && j < |c.flights| && c.flights[j].reply.None?
    ensures Decimal(c.flights[j].req.uuid) && c.flights[j].req.uuid !in c.ids && c.flights[j].end != Handled
    ensures c.flights[j].a in c.nodes && c.nodes[c.flights[j].a].conf.group == c.flights[j].group
  {
    assert FlightOk(c, c.flights[j]);
  }

  // The path a flight is stored under is in use nowhere before.
  lemma SaveFreshPath(md5: Digest, c: Cluster, j: nat, env: UploadEnv)
    requires PathsOk(c) && UploadsOk(md5, c) && FlightsOk(c) && Savable(c, j)
    ensures var f := c.flights[j]; var r := Upload(md5, c.nodes[f.a], f.req, env).1;
      r.Stored? ==>
        var p := StoredPath(r.filePath, r.fileName);
        p !in c.uploads && forall b :: b in c.nodes ==> p !in c.nodes[b].files && p !in c.nodes[b].trash
  {
    hide KnownPath, RecordOk, TargetPath, Upload, StoredPath, Decimal, PathsOk, UploadsOk, FlightsOk;
    var f := c.flights[j];
    SaveFresh(c, j);
    StoredShape(md5, c.nodes[f.a], f.req, env);
    if Upload(md5, c.nodes[f.a], f.req, env).1.Stored? { FreshPath(md5, c, f.req, env); }
  }

  lemma SaveGrows(md5: Digest, c: Cluster, j: nat, env: UploadEnv)
    requires Inv(md5, c) && Savable(c, j)
    ensures var c' := DoSave(md5, c, j, env);
      && Grows(c, c')
      && (forall p, b :: p in c'.uploads && p !in c.uploads && b in c.nodes ==> p !in c.nodes[b].trash)
      && (forall p :: p in c.uploads ==> c'.uploads[p] == c.uploads[p])
  {
    hide NodesOk, RegistryOk, TasksOk, LogsOk, PathsOk, UploadsOk, FlightsOk, Upload, DoSave, StoredPath;
    SaveParts(md5, c, j, env);
    SaveFreshPath(md5, c, j, env);
    UploadConf(md5, c.nodes[c.flights[j].a], c.flights[j].req, env);
  }

  lemma UploadConf(md5: Digest, n: NodeState, req: UploadRequest, env: UploadEnv)
    ensures Upload(md5, n, req, env).0.conf == n.conf
  {
    hide GenFileName, GenFilePath, StoredPath, UploadInfo;
  }

  lemma SavePathsOk(md5: Digest, c: Cluster, c': Cluster, a: string, n: NodeState)
    requires PathsOk(c) && Grows(c, c') && a in c.nodes && c'.nodes == c.nodes[a := n]
    requires forall p :: p in n.files ==> KnownPath(c'.ids, p)
    requires forall p :: p in n.trash ==> KnownPath(c'.ids, p) && p !in c'.uploads
    requires forall p, b :: p in c'.uploads && p !in c.uploads && b in c.nodes ==> p !in c.nodes[b].trash
    ensures PathsOk(c')
  {
    hide KnownPath;
    forall p | KnownPath(c.ids, p) ensures KnownPath(c'.ids, p) { KnownLater(c.ids, c'.ids, p); }
  }

  lemma SaveRecords(md5: Digest, c: Cluster, j: nat, env: UploadEnv)
    requires Inv(md5, c) && Savable(c, j)
    ensures UploadsOk(md5, DoSave(md5, c, j, env))
  {
    hide Upload, DoSave, RecordOk, PathsOk, TasksOk, LogsOk, NodesOk, StoredPath, FlightsOk, RegistryOk, UploadsOk;
    var c' := DoSave(md5, c, j, env);
    SaveParts(md5, c, j, env);
    SaveGrows(md5, c, j, env);
    SaveFresh(c, j);
    forall p | p in c.uploads ensures RecordOk(md5, c'.nodes, c'.ids, p, c'.uploads[p]) {
      OldRecord(md5, c, p);
      GrowsRecord(md5, c, c', p);
    }
    var f := c.flights[j];
    var r := Upload(md5, c.nodes[f.a], f.req, env).1;
    if r.Stored? {
      SavedRecord(md5, c'.nodes, c'.ids, c.nodes[f.a], f, env);
      NewRecord(md5, c, c', StoredPath(r.filePath, r.fileName));
    } else {
      SameRecords(md5, c, c');
    }
  }

  lemma OldRecord(md5: Digest, c: Cluster, p: string)
    requires UploadsOk(md5, c) && p in c.uploads
    ensures RecordOk(md5, c.nodes, c.ids, p, c.uploads[p])
  {
  }

  lemma SameRecords(md5: Digest, c: Cluster, c': Cluster)
    requires UploadsOk(md5, c) && c'.uploads == c.uploads
    requires forall p :: p in c.uploads ==> RecordOk(md5, c'.nodes, c'.ids, p, c'.uploads[p])
    ensures UploadsOk(md5, c')
  {
    hide RecordOk;
  }

  lemma SavedRecord(md5: Digest, nodes: NodeMap, ids: set<string>, n: NodeState, f: Flight, env: UploadEnv)
    requires Decimal(f.req.uuid) && f.req.uuid in ids && f.a in nodes && nodes[f.a].conf.group == f.group
    requires Upload(md5, n, f.req, env).1.Stored?
    ensures var r := Upload(md5, n, f.req, env).1;
      RecordOk(md5, nodes, ids, StoredPath(r.filePath, r.fileName),
               Record(f.a, f.group, f.req, r.filePath, r.fileName, r.info, None))
  {
    hide Upload, TargetPath, StoredPath, GenFilePath, GenFileName, MsgOk, NameId;
    StoredShape(md5, n, f.req, env);
    UploadShape(md5, n, f.req, env);
    GeneratedId(f.req.uuid, f.req.form.value.filename);
    FileNameHasNoSlash(f.req.uuid, f.req.form.value.filename);
  }

  // The record of the new upload is in order, and its id is its own.
  lemma NewRecord(md5: Digest, c: Cluster, c': Cluster, p: string)
    requires UploadsOk(md5, c) && p in c'.uploads && c'.uploads == c.uploads[p := c'.uploads[p]]
    requires c'.uploads[p].req.uuid !in c.ids
    requires forall q :: q in c'.uploads ==> RecordOk(md5, c'.nodes, c'.ids, q, c'.uploads[q])
    ensures UploadsOk(md5, c')
  {
    hide RecordOk;
    forall q | q in c.uploads ensures c.uploads[q].req.uuid in c.ids { RecordId(md5, c, q); }
  }

  lemma RecordId(md5: Digest, c: Cluster, q: string)
    requires UploadsOk(md5, c) && q in c.uploads
    ensures c.uploads[q].req.uuid in c.ids
  {
    assert RecordOk(md5, c.nodes, c.ids, q, c.uploads[q]);
  }

  // A flight with another id is not concerned by a save to a fresh path.
  lemma OtherFlight(c: Cluster, c': Cluster, j: nat, i: nat)
    requires FlightsOk(c) && i < |c.flights| && j < |c.flights| && i != j && c'.ids == c.ids + {c.flights[j].req.uuid}
    requires SameNodes(c.nodes, c'.nodes) && c'.tracker == c.tracker && c'.drawn == c.drawn
    requires forall p :: p in c.uploads ==> p in c'.uploads && c'.uploads[p] == c.uploads[p]
    ensures FlightOk(c', c.flights[i])
  {
    hide Decimal, Registered, GenFilePath, GenFileName, StoredPath, HasFlight;
    assert FlightOk(c, c.flights[i]);
  }

  // The flight that has now reached its node, and its upload.
  lemma SavedFlight(md5: Digest, c: Cluster, j: nat, env: UploadEnv)
    requires Inv(md5, c) && Savable(c, j)
    ensures var c' := DoSave(md5, c, j, env);
      FlightOk(c', c'.flights[j]) && forall p :: p in c'.uploads && p !in c.uploads ==> HasFlight(c', p)
  {
    hide KnownPath, Upload, DoSave, TargetPath, GenFileName, GenFilePath, PathsOk, TasksOk, LogsOk, NodesOk,
      StoredPath, Decimal, RegistryOk, UploadsOk, HasFlight;
    var c', f := DoSave(md5, c, j, env), c.flights[j];
    SaveParts(md5, c, j, env);
    StoredShape(md5, c.nodes[f.a], f.req, env);
    UploadConf(md5, c.nodes[f.a], f.req, env);
    assert FlightOk(c, f);
    forall p | p in c'.uploads && p !in c.uploads ensures HasFlight(c', p) { OwnFlight(c', j, p); }
  }

  lemma OwnFlight(c: Cluster, j: nat, p: string)
    requires j < |c.flights| && StoredBy(c.uploads, c.flights[j], p)
    ensures HasFlight(c, p)
  {
    hide StoredBy;
  }

  // All flights are in order if each is, with the ids of before.
  lemma FlightsMoved(c: Cluster, c': Cluster, j: nat)
    requires FlightsOk(c) && j < |c.flights| == |c'.flights| && c'.flights == c.flights[j := c'.flights[j]]
    requires c'.flights[j].req == c.flights[j].req && c'.ids <= c'.drawn
    requires forall i :: 0 <= i < |c'.flights| ==> FlightOk(c', c'.flights[i])
    requires forall p :: p in c'.uploads ==> HasFlight(c', p)
    ensures FlightsOk(c')
  {
    hide FlightOk, HasFlight;
  }

  lemma SaveFlights(md5: Digest, c: Cluster, j: nat, env: UploadEnv)
    requires Inv(md5, c) && Savable(c, j)
    ensures FlightsOk(DoSave(md5, c, j, env))
  {
    hide NodesOk, RegistryOk, UploadsOk, PathsOk, TasksOk, LogsOk, FlightsOk, Upload, DoSave, StoredBy, FlightOk,
      HasFlight, StoredPath;
    var c', f := DoSave(md5, c, j, env), c.flights[j];
    SavedId(c, j);
    SaveParts(md5, c, j, env);
    SaveGrows(md5, c, j, env);
    SavedFlight(md5, c, j, env);
    forall i | 0 <= i < |c'.flights| ensures FlightOk(c', c'.flights[i]) {
      if i != j { OtherFlight(c, c', j, i); }
    }
    forall p | p in c'.uploads ensures HasFlight(c', p) {
      if p in c.uploads { SavedOthers(c, c', j, p); }
    }
    FlightsMoved(c, c', j);
  }

  lemma SavedId(c: Cluster, j: nat)
    requires FlightsOk(c) && j < |c.flights|
    ensures c.ids <= c.drawn && c.flights[j].req.uuid in c.drawn
    ensures forall p :: p in c.uploads ==> HasFlight(c, p)
  {
    hide HasFlight;
    assert FlightOk(c, c.flights[j]);
  }

  lemma SavedOthers(c: Cluster, c': Cluster, j: nat, p: string)
    requires HasFlight(c, p) && j < |c.flights| == |c'.flights| && c.flights[j].reply.None?
    requires c'.flights == c.flights[j := c'.flights[j]] && p in c'.uploads && c'.uploads[p] == c.uploads[p]
    ensures HasFlight(c', p)
  {
    hide GenFileName, GenFilePath, StoredPath;
    HasFlightLater(c, c', p);
  }

  lemma SaveInv(md5: Digest, c: Cluster, j: nat, env: UploadEnv)
    requires Inv(md5, c) && Savable(c, j)
    ensures var c' := DoSave(md5, c, j, env); Inv(md5, c') && Grows(c, c')
  {
    hide KnownPath, SlotOk, Upload, RecordOk, StoredPath, DoSave, SyncOk, FlightsOk, UploadsOk, RegistryOk;
    var c' := DoSave(md5, c, j, env);
    var f := c.flights[j];
    SaveParts(md5, c, j, env);
    SaveGrows(md5, c, j, env);
    SaveFresh(c, j);
    UploadNode(md5, c, f.a, f.req, env);
    GrowsRegistry(c.nodes, c'.nodes, c.tracker);
    SavePathsOk(md5, c, c', f.a, c'.nodes[f.a]);
    SaveRecords(md5, c, j, env);
    SaveFlights(md5, c, j, env);
    assert TasksOk(c') by {
      forall i | 0 <= i < |c'.tasks| ensures TaskOk(c', c'.tasks[i]) { GrowsTask(c, c', c.tasks[i]); }
    }
    DeleteLogs(c, c');
  }

  // --- Uploads: the answer ---

  // What handling the answer of a stored upload changes.
  lemma AnswerParts(c: Cluster, j: nat, p: string)
    requires Answerable(c, j) && StoredBy(c.uploads, c.flights[j], p)
    ensures var c' := DoAnswer(c, j); var f := c.flights[j]; var rec := c.uploads[p];
      var m := c.tracker[f.group].storages;
      var msgs := FanOut(m, AddTo(m[f.a], f.reply.value.info, f.reply.value.filePath, f.reply.value.fileName, f.group));
      && c' == c.(flights := c.flights[j := f.(end := Handled)], tasks := c.tasks + Started(msgs),
                  uploads := c.uploads[p := rec.(fan := Some(msgs))])
      && rec.fan.None?
  {
    hide FanOut, Started, StoredPath;
  }

  // Every message of the fan-out goes from the node that stored the file to another one.
  lemma FanOutOk(c: Cluster, rec: Record, f: Flight)
    requires NodesOk(c) && RegistryOk(c.nodes, c.tracker) && Registered(c.tracker, f.group, f.a)
    requires rec.src == f.a && rec.group == f.group && f.reply.Some? && f.reply.value.Stored?
    requires rec.info == f.reply.value.info
    requires f.reply.value.filePath == rec.filePath && f.reply.value.fileName == rec.fileName
    ensures var m := c.tracker[f.group].storages; var r := f.reply.value;
      forall x :: x in FanOut(m, AddTo(m[f.a], r.info, r.filePath, r.fileName, f.group)) ==> MsgOk(c.nodes, rec, x)
  {
    hide FanOut;
    var m, r := c.tracker[f.group].storages, f.reply.value;
    var make := AddTo(m[f.a], r.info, r.filePath, r.fileName, f.group);
    FanOutComplete(m, make);
    forall x | x in FanOut(m, make) ensures MsgOk(c.nodes, rec, x) {
      var b :| b in m && make(m[b]) == Some(x);
      assert SlotOk(c.nodes, f.group, f.a, m[f.a]) && SlotOk(c.nodes, f.group, b, m[b]);
      HostOfBaseUrl(m[f.a].schema, f.a);
      HostOfBaseUrl(m[b].schema, b);
      BaseUrlHasSlash(m[b].schema, b);
    }
  }

  lemma AnswerRecords(md5: Digest, c: Cluster, j: nat, p: string)
    requires Inv(md5, c) && Answerable(c, j) && StoredBy(c.uploads, c.flights[j], p)
    ensures UploadsOk(md5, DoAnswer(c, j))
  {
    hide KnownPath, DoAnswer, FanOut, TargetPath, GenFileName, GenFilePath, PathsOk, TasksOk, LogsOk, ConfOk,
      MsgOk, StoredPath, Started, Decimal, FlightsOk, Registered;
    AnswerParts(c, j, p);
    var c', rec := DoAnswer(c, j), c.uploads[p];
    assert RecordOk(md5, c.nodes, c.ids, p, rec);
    FanOutOk(c, rec.(fan := c'.uploads[p].fan), c.flights[j]);
    forall q | q in c'.uploads ensures RecordOk(md5, c'.nodes, c'.ids, q, c'.uploads[q]) {
      assert RecordOk(md5, c.nodes, c.ids, q, c.uploads[q]);
    }
  }

  // A fan-out message names the file of its upload.
  lemma MsgAtPath(md5: Digest, c: Cluster, p: string, m: SyncFileInfo)
    requires UploadsOk(md5, c) && p in c.uploads && m in c.uploads[p].Msgs()
    ensures PathOf(m) == p && m.action == SYNC_ADD && SyncOk(c.uploads, c.deletes, m)
  {
    hide NameId, HostOf;
    assert RecordOk(md5, c.nodes, c.ids, p, c.uploads[p]);
    assert MsgOk(c.nodes, c.uploads[p], m);
  }

  lemma AnswerTasks(md5: Digest, c: Cluster, j: nat, p: string)
    requires Inv(md5, c) && Answerable(c, j) && StoredBy(c.uploads, c.flights[j], p)
    requires Grows(c, DoAnswer(c, j)) && UploadsOk(md5, DoAnswer(c, j))
    ensures TasksOk(DoAnswer(c, j))
  {
    hide NodesOk, RegistryOk, UploadsOk, PathsOk, LogsOk, FlightsOk, DoAnswer, FanOut, Started, SyncOk;
    var c' := DoAnswer(c, j);
    AnswerParts(c, j, p);
    forall i | 0 <= i < |c.tasks| ensures TaskOk(c', c.tasks[i]) { GrowsTask(c, c', c.tasks[i]); }
    var rec := c'.uploads[p];
    StartedAt(rec.Msgs());
    forall i | 0 <= i < |rec.Msgs()| ensures SyncOk(c'.uploads, c'.deletes, rec.Msgs()[i]) {
      assert rec.Msgs()[i] in rec.Msgs();
      MsgAtPath(md5, c', p, rec.Msgs()[i]);
    }
  }

  lemma AnswerFlights(c: Cluster, j: nat, p: string)
    requires FlightsOk(c) && Answerable(c, j) && StoredBy(c.uploads, c.flights[j], p)
    ensures FlightsOk(DoAnswer(c, j))
  {
    hide NodesOk, RegistryOk, UploadsOk, PathsOk, TasksOk, LogsOk, DoAnswer, FanOut, Started, FlightOk, HasFlight,
      StoredBy, StoredPath;
    AnswerParts(c, j, p);
    var c' := DoAnswer(c, j);
    forall i | 0 <= i < |c'.flights| ensures FlightOk(c', c'.flights[i]) { AnsweredFlight(c, c', j, p, i); }
    forall q | q in c'.uploads ensures HasFlight(c', q) { AnsweredHas(c, c', j, p, q); }
    FlightsMoved(c, c', j);
  }

  lemma AnsweredFlight(c: Cluster, c': Cluster, j: nat, p: string, i: nat)
    requires FlightsOk(c) && j < |c.flights| && i < |c.flights| && StoredBy(c.uploads, c.flights[j], p)
    requires c'.flights == c.flights[j := c.flights[j].(end := Handled)] && c'.nodes == c.nodes
    requires c'.tracker == c.tracker
    requires c'.drawn == c.drawn && c'.ids == c.ids
    requires p in c'.uploads && c'.uploads == c.uploads[p := c'.uploads[p]]
    requires c'.uploads[p].fan.Some? && c'.uploads[p] == c.uploads[p].(fan := c'.uploads[p].fan)
    ensures FlightOk(c', c'.flights[i])
  {
    hide Decimal, GenFileName, GenFilePath, StoredPath, HasFlight, Registered;
    assert FlightOk(c, c.flights[i]);
  }

  lemma AnsweredHas(c: Cluster, c': Cluster, j: nat, p: string, q: string)
    requires FlightsOk(c) && j < |c.flights| && StoredBy(c.uploads, c.flights[j], p)
    requires c'.flights == c.flights[j := c.flights[j].(end := Handled)]
    requires p in c'.uploads && q in c'.uploads && c'.uploads == c.uploads[p := c'.uploads[p]]
    requires c'.uploads[p].fan.Some? && c'.uploads[p] == c.uploads[p].(fan := c'.uploads[p].fan)
    ensures HasFlight(c', q)
  {
    hide Decimal, GenFileName, GenFilePath, StoredPath, Registered;
    HasFlightLater(c, c', q);
  }

  // A flight that ends without a stored file or without its answer.
  lemma EndFlights(c: Cluster, c': Cluster, j: nat, end: FlightEnd)
    requires FlightsOk(c) && j < |c.flights| && c.flights[j].end == Open && end != Open
    requires end == Missed || (c.flights[j].reply.Some? && !c.flights[j].reply.value.Stored?)
    requires c'.flights == c.flights[j := c.flights[j].(end := end)]
    requires c'.nodes == c.nodes && c'.uploads == c.uploads && c'.drawn == c.drawn && c'.ids == c.ids
    requires forall g, a :: Registered(c.tracker, g, a) ==> Registered(c'.tracker, g, a)
    ensures FlightsOk(c')
  {
    hide Decimal, GenFilePath, GenFileName, StoredPath;
    forall i | 0 <= i < |c'.flights| ensures FlightOk(c', c'.flights[i]) { assert FlightOk(c, c.flights[i]); }
    forall p | p in c'.uploads ensures HasFlight(c', p) {
      var i :| 0 <= i < |c.flights| && StoredBy(c.uploads, c.flights[i], p);
      assert StoredBy(c'.uploads, c'.flights[i], p);
    }
  }

  // A step that changes nothing but flights and, within bounds, the registry.
  lemma EndStep(md5: Digest, c: Cluster, c': Cluster)
    requires Inv(md5, c) && c' == c.(flights := c'.flights, tracker := c'.tracker, drawn := c'.drawn)
    requires c.drawn <= c'.drawn
    requires RegistryOk(c.nodes, c'.tracker) && FlightsOk(c') && FlightsGrow(c, c')
    ensures Inv(md5, c') && Grows(c, c')
  {
    hide SlotOk, RecordOk, KnownPath, SyncOk, FlightsOk, FlightsGrow;
    forall i | 0 <= i < |c'.tasks| ensures TaskOk(c', c'.tasks[i]) { assert TaskOk(c, c.tasks[i]); }
  }

  lemma AnswerInv(md5: Digest, c: Cluster, j: nat)
    requires Inv(md5, c) && Answerable(c, j)
    ensures Inv(md5, DoAnswer(c, j)) && Grows(c, DoAnswer(c, j))
  {
    hide KnownPath, SlotOk, RecordOk, StoredPath, SyncOk, FlightsOk, UploadsOk, RegistryOk, FanOut, Started,
      GenFilePath, GenFileName, DoAnswer, TasksOk;
    var c', f := DoAnswer(c, j), c.flights[j];
    if f.reply.value.Stored? {
      var p := StoredPath(f.reply.value.filePath, f.reply.value.fileName);
      assert StoredBy(c.uploads, f, p) by { StoredFlight(md5, c, j); }
      AnswerParts(c, j, p);
      AnswerRecords(md5, c, j, p);
      AnswerTasks(md5, c, j, p);
      AnswerFlights(c, j, p);
      DeleteLogs(c, c');
    } else {
      AnswerRefused(c, j);
      EndFlights(c, c', j, Handled);
      EndStep(md5, c, c');
    }
  }

  lemma AnswerRefused(c: Cluster, j: nat)
    requires Answerable(c, j) && !c.flights[j].reply.value.Stored?
    ensures DoAnswer(c, j) == SetFlight(c, j, c.flights[j].(end := Handled))
  {
  }

  lemma StoredFlight(md5: Digest, c: Cluster, j: nat)
    requires Inv(md5, c) && j < |c.flights| && c.flights[j].reply.Some? && c.flights[j].reply.value.Stored?
    ensures var r := c.flights[j].reply.value; StoredBy(c.uploads, c.flights[j], StoredPath(r.filePath, r.fileName))
  {
    hide NodesOk, RegistryOk, UploadsOk, PathsOk, TasksOk, LogsOk, StoredBy, StoredPath, HasFlight;
    assert FlightOk(c, c.flights[j]);
  }

  lemma MissInv(md5: Digest, c: Cluster, j: nat, aborts: bool)
    requires Inv(md5, c) && j < |c.flights| && c.flights[j].end == Open
    ensures Inv(md5, DoMiss(c, j, aborts)) && Grows(c, DoMiss(c, j, aborts))
  {
    hide SlotOk, RecordOk, KnownPath, SyncOk, FlightsOk, UploadsOk, PathsOk, RegistryOk, AbortStep, TasksOk;
    var c' := DoMiss(c, j, aborts);
    AbortRegistry(c.nodes, c.tracker, c.flights[j].group, c.flights[j].a);
    EndFlights(c, c', j, Missed);
    EndStep(md5, c, c');
  }

  // --- All steps ---

  lemma NextInv(md5: Digest, c: Cluster, s: Step)
    requires Inv(md5, c)
    ensures Inv(md5, Next(md5, c, s)) && Grows(c, Next(md5, c, s))
  {
    hide SlotOk, RecordOk, KnownPath, UploadsOk, PathsOk, LogsOk, SyncOk, FlightsOk, RegistryOk, DoReport, DoSave,
      DoAnswer, DoMiss, DoDelete, DoDeliver, DoCrash, Fail, Succeed, Collect, Usable, Consider, Routed;
    if Enabled(c, s) {
      match s {
        case Report(a, free, time, now) => ReportInv(md5, c, a, free, time, now);
        case ProxyAbort(group, a) =>
          AbortRegistry(c.nodes, c.tracker, group, a);
          SameFlights(c, Next(md5, c, s));
          EndStep(md5, c, Next(md5, c, s));
        case RouteUpload(h, group, a, req) => RouteInv(md5, c, h, group, a, req);
        case SaveUpload(j, env) => SaveInv(md5, c, j, env);
        case AnswerUpload(j) => AnswerInv(md5, c, j);
        case MissAnswer(j, aborts) => MissInv(md5, c, j, aborts);
        case DeleteFile(group, fileId, hash, file) => DeleteInv(md5, c, group, fileId, hash, file);
        case SkipUnusable(i) => FailInv(md5, c, i);
        case Send(i) => SendInv(md5, c, i);
        case DeliverTask(i, at) => assert TaskOk(c, c.tasks[i]); DeliverInv(md5, c, i, at);
        case Answer(i) =>
          if c.tasks[i].wire.answer == Some(SUCCESS) { SucceedInv(md5, c, i); } else { FailInv(md5, c, i); }
        case GiveUp(i) => FailInv(md5, c, i);
        case RepairEntry(sync) => RepairInv(md5, c, sync);
        case CollectTrash(a, path) => CollectInv(md5, c, a, path);
        case CrashTracker => CrashInv(md5, c);
      }
    }
  }

  // --- All runs ---

  lemma InitInv(md5: Digest, c: Cluster)
    requires Init(c)
    ensures Inv(md5, c)
  {
  }

  lemma {:induction false} RunInv(md5: Digest, c: Cluster, steps: seq<Step>)
    requires Init(c)
    ensures Inv(md5, After(md5, c, steps))
  {
    if steps == [] {
      InitInv(md5, c);
    } else {
      RunInv(md5, c, steps[..|steps| - 1]);
      NextInv(md5, After(md5, c, steps[..|steps| - 1]), steps[|steps| - 1]);
    }
  }

  lemma GrowsTransitive(c1: Cluster, c2: Cluster, c3: Cluster)
    requires Grows(c1, c2) && Grows(c2, c3)
    ensures Grows(c1, c3)
  {
  }

  lemma {:induction false} RunGrows(md5: Digest, c: Cluster, steps: seq<Step>)
    requires Inv(md5, c)
    ensures Inv(md5, After(md5, c, steps)) && Grows(c, After(md5, c, steps))
  {
    if steps != [] {
      var mid := After(md5, c, steps[..|steps| - 1]);
      RunGrows(md5, c, steps[..|steps| - 1]);
      NextInv(md5, mid, steps[|steps| - 1]);
      GrowsTransitive(c, mid, Next(md5, mid, steps[|steps| - 1]));
    }
  }
}
