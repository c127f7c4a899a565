// Runs from the start that reach the states the guarantees speak of, with steps the tracker
// takes: uploads go where it routes them, syncs and repairs where it finds an Active storage.
module Reachable {
  import opened Lib
  import opened Order
  import opened Names
  import opened Membership
  import opened Nodes
  import opened Replication
  import opened Repairs
  import opened Routing
  import opened Protocol
  import opened ProtocolInv
  import opened Conservation
  import opened Contents
  import opened Loss
  import opened Guarantees
  import opened FirstSyncs
  import opened Copies
  import opened LogRuns
  import opened LogTruth

  // An upload of new content that nothing stops.
  predicate Smooth(n: NodeState, req: UploadRequest, env: UploadEnv) {
    && Decimal(req.uuid) && req.form.Some? && req.fileHash == ""
    && env.dirReady && env.fate == Saves && n.conf.fileSizeLimit <= 0
  }

  // --- From the start to a stored upload ---

  // Two nodes of a group have reported, and nothing else has happened.
  ghost predicate Up(c0: Cluster, c: Cluster, g: string, a: string, b: string, t: int) {
    && ActiveAt(c, g, a, t) && ActiveAt(c, g, b, t) && c.tracker[g].status == GroupActive
    && c == c0.(tracker := c.tracker)
  }

  lemma SameNoTasks(c: Cluster, c': Cluster)
    requires SameTasks(c, c') && c.tasks == []
    ensures c'.tasks == c.tasks
  {
  }

  lemma FitMore(md5: Digest, c0: Cluster, c: Cluster, g: string, a: string, b: string, d: string, t: int)
    requires NodesOk(c0) && c0.tasks == [] && Reports(c0.nodes, g, d) && Up(c0, c, g, a, b, t)
    ensures var c' := Next(md5, c, Fit(d, t)); Up(c0, c', g, a, b, t) && ActiveAt(c', g, d, t)
  {
    hide Next, ConfOk, Reports;
    FitActivates(md5, c, g, d, t);
    SameNoTasks(c, Next(md5, c, Fit(d, t)));
  }

  lemma TwoUp(md5: Digest, c0: Cluster, g: string, a: string, b: string, t: int)
    requires Init(c0) && Reports(c0.nodes, g, a) && Reports(c0.nodes, g, b)
    ensures Up(c0, After(md5, c0, [Fit(a, t), Fit(b, t)]), g, a, b, t)
  {
    hide Next, Reports;
    InitInv(md5, c0);
    AfterUpToThree(md5, c0, Fit(a, t), Fit(b, t), Fit(b, t));
    var c1 := Next(md5, c0, Fit(a, t));
    FitActivates(md5, c0, g, a, t);
    SameNoTasks(c0, c1);
    FitActivates(md5, c1, g, b, t);
    SameNoTasks(c1, Next(md5, c1, Fit(b, t)));
  }

  // Every Active storage serves some hash.
  lemma SomeHash(m: Storages, a: string) returns (h: nat)
    requires IsActive(m, a)
    ensures Select(m, h) == Some(a)
  {
    hide Select, SortedSeq;
    var up := SortedSeq(ActiveAddrs(m));
    assert a in Elements(up);
    h :| h < |up| && up[h] == a;
    SelectIs(m, up, h);
    SmallMod(h, |up|);
  }

  lemma SmallMod(h: nat, n: nat)
    requires h < n
    ensures h % n == h
  {
  }

  function StoreRun(h: nat, g: string, a: string, req: UploadRequest, env: UploadEnv): seq<Step> {
    [RouteUpload(h, g, a, req), SaveUpload(0, env)]
  }

  // A routed upload that nothing stops is stored, and its answer can be handled.
  lemma Stored(md5: Digest, c: Cluster, h: nat, g: string, a: string, req: UploadRequest, env: UploadEnv)
    requires Inv(md5, c) && c.flights == [] && a in c.nodes && Smooth(c.nodes[a], req, env)
    requires Enabled(c, RouteUpload(h, g, a, req))
    ensures var c' := After(md5, c, StoreRun(h, g, a, req, env)); var p := TargetPath(req, env);
      && Inv(md5, c') && AboutToFan(c', 0, p) && Answerable(c', 0) && p in c'.uploads
      && c'.flights[0].group == g && c'.flights[0].a == a && c'.uploads[p].group == g && c'.uploads[p].src == a
      && c'.uploads[p].Content() == req.form.value.content
      && c'.tracker == c.tracker && c'.tasks == c.tasks && c'.deletes == c.deletes && c'.mode == c.mode
      && SameNodes(c.nodes, c'.nodes) && a in c'.nodes && Indexed(md5, c'.nodes[a], p)
      && p in c'.nodes[a].files && NoneBut(c'.nodes[a].files, c.nodes[a].files, p)
      && c'.nodes[a].files[p] == req.form.value.content
  {
    hide Inv, Next, Upload, TargetPath, StoredPath, GenFilePath, GenFileName, DoSave, MayChoose, Select, StoredBy,
      Indexed;
    var s1, s2 := RouteUpload(h, g, a, req), SaveUpload(0, env);
    AfterUpToThree(md5, c, s1, s2, s2);
    var c1 := Next(md5, c, s1);
    RouteNow(md5, c, h, g, a, req);
    NextInv(md5, c, s1);
    assert c1.flights == [Flight(g, a, req, None, Open)];
    SmoothStored(md5, c.nodes[a], req, env);
    StoredShape(md5, c.nodes[a], req, env);
    SmoothIndexed(md5, c.nodes[a], req, env);
    var c2 := Next(md5, c1, s2);
    SaveNow(md5, c1, 0, env);
    NextInv(md5, c1, s2);
    SaveParts(md5, c1, 0, env);
    UploadConf(md5, c.nodes[a], req, env);
    StoredFlight(md5, c2, 0);
  }

  lemma RouteNow(md5: Digest, c: Cluster, h: nat, g: string, a: string, req: UploadRequest)
    requires Enabled(c, RouteUpload(h, g, a, req))
    ensures Next(md5, c, RouteUpload(h, g, a, req)) ==
      c.(flights := c.flights + [Flight(g, a, req, None, Open)], drawn := c.drawn + {req.uuid})
  {
    hide Routed;
  }

  lemma SaveNow(md5: Digest, c: Cluster, j: nat, env: UploadEnv)
    requires Savable(c, j)
    ensures Next(md5, c, SaveUpload(j, env)) == DoSave(md5, c, j, env)
  {
    hide DoSave;
  }

  lemma SmoothStored(md5: Digest, n: NodeState, req: UploadRequest, env: UploadEnv)
    requires Smooth(n, req, env)
    ensures Upload(md5, n, req, env).1.Stored?
  {
    hide GenFileName, GenFilePath, StoredPath, UploadInfo;
  }

  // The only file that may be new is p.
  predicate NoneBut(files': map<string, Bytes>, files: map<string, Bytes>, p: string) {
    forall q :: q in files' ==> q in files || q == p
  }

  // It writes its file and enters it under its digest.
  lemma SmoothIndexed(md5: Digest, n: NodeState, req: UploadRequest, env: UploadEnv)
    requires Smooth(n, req, env)
    ensures var n' := Upload(md5, n, req, env).0; var p := TargetPath(req, env);
      Indexed(md5, n', p) && p in n'.files && NoneBut(n'.files, n.files, p) && n'.files[p] == req.form.value.content
  {
    hide GenFileName, GenFilePath, StoredPath, UrlOf;
  }

  // From a state where nodes have only reported, an upload to node a can be routed and stored.
  lemma UpStores(md5: Digest, c0: Cluster, c: Cluster, g: string, a: string, b: string, req: UploadRequest,
                 env: UploadEnv, t: int)
    returns (h: nat)
    requires Init(c0) && Inv(md5, c) && Up(c0, c, g, a, b, t) && a in c.nodes && Smooth(c.nodes[a], req, env)
    ensures Enabled(c, RouteUpload(h, g, a, req))
  {
    hide Inv, MayChoose, Select, GenFileName, GenFilePath;
    assert IsActive(c.tracker[g].storages, a);
    h := SomeHash(c.tracker[g].storages, a);
    AsWrittenMayChooseAnyActive(c.tracker, g);
  }

  lemma ThreeOf(a: string, b: string, d: string, s: set<string>)
    requires a in s && b in s && d in s && a != b && a != d && b != d
    ensures |s| > 2
  {
    var rest := s - {a} - {b};
    assert d in rest;
    assert |s| == |s - {a}| + 1 == |rest| + 2;
  }

  // --- A destination that is forgotten ---

  lemma SinceAppend(x: seq<Step>, y: seq<Step>, t: int)
    requires Since(x, t) && Since(y, t)
    ensures Since(x + y, t)
  {
    forall i | 0 <= i < |x + y| && (x + y)[i].Report? ensures t <= (x + y)[i].time <= (x + y)[i].now {
      assert (x + y)[i] == if i < |x| then x[i] else y[i - |x|];
    }
  }

  // Three nodes report and an upload to the first one is stored.
  lemma ThreeStore(md5: Digest, c0: Cluster, g: string, a: string, b: string, d: string, req: UploadRequest,
                   env: UploadEnv, t: int)
    returns (steps: seq<Step>)
    requires Init(c0) && a != b && a != d && b != d
    requires Reports(c0.nodes, g, a) && Reports(c0.nodes, g, b) && Reports(c0.nodes, g, d)
    requires req.form.Some? && Smooth(c0.nodes[a], req, env)
    ensures Since(steps, t) && forall i :: 0 <= i < |steps| ==> !steps[i].DeliverTask?
    ensures var c := After(md5, c0, steps); var p := TargetPath(req, env);
      && Inv(md5, c) && Held(c) && AboutToFan(c, 0, p) && GroupSize(c, 0) > 2 && p in c.uploads
      && c.mode == c0.mode && c.deletes == {} && c.uploads[p].group == g
      && c.uploads[p].Content() == req.form.value.content
  {
    hide Inv, Held, Next, After, AboutToFan, TargetPath, Reports, Since, StoreRun, Enabled, ActiveAt, Smooth, Init,
      SameNodes;
    var r3 := [Fit(a, t), Fit(b, t)] + [Fit(d, t)];
    StartInv(md5, c0);
    ThreeUp(md5, c0, g, a, b, d, t);
    var c := After(md5, c0, r3);
    RunInv(md5, c0, r3);
    RunHeld(md5, c0, r3);
    ReportsNode(c0, g, a);
    var h := UpStores(md5, c0, c, g, a, b, req, env, t);
    var store := StoreRun(h, g, a, req, env);
    Stored(md5, c, h, g, a, req, env);
    HeldFrom(md5, c, store);
    AfterConcat(md5, c0, r3, store);
    steps := r3 + store;
    var c' := After(md5, c0, steps);
    OwnSince(g, a, b, d, h, req, env, t);
    assert c'.flights[0].group == g && c'.tracker == c.tracker;
    ThreeInGroup(c', c, g, a, b, d, t);
  }

  lemma ThreeUp(md5: Digest, c0: Cluster, g: string, a: string, b: string, d: string, t: int)
    requires Init(c0) && Reports(c0.nodes, g, a) && Reports(c0.nodes, g, b) && Reports(c0.nodes, g, d)
    ensures var c := After(md5, c0, [Fit(a, t), Fit(b, t)] + [Fit(d, t)]); Up(c0, c, g, a, b, t) && ActiveAt(c, g, d, t)
  {
    hide Next, After, Reports;
    var r2 := [Fit(a, t), Fit(b, t)];
    StartInv(md5, c0);
    TwoUp(md5, c0, g, a, b, t);
    AfterAppend(md5, c0, r2, Fit(d, t));
    FitMore(md5, c0, After(md5, c0, r2), g, a, b, d, t);
  }

  lemma ThreeInGroup(c': Cluster, c: Cluster, g: string, a: string, b: string, d: string, t: int)
    requires Answerable(c', 0) && c'.flights[0].group == g && c'.tracker == c.tracker
    requires ActiveAt(c, g, a, t) && ActiveAt(c, g, b, t) && ActiveAt(c, g, d, t) && a != b && a != d && b != d
    ensures GroupSize(c', 0) > 2
  {
    ThreeRegistered(c, g, a, b, d, t);
  }

  lemma ThreeRegistered(c: Cluster, g: string, a: string, b: string, d: string, t: int)
    requires ActiveAt(c, g, a, t) && ActiveAt(c, g, b, t) && ActiveAt(c, g, d, t) && a != b && a != d && b != d
    ensures |c.tracker[g].storages.Keys| > 2
  {
    ThreeOf(a, b, d, c.tracker[g].storages.Keys);
  }

  // With repair by address, in any cluster with three nodes in one group, some run from the start,
  // with all its reports stamped at any time t and no copy cut off, ends with a stored, undeleted
  // file of which nothing is under way and one destination has no copy.
  lemma SomeRunForgets(md5: Digest, c0: Cluster, g: string, a: string, b: string, d: string, req: UploadRequest,
                       env: UploadEnv, t: int)
    requires Init(c0) && c0.mode == ByAddress && a != b && a != d && b != d
    requires Reports(c0.nodes, g, a) && Reports(c0.nodes, g, b) && Reports(c0.nodes, g, d)
    requires req.form.Some? && Smooth(c0.nodes[a], req, env) && req.form.value.content != []
    requires UrlSafe(TargetPath(req, env)) && UrlSafe(g)
    ensures exists steps, m ::
      Since(steps, t) && Whole(steps) && Forgotten(After(md5, c0, steps), TargetPath(req, env), m)
  {
    hide Inv, Held, Next, After, StoredBy, Forgotten, TargetPath, Smooth, UrlSafe, Init, Reports, DoAnswer,
      ForgetRun, Since, Whole, JustFanned;
    var p := TargetPath(req, env);
    var steps := ThreeStore(md5, c0, g, a, b, d, req, env, t);
    var c := After(md5, c0, steps);
    Fanned(md5, c0, steps, 0, p);
    var c1 := DoAnswer(c, 0);
    FirstForgotten(md5, c1, p, |c.tasks|, t);
    var m1, src := c1.uploads[p].Msgs()[1], c1.uploads[p].src;
    var forget := ForgetRun(c1, |c.tasks|, m1, src, t);
    AfterConcat(md5, c0, steps + [AnswerUpload(0)], forget);
    ForgetRunSince(c1, |c.tasks|, m1, src, t);
    SinceAnswer(steps, forget, t);
    WholeWith(steps, forget);
    assert Forgotten(After(md5, c0, steps + [AnswerUpload(0)] + forget), p, c1.uploads[p].Msgs()[0]);
  }

  // With repair by address, in any cluster with two nodes in one group, some run from the start
  // ends with a stored, undeleted, non-empty file of which nothing is under way and whose only
  // replica is empty.
  lemma SomeRunSpoils(md5: Digest, c0: Cluster, g: string, a: string, b: string, req: UploadRequest, env: UploadEnv,
                      t: int)
    requires Init(c0) && c0.mode == ByAddress && a != b && Reports(c0.nodes, g, a) && Reports(c0.nodes, g, b)
    requires req.form.Some? && Smooth(c0.nodes[a], req, env) && req.form.value.content != []
    requires UrlSafe(TargetPath(req, env)) && UrlSafe(g)
    ensures exists steps, m :: Since(steps, t) && Spoiled(After(md5, c0, steps), TargetPath(req, env), m)
  {
    hide Inv, Held, Next, After, StoredBy, Spoiled, TargetPath, Smooth, UrlSafe, Init, Reports, DoAnswer, CutRun,
      Since, JustFanned, ActiveAt, HostOf;
    var p := TargetPath(req, env);
    var steps := TwoStore(md5, c0, g, a, b, req, env, t);
    var c := After(md5, c0, steps);
    Fanned(md5, c0, steps, 0, p);
    var c1 := DoAnswer(c, 0);
    var i := FanTask(md5, c, p, g, a, b, t);
    RepairedThenCut(md5, c1, p, |c.tasks|, t);
    var m, src := c1.uploads[p].Msgs()[0], c1.uploads[p].src;
    var run := CutRun(c1, |c.tasks|, m, src, t);
    AfterConcat(md5, c0, steps + [AnswerUpload(0)], run);
    CutRunSince(c1, |c.tasks|, m, src, t);
    SinceAnswer(steps, run, t);
    assert Spoiled(After(md5, c0, steps + [AnswerUpload(0)] + run), p, m);
  }

  lemma SinceAnswer(x: seq<Step>, y: seq<Step>, t: int)
    requires Since(x, t) && Since(y, t)
    ensures Since(x + [AnswerUpload(0)] + y, t)
  {
    SinceAppend(x, [AnswerUpload(0)], t);
    SinceAppend(x + [AnswerUpload(0)], y, t);
  }

  lemma WholeWith(x: seq<Step>, y: seq<Step>)
    requires Whole(y) && forall i :: 0 <= i < |x| ==> !x[i].DeliverTask?
    ensures Whole(x + [AnswerUpload(0)] + y)
  {
  }

  lemma StartInv(md5: Digest, c0: Cluster)
    requires Init(c0)
    ensures NodesOk(c0) && c0.tasks == [] && c0.flights == [] && c0.deletes == {}
  {
    hide ConfOk;
  }

  lemma ReportsNode(c: Cluster, g: string, a: string)
    requires Reports(c.nodes, g, a)
    ensures a in c.nodes
  {
  }

  lemma OwnSince(g: string, a: string, b: string, d: string, h: nat, req: UploadRequest, env: UploadEnv, t: int)
    ensures var steps := [Fit(a, t), Fit(b, t)] + [Fit(d, t)] + StoreRun(h, g, a, req, env);
      Since(steps, t) && forall i :: 0 <= i < |steps| ==> !steps[i].DeliverTask?
  {
  }

  // --- A replica that is the page for a missing file ---

  // Some ADD of the file at p was acknowledged, and its destination holds the source's page for
  // a missing file.
  ghost predicate KeepsPage(c: Cluster, p: string) {
    p in c.uploads && exists i: nat :: AckedPage(c, p, i)
  }

  ghost predicate AckedPage(c: Cluster, p: string, i: nat)
    requires p in c.uploads
  {
    && i < |c.tasks| && !c.tasks[i].repair && c.tasks[i].phase == Acked && c.tasks[i].info in c.uploads[p].Msgs()
    && FileAt(c.nodes, HostOf(c.tasks[i].info.dst), p) == Some(PageOf(c.nodes, c.uploads[p].src))
  }

  // Two nodes report and an upload to the first one is stored.
  lemma TwoStore(md5: Digest, c0: Cluster, g: string, a: string, b: string, req: UploadRequest, env: UploadEnv, t: int)
    returns (steps: seq<Step>)
    requires Init(c0) && a != b && Reports(c0.nodes, g, a) && Reports(c0.nodes, g, b)
    requires req.form.Some? && Smooth(c0.nodes[a], req, env)
    ensures Since(steps, t) && forall i :: 0 <= i < |steps| ==> !steps[i].DeliverTask?
    ensures var c := After(md5, c0, steps); var p := TargetPath(req, env);
      && Inv(md5, c) && Held(c) && AboutToFan(c, 0, p) && p in c.uploads && c.uploads[p].group == g
      && c.uploads[p].src == a
      && c.mode == c0.mode && c.uploads[p].Content() == req.form.value.content
      && c.tasks == [] && c.deletes == {} && ActiveAt(c, g, a, t) && ActiveAt(c, g, b, t)
      && SameNodes(c0.nodes, c.nodes)
      && a in c.nodes && Indexed(md5, c.nodes[a], p)
      && p in c.nodes[a].files && NoneBut(c.nodes[a].files, c0.nodes[a].files, p)
      && c.nodes[a].files[p] == req.form.value.content
  {
    hide Inv, Held, Next, After, AboutToFan, TargetPath, Reports, Since, StoreRun, Enabled, ActiveAt, Smooth, Init,
      SameNodes, Indexed, NoneBut, Up;
    var r2 := [Fit(a, t), Fit(b, t)];
    StartInv(md5, c0);
    TwoUp(md5, c0, g, a, b, t);
    var c := After(md5, c0, r2);
    UpParts(c0, c, g, a, b, t);
    RunInv(md5, c0, r2);
    RunHeld(md5, c0, r2);
    ReportsNode(c0, g, a);
    var h := UpStores(md5, c0, c, g, a, b, req, env, t);
    var store := StoreRun(h, g, a, req, env);
    Stored(md5, c, h, g, a, req, env);
    HeldFrom(md5, c, store);
    AfterConcat(md5, c0, r2, store);
    steps := r2 + store;
    TwoSince(g, a, b, h, req, env, t);
    SameActive(c, After(md5, c0, steps), g, a, t);
    SameActive(c, After(md5, c0, steps), g, b, t);
  }

  lemma NoFiles(c0: Cluster, a: string)
    requires Init(c0) && a in c0.nodes
    ensures c0.nodes[a].files.Keys == {}
  {
    hide ConfOk;
  }

  lemma UpParts(c0: Cluster, c: Cluster, g: string, a: string, b: string, t: int)
    requires Up(c0, c, g, a, b, t)
    ensures ActiveAt(c, g, a, t) && ActiveAt(c, g, b, t) && c.nodes == c0.nodes && c.tasks == c0.tasks
    ensures c.flights == c0.flights && c.deletes == c0.deletes && c.mode == c0.mode
  {
  }

  lemma TwoSince(g: string, a: string, b: string, h: nat, req: UploadRequest, env: UploadEnv, t: int)
    ensures var steps := [Fit(a, t), Fit(b, t)] + StoreRun(h, g, a, req, env);
      Since(steps, t) && forall i :: 0 <= i < |steps| ==> !steps[i].DeliverTask?
  {
  }

  lemma SameActive(c: Cluster, c': Cluster, g: string, a: string, t: int)
    requires ActiveAt(c, g, a, t) && c'.tracker == c.tracker
    ensures ActiveAt(c', g, a, t)
  {
  }

  // The fan-out to b of the upload about to be fanned out is among its tasks.
  lemma FanTask(md5: Digest, c: Cluster, p: string, g: string, a: string, b: string, t: int) returns (i: nat)
    requires Inv(md5, c) && AboutToFan(c, 0, p) && c.tasks == [] && a != b && p in c.uploads
    requires c.uploads[p].group == g && c.uploads[p].src == a && ActiveAt(c, g, b, t)
    ensures var c1 := DoAnswer(c, 0);
      && p in c1.uploads && i < |c1.tasks| && c1.tasks[i].info in c1.uploads[p].Msgs()
      && c1.tasks[i] == Fresh(c1.tasks[i].info)
      && HostOf(c1.tasks[i].info.dst) == b && c1.tasks[i].info.group == g && c1.tasks[i].info.action == SYNC_ADD
      && c1.tracker == c.tracker && c1.nodes == c.nodes && c1.deletes == c.deletes && c1.uploads[p].group == g
      && c1.uploads[p].src == a
  {
    hide DoAnswer, FanOut, Started, StoredPath, GenFilePath, GenFileName, UploadsOk, PathsOk, TasksOk, LogsOk,
      FlightsOk;
    var c1, f := DoAnswer(c, 0), c.flights[0];
    AnswerParts(c, 0, p);
    var m, rep := c.tracker[g].storages, f.reply.value;
    var make := AddTo(m[a], rep.info, rep.filePath, rep.fileName, g);
    FanOutComplete(m, make);
    assert SlotOk(c.nodes, g, b, m[b]) && SlotOk(c.nodes, g, a, m[a]);
    var msg := AddMessage(m[a], m[b], rep.info, rep.filePath, rep.fileName, g);
    assert make(m[b]) == Some(msg);
    HostOfBaseUrl(m[b].schema, b);
    var msgs := c1.uploads[p].Msgs();
    assert msg in msgs;
    i :| i < |msgs| && msgs[i] == msg;
    StartedAt(msgs);
  }

  // A delete of the file starts a sync to its source.
  lemma DeleteTask(md5: Digest, c: Cluster, p: string, g: string, a: string, hash: string, t: int) returns (i: nat)
    requires Inv(md5, c) && ActiveAt(c, g, a, t) && ParseHeaderFilePath(p).Some?
    ensures var c' := DoDelete(c, g, "", hash, p);
      && |c.tasks| <= i < |c'.tasks| && c'.tasks[i] == Fresh(c'.tasks[i].info) && c'.tasks[..|c.tasks|] == c.tasks
      && HostOf(c'.tasks[i].info.dst) == a && PathOf(c'.tasks[i].info) == p && c'.tasks[i].info.action == SYNC_DELETE
      && c'.tasks[i].info.fileHash == hash && c'.tasks[i].info.group == g
      && c' == c.(tasks := c'.tasks, deletes := c'.deletes, asked := c'.asked)
  {
    hide FanOut, Started, UploadsOk, PathsOk, TasksOk, LogsOk, FlightsOk, ParseHeaderFilePath, BaseUrl, HostOf;
    var (filePath, fileName) := ParseHeaderFilePath(p).value;
    ParseFailsWithoutSlash(p);
    var m := c.tracker[g].storages;
    var make := DeleteAt("", filePath, fileName, hash, g);
    FanOutComplete(m, make);
    assert SlotOk(c.nodes, g, a, m[a]);
    var msg := DeleteMessage(m[a], "", filePath, fileName, hash, g);
    assert make(m[a]) == Some(msg);
    HostOfBaseUrl(m[a].schema, a);
    var msgs := FanOut(m, make);
    var k :| 0 <= k < |msgs| && msgs[k] == msg;
    StartedAt(msgs);
    i := |c.tasks| + k;
  }

  // A sync to an Active storage is sent.
  lemma SentNow(md5: Digest, c: Cluster, i: nat, g: string, d: string, t: int)
    requires i < |c.tasks| && c.tasks[i] == Fresh(c.tasks[i].info) && HostOf(c.tasks[i].info.dst) == d
    requires c.tasks[i].info.group == g
    requires ActiveAt(c, g, d, t)
    ensures Next(md5, c, Send(i)) == SetTask(c, i, c.tasks[i].(phase := Waiting, wire := Travelling))
  {
    hide HostOf;
  }

  // A delivered DELETE takes the file from its node.
  lemma DeletedNow(md5: Digest, c: Cluster, i: nat, a: string, p: string)
    requires i < |c.tasks| && c.tasks[i].wire == Travelling && c.tasks[i].info.action == SYNC_DELETE
    requires HostOf(c.tasks[i].info.dst) == a && a in c.nodes && PathOf(c.tasks[i].info) == p
    ensures var c' := Next(md5, c, DeliverTask(i, WHOLE));
      && FileAt(c'.nodes, a, p).None? && PageOf(c'.nodes, a) == PageOf(c.nodes, a)
      && c' == c.(nodes := c'.nodes, tasks := c.tasks[i := c'.tasks[i]], damaged := c'.damaged)
  {
    hide HostOf, PathOf, Damage;
  }

  // The answer Success settles a fresh sync.
  lemma AnsweredNow(md5: Digest, c: Cluster, i: nat)
    requires IsWaiting(c, i) && !c.tasks[i].repair && c.tasks[i].wire == Delivered(Some(SUCCESS))
    ensures Next(md5, c, Answer(i)) == SetTask(c, i, c.tasks[i].(phase := Acked))
  {
  }

  // The ADD is sent; the delete reaches the source; then the ADD fetches.
  function PageRun(i: nat, k: nat, g: string, hash: string, p: string): seq<Step> {
    [Send(i), DeleteFile(g, "", hash, p), Send(k)] + [DeliverTask(k, WHOLE), DeliverTask(i, WHOLE), Answer(i)]
  }

  lemma PageKept(md5: Digest, c: Cluster, i: nat, p: string, g: string, a: string, b: string, hash: string, t: int)
    returns (k: nat)
    requires Inv(md5, c) && p in c.uploads && c.uploads[p].group == g && c.uploads[p].src == a && a in c.nodes
    requires Fetchable(c.uploads[p], p) && PageOf(c.nodes, a) != [] && ParseHeaderFilePath(p).Some?
    requires ActiveAt(c, g, a, t) && ActiveAt(c, g, b, t)
    requires i < |c.tasks| && c.tasks[i] == Fresh(c.tasks[i].info) && c.tasks[i].info in c.uploads[p].Msgs()
    requires HostOf(c.tasks[i].info.dst) == b && c.tasks[i].info.group == g
    ensures KeepsPage(After(md5, c, PageRun(i, k, g, hash, p)), p)
  {
    hide Inv, Next, After, UrlSafe, HostOf, PathOf, ParseHeaderFilePath, ActiveAt, DoDelete, DoDeliver, FileAt,
      Damage;
    var s1, s2 := Send(i), DeleteFile(g, "", hash, p);
    var c1 := Next(md5, c, s1);
    SentNow(md5, c, i, g, b, t);
    NextInv(md5, c, s1);
    SameActive(c, c1, g, a, t);
    k := DeleteTask(md5, c1, p, g, a, hash, t);
    var s3 := Send(k);
    DeleteNow(md5, c1, g, hash, p, a, t);
    var c2 := Next(md5, c1, s2);
    NextInv(md5, c1, s2);
    SameActive(c1, c2, g, a, t);
    SentNow(md5, c2, k, g, a, t);
    var c3 := Next(md5, c2, s3);
    NextInv(md5, c2, s3);
    AfterUpToThree(md5, c, s1, s2, s3);
    PageFetched(md5, c3, i, k, p, a);
    AfterConcat(md5, c, [s1, s2, s3], [DeliverTask(k, WHOLE), DeliverTask(i, WHOLE), Answer(i)]);
  }

  lemma DeleteNow(md5: Digest, c: Cluster, g: string, hash: string, p: string, a: string, t: int)
    requires ActiveAt(c, g, a, t) && ParseHeaderFilePath(p).Some?
    ensures Next(md5, c, DeleteFile(g, "", hash, p)) == DoDelete(c, g, "", hash, p)
  {
    hide DoDelete, ParseHeaderFilePath;
  }

  lemma PageFetched(md5: Digest, c: Cluster, i: nat, k: nat, p: string, a: string)
    requires Inv(md5, c) && p in c.uploads && c.uploads[p].src == a && a in c.nodes && Fetchable(c.uploads[p], p)
    requires PageOf(c.nodes, a) != []
    requires i < |c.tasks| && k < |c.tasks| && i != k && !c.tasks[i].repair && c.tasks[i].info in c.uploads[p].Msgs()
    requires c.tasks[i].phase == Waiting && c.tasks[i].wire == Travelling && c.tasks[k].wire == Travelling
    requires c.tasks[k].info.action == SYNC_DELETE && HostOf(c.tasks[k].info.dst) == a && PathOf(c.tasks[k].info) == p
    ensures KeepsPage(After(md5, c, [DeliverTask(k, WHOLE), DeliverTask(i, WHOLE), Answer(i)]), p)
  {
    hide Inv, Next, After, UrlSafe, HostOf, PathOf, DoDeliver, FileAt;
    var s1, s2, s3 := DeliverTask(k, WHOLE), DeliverTask(i, WHOLE), Answer(i);
    AfterUpToThree(md5, c, s1, s2, s3);
    DeletedNow(md5, c, k, a, p);
    var c1 := Next(md5, c, s1);
    NextInv(md5, c, s1);
    MissingSourceDelivers(md5, c1, i, p, None);
    DeliverNow(md5, c1, i, WHOLE);
    var c2 := Next(md5, c1, s2);
    SourceAway(md5, c1, p, i);
    NextInv(md5, c1, s2);
    SamePage(c1, c2, a);
    AnsweredNow(md5, c2, i);
    assert AckedPage(Next(md5, c2, s3), p, i);
  }

  lemma SourceAway(md5: Digest, c: Cluster, p: string, i: nat)
    requires Inv(md5, c) && p in c.uploads && i < |c.tasks| && c.tasks[i].info in c.uploads[p].Msgs()
    ensures HostOf(c.tasks[i].info.dst) != c.uploads[p].src
  {
    hide Inv, HostOf, PathOf;
    SourceOf(md5, c, p, c.tasks[i].info);
  }

  lemma SamePage(c: Cluster, c': Cluster, a: string)
    requires Grows(c, c')
    ensures PageOf(c'.nodes, a) == PageOf(c.nodes, a)
  {
  }

  // In any cluster with two nodes in one group whose page for a missing file is not empty, some
  // run from the start ends with a deleted file whose replica is that page, acknowledged as if
  // it were the file.
  lemma SomeRunKeepsPage(md5: Digest, c0: Cluster, g: string, a: string, b: string, req: UploadRequest,
                         env: UploadEnv, t: int)
    requires Init(c0) && a != b && Reports(c0.nodes, g, a) && Reports(c0.nodes, g, b)
    requires req.form.Some? && Smooth(c0.nodes[a], req, env) && PageOf(c0.nodes, a) != []
    requires UrlSafe(TargetPath(req, env)) && UrlSafe(g)
    ensures exists steps :: Since(steps, t) && KeepsPage(After(md5, c0, steps), TargetPath(req, env))
  {
    hide Inv, Held, Next, After, StoredBy, KeepsPage, TargetPath, UrlSafe, Init, Reports, DoAnswer, Since,
      ActiveAt, PageRun, HostOf, ParseHeaderFilePath;
    var p := TargetPath(req, env);
    var steps := TwoStore(md5, c0, g, a, b, req, env, t);
    var c := After(md5, c0, steps);
    PageSame(c0, c, a);
    var i := FanTask(md5, c, p, g, a, b, t);
    var c1 := DoAnswer(c, 0);
    AnswerIsNext(md5, c, 0);
    AnswerInv(md5, c, 0);
    AfterAppend(md5, c0, steps, AnswerUpload(0));
    SameActive(c, c1, g, a, t);
    SameActive(c, c1, g, b, t);
    TargetParses(req, env);
    var k := PageKept(md5, c1, i, p, g, a, b, "", t);
    var run := PageRun(i, k, g, "", p);
    AfterConcat(md5, c0, steps + [AnswerUpload(0)], run);
    PageSince(i, k, g, "", p, t);
    SinceAnswer(steps, run, t);
    assert KeepsPage(After(md5, c0, steps + [AnswerUpload(0)] + run), p);
  }

  lemma PageSame(c0: Cluster, c: Cluster, a: string)
    requires SameNodes(c0.nodes, c.nodes) && PageOf(c0.nodes, a) != []
    ensures a in c.nodes && PageOf(c.nodes, a) == PageOf(c0.nodes, a)
  {
  }

  lemma TargetParses(req: UploadRequest, env: UploadEnv)
    requires req.form.Some? && Decimal(req.uuid)
    ensures ParseHeaderFilePath(TargetPath(req, env)).Some?
  {
    hide GenFileName, GenFilePath;
    UploadPathParses(env.today, req.customDir, req.uuid, req.form.value.filename);
  }

  lemma PageSince(i: nat, k: nat, g: string, hash: string, p: string, t: int)
    ensures Since(PageRun(i, k, g, hash, p), t)
  {
  }
}
