// More runs from the start that go wrong: a stored file without any duty, an index broken by a
// delete with another digest, and a replica with the bytes of another page.
module Mishaps {
  import opened Lib
  import opened Order
  import opened Names
  import opened Membership
  import opened Nodes
  import opened Replication
  import opened Repairs
  import opened Routing
  import opened Protocol
  import opened ProtocolInv
  import opened Conservation
  import opened Contents
  import opened Loss
  import opened FirstSyncs
  import opened Guarantees
  import opened LogRuns
  import opened Reachable

  // --- A stored file without duties ---

  // The upload at p will never have a fan-out.
  ghost predicate Orphaned(md5: Digest, c: Cluster, p: string) {
    forall more :: NeverFanned(After(md5, c, more), p)
  }

  ghost predicate NeverFanned(c: Cluster, p: string) {
    p in c.uploads && c.uploads[p].fan.None?
  }

  lemma MissedForever(md5: Digest, c: Cluster, p: string, more: seq<Step>)
    requires JustMissed(md5, c, p)
    ensures NeverFanned(After(md5, c, more), p)
  {
    hide NodesOk, RegistryOk, UploadsOk, PathsOk, TasksOk, LogsOk, StoredPath, GenFilePath, GenFileName, After;
    RunGrows(md5, c, more);
    var c2 := After(md5, c, more);
    assert FlightLater(c.flights[0], c2.flights[0]);
    assert FlightOk(c2, c2.flights[0]);
  }

  // Right after the answer was lost.
  ghost predicate JustMissed(md5: Digest, c: Cluster, p: string) {
    Inv(md5, c) && c.flights != [] && StoredBy(c.uploads, c.flights[0], p) && c.flights[0].end == Missed
  }

  lemma MissNow(md5: Digest, c: Cluster, p: string)
    requires Inv(md5, c) && AboutToFan(c, 0, p)
    ensures JustMissed(md5, Next(md5, c, MissAnswer(0, true)), p)
  {
    hide Inv, AbortStep, StoredPath, GenFilePath, GenFileName;
    NextInv(md5, c, MissAnswer(0, true));
  }

  // Some run from the start stores a file that no later run ever replicates: its node answered,
  // but the answer was lost.
  lemma SomeRunOrphans(md5: Digest, c0: Cluster, g: string, a: string, b: string, req: UploadRequest,
                       env: UploadEnv, t: int)
    requires Init(c0) && a != b && Reports(c0.nodes, g, a) && Reports(c0.nodes, g, b)
    requires req.form.Some? && Smooth(c0.nodes[a], req, env)
    ensures exists steps :: Since(steps, t) && Orphaned(md5, After(md5, c0, steps), TargetPath(req, env))
  {
    hide Inv, Held, Next, After, JustMissed, TargetPath, Init, Reports, Since, ActiveAt, Smooth, Indexed,
      SameNodes, NeverFanned, AboutToFan;
    var p := TargetPath(req, env);
    var steps := TwoStore(md5, c0, g, a, b, req, env, t);
    var c := After(md5, c0, steps);
    var s := MissAnswer(0, true);
    MissNow(md5, c, p);
    var c1 := Next(md5, c, s);
    AfterAppend(md5, c0, steps, s);
    SinceMiss(steps, t);
    forall more ensures NeverFanned(After(md5, c1, more), p) { MissedForever(md5, c1, p, more); }
    assert Orphaned(md5, After(md5, c0, steps + [s]), p);
  }

  lemma SinceMiss(steps: seq<Step>, t: int)
    requires Since(steps, t)
    ensures Since(steps + [MissAnswer(0, true)], t)
  {
    SinceAppend(steps, [MissAnswer(0, true)], t);
  }

  // --- An index broken by a delete ---

  // An entry whose file is gone makes an index unsound.
  lemma DanglingEntry(md5: Digest, n: NodeState, h: string, p: string)
    requires h in n.index && n.index[h].url == UrlOf(n.conf, p) && p !in n.files
    ensures !IndexSound(md5, n)
  {
    if IndexSound(md5, n) { EntryIsIndexed(md5, n, h, p); }
  }

  // A delivered DELETE with another digest than the file's leaves the file's entry behind.
  lemma WrongDelete(md5: Digest, n: NodeState, m: SyncFileInfo, p: string)
    requires PathOf(m) == p && Indexed(md5, n, p) && m.fileHash != md5(n.files[p])
    ensures !IndexSound(md5, SyncDelete(n, m, true).0)
  {
    hide PathOf, UrlOf, IndexSound;
    DanglingEntry(md5, SyncDelete(n, m, true).0, md5(n.files[p]), p);
  }

  lemma WrongDelivered(md5: Digest, c: Cluster, k: nat, a: string, p: string)
    requires k < |c.tasks| && c.tasks[k].wire == Travelling && c.tasks[k].info.action == SYNC_DELETE
    requires HostOf(c.tasks[k].info.dst) == a && PathOf(c.tasks[k].info) == p
    requires a in c.nodes && Indexed(md5, c.nodes[a], p) && c.tasks[k].info.fileHash != md5(c.nodes[a].files[p])
    ensures var c' := Next(md5, c, DeliverTask(k, WHOLE)); a in c'.nodes && !IndexSound(md5, c'.nodes[a])
  {
    hide PathOf, HostOf, IndexSound, Indexed, Damage;
    WrongDelete(md5, c.nodes[a], c.tasks[k].info, p);
  }

  // Some run from the start, with one delete that carries another digest than the file's, leaves
  // an index with an entry for a file that is gone.
  lemma SomeRunBreaksIndex(md5: Digest, c0: Cluster, g: string, a: string, b: string, req: UploadRequest,
                           env: UploadEnv,
                           hash: string, t: int)
    requires Init(c0) && a != b && Reports(c0.nodes, g, a) && Reports(c0.nodes, g, b)
    requires req.form.Some? && Smooth(c0.nodes[a], req, env) && hash != md5(req.form.value.content)
    ensures exists steps :: Since(steps, t) && Broken(md5, After(md5, c0, steps), a)
  {
    hide Inv, Held, Next, After, StoredBy, TargetPath, Init, Reports, Since, ActiveAt, Indexed, SameNodes,
      AboutToFan, HostOf, PathOf, ParseHeaderFilePath, DoDelete, Broken;
    var p := TargetPath(req, env);
    var steps := TwoStore(md5, c0, g, a, b, req, env, t);
    var c := After(md5, c0, steps);
    TargetParses(req, env);
    var k := DeleteTask(md5, c, p, g, a, hash, t);
    var s1, s2, s3 := DeleteFile(g, "", hash, p), Send(k), DeliverTask(k, WHOLE);
    DeleteNow(md5, c, g, hash, p, a, t);
    var c1 := Next(md5, c, s1);
    SameActive(c, c1, g, a, t);
    SentNow(md5, c1, k, g, a, t);
    var c2 := Next(md5, c1, s2);
    WrongDelivered(md5, c2, k, a, p);
    BrokenNow(md5, Next(md5, c2, s3), a);
    AfterUpToThree(md5, c, s1, s2, s3);
    AfterConcat(md5, c0, steps, [s1, s2, s3]);
    SinceDelete(steps, s1, s2, s3, t);
    assert Broken(md5, After(md5, c0, steps + [s1, s2, s3]), a);
  }

  ghost predicate Broken(md5: Digest, c: Cluster, a: string) {
    a in c.nodes && !IndexSound(md5, c.nodes[a])
  }

  lemma BrokenNow(md5: Digest, c: Cluster, a: string)
    requires a in c.nodes && !IndexSound(md5, c.nodes[a])
    ensures Broken(md5, c, a)
  {
  }

  lemma SinceDelete(steps: seq<Step>, s1: Step, s2: Step, s3: Step, t: int)
    requires Since(steps, t) && !s1.Report? && !s2.Report? && !s3.Report?
    ensures Since(steps + [s1, s2, s3], t)
  {
    SinceAppend(steps, [s1, s2, s3], t);
  }

  // --- A name that is not URL-safe ---

  // A question mark at the end is cut off.
  lemma QueryCut(y: string)
    requires UrlSafe(y)
    ensures Requested(y + "?") == Some(y)
  {
    assert y + "?" == y + "?" + "";
    QueryApart(y, "");
    SafeRequested(y);
  }

  // A fetch of such a path names the path without the question mark; if no file stands there, nor
  // anything else the server serves, it brings the page for a missing file.
  lemma MangledFetch(nodes: NodeMap, m: SyncFileInfo, a: string, x: string)
    requires UrlSafe(m.group) && UrlSafe(x) && PathOf(m) == x + "?" && HostOf(m.src) == a
    requires a in nodes && nodes[a].conf.group == m.group && x !in nodes[a].files
    ensures Fetch(nodes, m, None) == Some(PageOf(nodes, a))
  {
    hide PathOf, HostOf, Requested;
    var y := m.group + "/" + x;
    assert UrlSafe(y) by { assert forall c :: c in y ==> c in m.group || c == '/' || c in x; }
    QueryCut(y);
    assert UrlPath(m) == y + "?";
    assert y[|m.group| + 1..] == x;
  }

  // p is stored and no delete has named it, and some first sync of it was acknowledged and brought
  // these bytes.
  ghost predicate BroughtBytes(c: Cluster, p: string, i: nat, bytes: Bytes) {
    p in c.uploads && p !in c.deletes && IsFirst(c, i) && c.tasks[i].phase == Acked
    && c.tasks[i].info in c.uploads[p].Msgs() && FileAt(c.nodes, HostOf(c.tasks[i].info.dst), p) == Some(bytes)
  }

  lemma MangledSync(md5: Digest, c: Cluster, i: nat, p: string, g: string, a: string, b: string, x: string, t: int)
    requires Inv(md5, c) && p in c.uploads && c.uploads[p].group == g && c.uploads[p].src == a && ActiveAt(c, g, b, t)
    requires p !in c.deletes
    requires i < |c.tasks| && c.tasks[i] == Fresh(c.tasks[i].info) && c.tasks[i].info in c.uploads[p].Msgs()
    requires HostOf(c.tasks[i].info.dst) == b && c.tasks[i].info.group == g
    requires UrlSafe(g) && UrlSafe(x) && p == x + "?" && PageOf(c.nodes, a) != [] && x !in c.nodes[a].files
    ensures BroughtBytes(After(md5, c, [Send(i), DeliverTask(i, WHOLE), Answer(i)]), p, i, PageOf(c.nodes, a))
  {
    hide Inv, Next, After, UrlSafe, HostOf, PathOf, ActiveAt, DoDeliver, FileAt;
    var s1, s2, s3 := Send(i), DeliverTask(i, WHOLE), Answer(i);
    AfterUpToThree(md5, c, s1, s2, s3);
    SourceOf(md5, c, p, c.tasks[i].info);
    SentNow(md5, c, i, g, b, t);
    var c1 := Next(md5, c, s1);
    MangledFetch(c1.nodes, c.tasks[i].info, a, x);
    DeliverNow(md5, c1, i, WHOLE);
    PageDelivered(md5, c1, i, p, PageOf(c.nodes, a));
    var c2 := Next(md5, c1, s2);
    AnsweredNow(md5, c2, i);
    assert BroughtBytes(Next(md5, c2, s3), p, i, PageOf(c.nodes, a));
  }

  lemma PageDelivered(md5: Digest, c: Cluster, i: nat, p: string, page: Bytes)
    requires i < |c.tasks| && c.tasks[i].info.action == SYNC_ADD && PathOf(c.tasks[i].info) == p
    requires HostOf(c.tasks[i].info.dst) in c.nodes && Fetch(c.nodes, c.tasks[i].info, None) == Some(page) && page != []
    ensures var c' := DoDeliver(md5, c, i, WHOLE); var m := c.tasks[i].info;
      && FileAt(c'.nodes, HostOf(m.dst), p) == Some(page) && c'.uploads == c.uploads && c'.deletes == c.deletes
      && c'.tasks == c.tasks[i := c.tasks[i].(wire := Delivered(Some(SUCCESS)))]
  {
    hide HostOf, PathOf, Fetch, Deliver, Damage, OpOf;
    AnyDelivery(md5, c.nodes, c.tasks[i].info, WHOLE);
  }

  lemma NotThere(files': map<string, Bytes>, files: map<string, Bytes>, p: string, x: string)
    requires NoneBut(files', files, p) && files.Keys == {} && p == x + "?"
    ensures x !in files'
  {
    assert |x| != |p|;
  }

  // No fetch of the run names a directory or another page.
  predicate NothingOdd(steps: seq<Step>) {
    forall i :: 0 <= i < |steps| && steps[i].DeliverTask? ==> steps[i].at.odd.None?
  }

  lemma FanNothingOdd(steps: seq<Step>, i: nat)
    requires forall k :: 0 <= k < |steps| ==> !steps[k].DeliverTask?
    ensures NothingOdd(steps + [AnswerUpload(0)] + [Send(i), DeliverTask(i, WHOLE), Answer(i)])
  {
  }

  // For a file whose path ends in a question mark and is URL-safe otherwise, some run from the
  // start, in which no fetch names a directory, ends with the source's page for a missing file at
  // a destination, acknowledged as the file, though no delete has named it.
  lemma SomeRunMangles(md5: Digest, c0: Cluster, g: string, a: string, b: string, req: UploadRequest, env: UploadEnv,
                       x: string, t: int)
    requires Init(c0) && a != b && Reports(c0.nodes, g, a) && Reports(c0.nodes, g, b)
    requires req.form.Some? && Smooth(c0.nodes[a], req, env) && PageOf(c0.nodes, a) != []
    requires TargetPath(req, env) == x + "?" && UrlSafe(x) && UrlSafe(g)
    ensures exists steps, i: nat ::
      && Since(steps, t) && NothingOdd(steps)
      && BroughtBytes(After(md5, c0, steps), TargetPath(req, env), i, PageOf(c0.nodes, a))
  {
    hide Inv, Held, Next, After, StoredBy, TargetPath, UrlSafe, Init, Reports, DoAnswer, Since, ActiveAt, HostOf,
      Smooth, Indexed, SameNodes, BroughtBytes, NothingOdd;
    var p := TargetPath(req, env);
    var steps := TwoStore(md5, c0, g, a, b, req, env, t);
    var c := After(md5, c0, steps);
    var i := FanTask(md5, c, p, g, a, b, t);
    var c1 := DoAnswer(c, 0);
    AnswerIsNext(md5, c, 0);
    AnswerInv(md5, c, 0);
    AfterAppend(md5, c0, steps, AnswerUpload(0));
    SameActive(c, c1, g, b, t);
    PageSame(c0, c, a);
    NoFiles(c0, a);
    NotThere(c.nodes[a].files, c0.nodes[a].files, p, x);
    MangledSync(md5, c1, i, p, g, a, b, x, t);
    var run := [Send(i), DeliverTask(i, WHOLE), Answer(i)];
    AfterConcat(md5, c0, steps + [AnswerUpload(0)], run);
    SinceDelete([], run[0], run[1], run[2], t);
    SinceAnswer(steps, run, t);
    FanNothingOdd(steps, i);
    assert BroughtBytes(After(md5, c0, steps + [AnswerUpload(0)] + run), p, i, PageOf(c0.nodes, a));
  }
}
