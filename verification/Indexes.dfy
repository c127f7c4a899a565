// The content index over whole runs: every entry on every node names a file that is there and
// has the digest, as long as deletes carry the digest of the file they name and every ADD
// either fetches the source's bytes whole or fails before it opens the file.
module Indexes {
  import opened Lib
  import opened Order
  import opened Names
  import opened Membership
  import opened Routing
  import opened Nodes
  import opened Replication
  import opened Repairs
  import opened Protocol
  import opened ProtocolInv
  import opened Conservation
  import opened Contents
  import opened Copies

  // --- Clean runs ---

  // The fetch brings the stored bytes, and the copy of them is not cut short.
  ghost predicate CleanFetch(c: Cluster, m: SyncFileInfo, at: DeliverFate) {
    m.action == SYNC_ADD && PathOf(m) in c.uploads ==>
      && !at.disk.SyncCopyFails?
      && (at.disk.Fetched? ==> Fetch(c.nodes, m, at.odd) == Some(c.uploads[PathOf(m)].Content()))
  }

  ghost predicate CleanSave(c: Cluster, req: UploadRequest, env: UploadEnv) {
    req.form.Some? ==> TargetPath(req, env) !in c.deletes
  }

  // What may happen in a clean run: no delete guesses the path of a later upload, a delete of a
  // stored file carries that file's digest, and fetches are clean.
  ghost predicate CleanStep(c: Cluster, s: Step) {
    match s
    case SaveUpload(j, env) => j < |c.flights| ==> CleanSave(c, c.flights[j].req, env)
    case DeleteFile(_, _, hash, file) => file in c.uploads ==> hash == c.uploads[file].info.md5
    case DeliverTask(i, at) => i < |c.tasks| ==> CleanFetch(c, c.tasks[i].info, at)
    case _ => true
  }

  ghost predicate CleanRun(md5: Digest, c: Cluster, steps: seq<Step>) {
    forall k :: 0 <= k < |steps| ==> CleanStep(After(md5, c, steps[..k]), steps[k])
  }

  // --- The invariant of clean runs ---

  // The entry for h on a node belongs to a stored upload with that digest.
  ghost predicate NamesUpload(uploads: map<string, Record>, n: NodeState, h: string) {
    exists q :: q in uploads && uploads[q].info.md5 == h && h in n.index && n.index[h].url == UrlOf(n.conf, q)
  }

  ghost predicate EntriesKnown(uploads: map<string, Record>, n: NodeState) {
    forall h :: h in n.index ==> NamesUpload(uploads, n, h)
  }

  // A DELETE of a stored file carries its digest.
  ghost predicate OwnHash(uploads: map<string, Record>, m: SyncFileInfo) {
    m.action == SYNC_DELETE && PathOf(m) in uploads ==> m.fileHash == uploads[PathOf(m)].info.md5
  }

  ghost predicate OwnDeletes(c: Cluster) {
    && (forall i :: 0 <= i < |c.tasks| ==> OwnHash(c.uploads, c.tasks[i].info))
    && (forall m :: m in c.logged ==> OwnHash(c.uploads, m))
  }

  ghost predicate NodeSound(md5: Digest, c: Cluster, n: NodeState) {
    IndexSound(md5, n) && EntriesKnown(c.uploads, n)
  }

  ghost predicate Sound(md5: Digest, c: Cluster) {
    && (forall a :: a in c.nodes ==> NodeSound(md5, c, c.nodes[a]))
    && OwnDeletes(c)
  }

  // An indexed file is a stored upload, and its digest is the upload's.
  lemma IndexedUpload(md5: Digest, c: Cluster, n: NodeState, p: string)
    requires UploadsOk(md5, c) && EntriesKnown(c.uploads, n) && Indexed(md5, n, p)
    ensures p in c.uploads && c.uploads[p].info.md5 == md5(n.files[p]) == md5(c.uploads[p].Content())
  {
    hide UrlOf, TargetPath, MsgOk, Decimal;
    var h := md5(n.files[p]);
    assert NamesUpload(c.uploads, n, h);
    var q :| q in c.uploads && c.uploads[q].info.md5 == h && n.index[h].url == UrlOf(n.conf, q);
    UrlInjective(n.conf, p, q);
    assert RecordOk(md5, c.nodes, c.ids, p, c.uploads[p]);
  }

  lemma HashOfUpload(md5: Digest, c: Cluster, m: SyncFileInfo)
    requires UploadsOk(md5, c) && SyncOk(c.uploads, c.deletes, m) && m.action == SYNC_ADD
    ensures m.fileHash == "" || m.fileHash == md5(c.uploads[PathOf(m)].Content())
  {
    hide TargetPath, MsgOk, Decimal, HostOf, PathOf;
    MsgEnds(md5, c, m);
    assert RecordOk(md5, c.nodes, c.ids, PathOf(m), c.uploads[PathOf(m)]);
  }

  // In a clean run every delivery is one that keeps the index sound.
  lemma DeliverSafe(md5: Digest, c: Cluster, m: SyncFileInfo, d: string, at: DeliverFate)
    requires UploadsOk(md5, c) && PathsOk(c) && SyncOk(c.uploads, c.deletes, m) && d in c.nodes
    requires NodeSound(md5, c, c.nodes[d]) && OwnHash(c.uploads, m) && CleanFetch(c, m, at)
    ensures Safe(md5, c.nodes[d], OpOf(c.nodes, m, at))
  {
    hide UrlOf, TargetPath, RecordOk, PathOf, Fetch, KnownPath, UploadsOk, IndexSound, EntriesKnown, Indexed;
    var n, p := c.nodes[d], PathOf(m);
    if Indexed(md5, n, p) { IndexedUpload(md5, c, n, p); }
    if m.action == SYNC_ADD { HashOfUpload(md5, c, m); }
    assert p in n.trash ==> p !in c.uploads;
  }

  // What a delivery does to the index: an ADD may enter its own file, nothing else is added.
  lemma DeliverKnown(md5: Digest, c: Cluster, m: SyncFileInfo, d: string, at: DeliverFate)
    requires UploadsOk(md5, c) && SyncOk(c.uploads, c.deletes, m) && d in c.nodes && EntriesKnown(c.uploads, c.nodes[d])
    ensures EntriesKnown(c.uploads, Apply(md5, c.nodes[d], OpOf(c.nodes, m, at)))
  {
    hide UrlOf, PathOf, Fetch, UploadsOk;
    var n := c.nodes[d];
    var n' := Apply(md5, n, OpOf(c.nodes, m, at));
    if m.action == SYNC_ADD { MsgEnds(md5, c, m); }
    EntriesStay(c.uploads, c.uploads, n, n', PathOf(m));
  }

  lemma DeliverSound(md5: Digest, c: Cluster, i: nat, at: DeliverFate)
    requires Inv(md5, c) && Sound(md5, c) && i < |c.tasks| && CleanFetch(c, c.tasks[i].info, at)
    ensures Sound(md5, DoDeliver(md5, c, i, at))
  {
    hide UrlOf, PathOf, HostOf, UploadsOk, PathsOk, SyncOk, Apply, OpOf, NodesOk, RegistryOk, LogsOk, IndexSound,
      EntriesKnown, OwnHash, CleanFetch, Damage, ReplyOf;
    var c' := DoDeliver(md5, c, i, at);
    var m := c.tasks[i].info;
    var d := HostOf(m.dst);
    assert TaskOk(c, c.tasks[i]);
    if d in c.nodes {
      DeliverSafe(md5, c, m, d, at);
      SafeKeepsSound(md5, c.nodes[d], OpOf(c.nodes, m, at));
      DeliverKnown(md5, c, m, d, at);
    }
  }

  // --- The other steps ---

  // A save enters at most its own file, under its own digest.
  lemma SaveKnown(md5: Digest, c: Cluster, j: nat, env: UploadEnv)
    requires Inv(md5, c) && Sound(md5, c) && Savable(c, j)
    ensures var c' := DoSave(md5, c, j, env);
      forall b :: b in c'.nodes ==> NodeSound(md5, c', c'.nodes[b])
  {
    hide Inv, Upload, DoSave, TargetPath, StoredPath, Decimal, IndexSound, UrlOf, OwnDeletes, EntriesKnown;
    var c', f := DoSave(md5, c, j, env), c.flights[j];
    SaveParts(md5, c, j, env);
    SaveGrows(md5, c, j, env);
    SaveSafe(md5, c, j, env);
    UploadSound(md5, c.nodes[f.a], f.req, env);
    SaveEntries(md5, c, j, env);
    forall b | b in c'.nodes && b != f.a ensures EntriesKnown(c'.uploads, c'.nodes[b]) {
      EntriesStay(c.uploads, c'.uploads, c.nodes[b], c.nodes[b], "");
    }
  }

  lemma SaveSafe(md5: Digest, c: Cluster, j: nat, env: UploadEnv)
    requires Inv(md5, c) && Savable(c, j)
    ensures UploadSafe(md5, c.nodes[c.flights[j].a], c.flights[j].req, env)
  {
    hide FlightsOk, TargetPath, Decimal;
    SaveFresh(c, j);
    if c.flights[j].req.form.Some? { FreshPath(md5, c, c.flights[j].req, env); }
  }

  lemma SaveEntries(md5: Digest, c: Cluster, j: nat, env: UploadEnv)
    requires Savable(c, j) && EntriesKnown(c.uploads, c.nodes[c.flights[j].a])
    requires forall p :: p in c.uploads ==>
      p in DoSave(md5, c, j, env).uploads && DoSave(md5, c, j, env).uploads[p] == c.uploads[p]
    ensures EntriesKnown(DoSave(md5, c, j, env).uploads, DoSave(md5, c, j, env).nodes[c.flights[j].a])
  {
    hide Upload, DoSave, TargetPath, StoredPath, Decimal, UrlOf, EntriesKnown;
    var c', f := DoSave(md5, c, j, env), c.flights[j];
    SaveParts(md5, c, j, env);
    UploadShape(md5, c.nodes[f.a], f.req, env);
    StoredShape(md5, c.nodes[f.a], f.req, env);
    EntriesStay(c.uploads, c'.uploads, c.nodes[f.a], c'.nodes[f.a], if f.req.form.Some? then TargetPath(f.req,
                env) else "");
  }

  // The index keeps its known entries and may gain one for a stored upload at p.
  lemma EntriesStay(uploads: map<string, Record>, uploads': map<string, Record>, n: NodeState, n': NodeState, p: string)
    requires EntriesKnown(uploads, n) && n'.conf == n.conf
    requires forall q :: q in uploads ==> q in uploads' && uploads'[q].info == uploads[q].info
    requires forall h :: h in n'.index && (h !in n.index || n'.index[h] != n.index[h]) ==>
      p in uploads' && uploads'[p].info.md5 == h && n'.index[h].url == UrlOf(n.conf, p)
    ensures EntriesKnown(uploads', n')
  {
    hide UrlOf;
    forall h | h in n'.index ensures NamesUpload(uploads', n', h) {
      if h in n.index && n'.index[h] == n.index[h] {
        assert NamesUpload(uploads, n, h);
        var q :| q in uploads && uploads[q].info.md5 == h && n.index[h].url == UrlOf(n.conf, q);
        assert uploads'[q].info.md5 == h;
      }
    }
  }

  // The saved path was in no delete, so no DELETE under way names it.
  lemma SaveOwn(md5: Digest, c: Cluster, j: nat, env: UploadEnv)
    requires Inv(md5, c) && OwnDeletes(c) && Savable(c, j) && CleanSave(c, c.flights[j].req, env)
    ensures OwnDeletes(DoSave(md5, c, j, env))
  {
    hide Upload, DoSave, TargetPath, StoredPath, KnownPath, UploadsOk, RegistryOk, NodesOk, FlightsOk, Decimal,
      PathsOk, PathOf;
    var c', f := DoSave(md5, c, j, env), c.flights[j];
    SaveParts(md5, c, j, env);
    StoredShape(md5, c.nodes[f.a], f.req, env);
    forall m | SyncOk(c.uploads, c.deletes, m) && OwnHash(c.uploads, m) ensures OwnHash(c'.uploads, m) {}
    forall i | 0 <= i < |c'.tasks| ensures OwnHash(c'.uploads, c'.tasks[i].info) {
      assert TaskOk(c, c.tasks[i]);
    }
  }

  // The syncs started for an answer are ADDs, and every index is as it was.
  lemma AnswerSound(md5: Digest, c: Cluster, j: nat)
    requires Inv(md5, c) && Sound(md5, c) && Answerable(c, j)
    ensures Sound(md5, DoAnswer(c, j))
  {
    hide Inv, StoredPath, DoAnswer, Started, FanOut, StoredBy, IndexSound, EntriesKnown, PathOf, OwnHash,
      UploadsOk;
    var c', f := DoAnswer(c, j), c.flights[j];
    if f.reply.value.Stored? {
      var p := StoredPath(f.reply.value.filePath, f.reply.value.fileName);
      StoredFlight(md5, c, j);
      AnswerParts(c, j, p);
      StoredHere(c, j, p);
      AnswerRecords(md5, c, j, p);
      forall b | b in c'.nodes ensures EntriesKnown(c'.uploads, c'.nodes[b]) {
        EntriesStay(c.uploads, c'.uploads, c.nodes[b], c.nodes[b], "");
      }
      AnswerOwn(md5, c, c', p);
    } else {
      AnswerRefused(c, j);
      QuietSound(md5, c, c');
    }
  }

  lemma AnswerOwn(md5: Digest, c: Cluster, c': Cluster, p: string)
    requires OwnDeletes(c) && UploadsOk(md5, c') && p in c.uploads && p in c'.uploads && c'.logged == c.logged
    requires c'.uploads == c.uploads[p := c'.uploads[p]] && c'.uploads[p].info == c.uploads[p].info
    requires c'.tasks == c.tasks + Started(c'.uploads[p].Msgs())
    ensures OwnDeletes(c')
  {
    hide PathOf, Started, UploadsOk;
    StartedAt(c'.uploads[p].Msgs());
    forall m | OwnHash(c.uploads, m) ensures OwnHash(c'.uploads, m) {}
    forall i | 0 <= i < |c'.tasks| ensures OwnHash(c'.uploads, c'.tasks[i].info) {
      if i >= |c.tasks| {
        assert c'.tasks[i].info in c'.uploads[p].Msgs();
        MsgAtPath(md5, c', p, c'.tasks[i].info);
      }
    }
  }

  lemma DeleteOwn(c: Cluster, group: string, fileId: string, hash: string, file: string)
    requires OwnDeletes(c) && group in c.tracker && ParseHeaderFilePath(file).Some?
    requires CleanStep(c, DeleteFile(group, fileId, hash, file))
    ensures OwnDeletes(DoDelete(c, group, fileId, hash, file))
  {
    hide FanOut, ParseHeaderFilePath, Started, BaseUrl;
    var c' := DoDelete(c, group, fileId, hash, file);
    var (filePath, fileName) := ParseHeaderFilePath(file).value;
    ParseFailsWithoutSlash(file);
    var m := c.tracker[group].storages;
    var make := DeleteAt(fileId, filePath, fileName, hash, group);
    var msgs := FanOut(m, make);
    FanOutComplete(m, make);
    StartedAt(msgs);
    forall i | 0 <= i < |msgs| ensures OwnHash(c'.uploads, msgs[i]) {
      assert msgs[i] in msgs;
    }
  }

  // A step that leaves nodes and uploads alone and starts no new message.
  lemma QuietSound(md5: Digest, c: Cluster, c': Cluster)
    requires Sound(md5, c) && c'.nodes == c.nodes && c'.uploads == c.uploads
    requires forall m :: m in c'.logged ==> m in c.logged || exists i :: 0 <= i < |c.tasks| && c.tasks[i].info == m
    requires forall i :: 0 <= i < |c'.tasks| ==>
      c'.tasks[i].info in c.logged || (i < |c.tasks| && c'.tasks[i].info == c.tasks[i].info)
    ensures Sound(md5, c')
  {
    hide OwnHash, IndexSound, EntriesKnown;
  }

  lemma SettledSound(md5: Digest, c: Cluster, i: nat)
    requires Sound(md5, c) && i < |c.tasks|
    ensures Sound(md5, Fail(c, i)) && Sound(md5, Succeed(c, i))
  {
    hide Sound, KeyOf;
    QuietSound(md5, c, Fail(c, i));
    QuietSound(md5, c, Succeed(c, i));
  }

  lemma CollectAllSound(md5: Digest, c: Cluster, a: string, path: string)
    requires Sound(md5, c) && a in c.nodes
    ensures Sound(md5, c.(nodes := c.nodes[a := Collect(c.nodes[a], path)]))
  {
    hide OwnHash, IndexSound, UrlOf;
    CollectSound(md5, c.nodes[a], path);
    forall h | h in c.nodes[a].index ensures NamesUpload(c.uploads, Collect(c.nodes[a], path), h) {
      assert NamesUpload(c.uploads, c.nodes[a], h);
    }
  }

  lemma NextSound(md5: Digest, c: Cluster, s: Step)
    requires Inv(md5, c) && Sound(md5, c) && CleanStep(c, s)
    ensures Sound(md5, Next(md5, c, s))
  {
    hide NodesOk, RegistryOk, UploadsOk, PathsOk, LogsOk, FlightsOk, SyncOk, DoReport, DoSave, DoAnswer, DoMiss,
      DoDelete, DoDeliver, DoCrash, Collect, IndexSound, EntriesKnown, OwnHash, AbortStep, KeyOf, Fail, Succeed,
      TargetPath, CleanFetch, CleanSave, Usable, Consider, Routed;
    if Enabled(c, s) {
      match s {
        case Report(a, free, time, now) => ReportSound(md5, c, a, free, time, now);
        case SaveUpload(j, env) =>
          SaveKnown(md5, c, j, env);
          SaveOwn(md5, c, j, env);
        case AnswerUpload(j) => AnswerSound(md5, c, j);
        case MissAnswer(j, aborts) => MissSound(md5, c, j, aborts);
        case DeleteFile(group, fileId, hash, file) =>
          DeleteOwn(c, group, fileId, hash, file);
          DeleteKeeps(c, group, fileId, hash, file);
        case DeliverTask(i, at) => DeliverSound(md5, c, i, at);
        case CollectTrash(a, path) => CollectAllSound(md5, c, a, path);
        case SkipUnusable(i) => SettledSound(md5, c, i);
        case Answer(i) => SettledSound(md5, c, i);
        case GiveUp(i) => SettledSound(md5, c, i);
        case CrashTracker => CrashSound(md5, c);
        case _ => QuietSound(md5, c, Next(md5, c, s));
      }
    }
  }

  lemma DeleteKeeps(c: Cluster, group: string, fileId: string, hash: string, file: string)
    requires group in c.tracker && ParseHeaderFilePath(file).Some?
    ensures var c' := DoDelete(c, group, fileId, hash, file); c'.nodes == c.nodes && c'.uploads == c.uploads
  {
    hide FanOut, Started;
  }

  lemma ReportSound(md5: Digest, c: Cluster, a: string, free: nat, time: int, now: int)
    requires Sound(md5, c) && a in c.nodes
    ensures Sound(md5, DoReport(c, a, free, time, now))
  {
    hide Sound, ReportStep, AddrOf, HostOf;
    QuietSound(md5, c, DoReport(c, a, free, time, now));
  }

  lemma MissSound(md5: Digest, c: Cluster, j: nat, aborts: bool)
    requires Sound(md5, c) && j < |c.flights|
    ensures Sound(md5, DoMiss(c, j, aborts))
  {
    hide Sound, AbortStep;
    QuietSound(md5, c, DoMiss(c, j, aborts));
  }

  lemma CrashSound(md5: Digest, c: Cluster)
    requires Sound(md5, c)
    ensures Sound(md5, DoCrash(c))
  {
    hide Sound;
    QuietSound(md5, c, DoCrash(c));
  }

  // --- All runs ---

  lemma CleanPrefix(md5: Digest, c: Cluster, steps: seq<Step>, k: nat)
    requires CleanRun(md5, c, steps) && k <= |steps|
    ensures CleanRun(md5, c, steps[..k])
  {
    hide CleanStep;
    forall j | 0 <= j < k ensures CleanStep(After(md5, c, steps[..k][..j]), steps[..k][j]) {
      assert steps[..k][..j] == steps[..j];
    }
  }

  // After every clean run every entry of every node's index names a file that is there, is not
  // about to be removed, and has the digest it is entered under.
  lemma {:induction false} RunIndexSound(md5: Digest, c0: Cluster, steps: seq<Step>)
    requires Init(c0) && CleanRun(md5, c0, steps)
    ensures Sound(md5, After(md5, c0, steps))
    ensures forall a :: a in After(md5, c0, steps).nodes ==> IndexSound(md5, After(md5, c0, steps).nodes[a])
  {
    hide CleanStep;
    if steps != [] {
      var pre := steps[..|steps| - 1];
      CleanPrefix(md5, c0, steps, |steps| - 1);
      RunInv(md5, c0, pre);
      RunIndexSound(md5, c0, pre);
      NextSound(md5, After(md5, c0, pre), steps[|steps| - 1]);
    }
  }

  // So an instant upload always answers with a live file of the requested digest.
  lemma InstantHitLive(md5: Digest, c0: Cluster, steps: seq<Step>, a: string, req: UploadRequest, env: UploadEnv)
    requires Init(c0) && CleanRun(md5, c0, steps) && a in After(md5, c0, steps).nodes
    ensures var n := After(md5, c0, steps).nodes[a]; var (n', r) := Upload(md5, n, req, env);
      r.Instant? ==> n' == n && Live(md5, n, r.info, req.fileHash)
  {
    RunIndexSound(md5, c0, steps);
    InstantHit(md5, After(md5, c0, steps).nodes[a], req, env);
  }

  // --- Runs without deletes ---

  predicate WholeCopies(s: Step) {
    !s.DeleteFile? && !(s.DeliverTask? && s.at.disk.SyncCopyFails?)
  }

  lemma NothingDeleted(md5: Digest, c: Cluster, s: Step)
    requires WholeCopies(s) && c.deletes == {}
    ensures Next(md5, c, s).deletes == {}
  {
    hide Upload, FanOut, Started, Deliver, ReportStep, AbortStep, Collect, KeyOf, Decimal, Damage, OpOf,
      StoredPath, HostOf, AddrOf, Usable, Consider, Routed, Fail, Succeed;
    if Enabled(c, s) {
      match s {
        case SkipUnusable(i) => SettledDeletes(c, i);
        case Answer(i) => SettledDeletes(c, i);
        case GiveUp(i) => SettledDeletes(c, i);
        case _ =>
      }
    }
  }

  lemma SettledDeletes(c: Cluster, i: nat)
    requires i < |c.tasks|
    ensures Fail(c, i).deletes == Succeed(c, i).deletes == c.deletes
  {
    hide KeyOf;
  }

  lemma {:induction false} NothingEverDeleted(md5: Digest, c0: Cluster, steps: seq<Step>)
    requires Init(c0) && forall k :: 0 <= k < |steps| ==> WholeCopies(steps[k])
    ensures After(md5, c0, steps).deletes == {}
  {
    hide WholeCopies;
    if steps != [] {
      NothingEverDeleted(md5, c0, steps[..|steps| - 1]);
      NothingDeleted(md5, After(md5, c0, steps[..|steps| - 1]), steps[|steps| - 1]);
    }
  }

  // While nothing is deleted the sources keep their files, so every fetch is clean.
  lemma CleanWithoutDeletes(md5: Digest, c: Cluster, s: Step)
    requires Inv(md5, c) && Held(c) && c.deletes == {} && WholeCopies(s)
    requires forall p :: p in c.uploads ==> Fetchable(c.uploads[p], p)
    ensures CleanStep(c, s)
  {
    hide UrlSafe, PathOf, HostOf, NodesOk, RegistryOk, UploadsOk, PathsOk, LogsOk, Fetch, TargetPath, SyncOk,
      HoldersOk, FileAt;
    if s.DeliverTask? && s.i < |c.tasks|
       && c.tasks[s.i].info.action == SYNC_ADD && PathOf(c.tasks[s.i].info) in c.uploads {
      var m := c.tasks[s.i].info;
      assert TaskOk(c, c.tasks[s.i]) && HoldersOk(c, PathOf(m));
      SourceHolds(c, PathOf(m));
      FetchShape(md5, c, m, s.at.odd);
    }
  }

  // Without deletes, cut-off copies and names that are not URL-safe, every index stays sound.
  lemma IndexSoundWithoutDeletes(md5: Digest, c0: Cluster, steps: seq<Step>)
    requires Init(c0) && forall k :: 0 <= k < |steps| ==> WholeCopies(steps[k])
    requires var c := After(md5, c0, steps); forall p :: p in c.uploads ==> Fetchable(c.uploads[p], p)
    ensures CleanRun(md5, c0, steps)
    ensures forall a :: a in After(md5, c0, steps).nodes ==> IndexSound(md5, After(md5, c0, steps).nodes[a])
  {
    hide UrlSafe, CleanStep, Inv, Held, WholeCopies, Sound, IndexSound;
    forall k | 0 <= k < |steps| ensures CleanStep(After(md5, c0, steps[..k]), steps[k]) {
      var c := After(md5, c0, steps[..k]);
      assert steps[..k] + steps[k..] == steps;
      AfterConcat(md5, c0, steps[..k], steps[k..]);
      RunInv(md5, c0, steps[..k]);
      RunHeld(md5, c0, steps[..k]);
      RunGrows(md5, c, steps[k..]);
      NothingEverDeleted(md5, c0, steps[..k]);
      CleanWithoutDeletes(md5, c, steps[k]);
    }
    RunIndexSound(md5, c0, steps);
  }

  // --- Exactly which runs keep every index sound ---

  ghost predicate AllSound(md5: Digest, c: Cluster) {
    forall a :: a in c.nodes ==> IndexSound(md5, c.nodes[a])
  }

  // A delivery, if the step is one, meets the condition of the operation it performs.
  ghost predicate DeliverySafe(md5: Digest, c: Cluster, s: Step) {
    s.DeliverTask? && Enabled(c, s) ==> SafeAt(md5, c, c.tasks[s.i].info, s.at)
  }

  ghost predicate SafeAt(md5: Digest, c: Cluster, m: SyncFileInfo, at: DeliverFate) {
    HostOf(m.dst) in c.nodes ==> Safe(md5, c.nodes[HostOf(m.dst)], OpOf(c.nodes, m, at))
  }

  lemma OpSoundIff(md5: Digest, n: NodeState, op: NodeOp)
    requires IndexSound(md5, n) && (op.OpAdd? || op.OpDelete?)
    ensures IndexSound(md5, Apply(md5, n, op)) <==> Safe(md5, n, op)
  {
    hide IndexSound, PathOf, Indexed;
    match op {
      case OpAdd(sync, fate, body) => AddSoundIff(md5, n, sync, fate, body);
      case OpDelete(sync, works) => DeleteSoundIff(md5, n, sync, works);
      case _ =>
    }
  }

  lemma OneNodeSoundIff(md5: Digest, c: Cluster, c': Cluster, d: string, n: NodeState)
    requires AllSound(md5, c) && d in c.nodes && c'.nodes == c.nodes[d := n]
    ensures AllSound(md5, c') <==> IndexSound(md5, n)
  {
    hide IndexSound;
    assert c'.nodes[d] == n;
  }

  lemma SoundAt(md5: Digest, c: Cluster, d: string)
    requires AllSound(md5, c) && d in c.nodes
    ensures IndexSound(md5, c.nodes[d])
  {
    hide IndexSound;
  }

  lemma DeliveredNode(md5: Digest, c: Cluster, i: nat, at: DeliverFate)
    requires i < |c.tasks| && HostOf(c.tasks[i].info.dst) in c.nodes && IsAction(c.tasks[i].info.action)
    ensures var m := c.tasks[i].info; var d := HostOf(m.dst);
      DoDeliver(md5, c, i, at).nodes == c.nodes[d := Apply(md5, c.nodes[d], OpOf(c.nodes, m, at))]
  {
    hide HostOf, Apply, OpOf, Damage, ReplyOf;
  }

  lemma DeliverSoundIff(md5: Digest, c: Cluster, i: nat, at: DeliverFate)
    requires TasksOk(c) && AllSound(md5, c) && i < |c.tasks|
    ensures AllSound(md5, DoDeliver(md5, c, i, at)) <==> SafeAt(md5, c, c.tasks[i].info, at)
  {
    hide AllSound, IndexSound, PathOf, HostOf, Apply, OpOf, Damage, ReplyOf, Safe, SyncOk;
    var c', m := DoDeliver(md5, c, i, at), c.tasks[i].info;
    var d := HostOf(m.dst);
    assert TaskOk(c, c.tasks[i]);
    if d !in c.nodes {
      SameNodesSound(md5, c, c');
    } else {
      ActionKnown(c, m);
      OpIsSync(c.nodes, m, at);
      SoundAt(md5, c, d);
      OpSoundIff(md5, c.nodes[d], OpOf(c.nodes, m, at));
      DeliveredNode(md5, c, i, at);
      OneNodeSoundIff(md5, c, c', d, Apply(md5, c.nodes[d], OpOf(c.nodes, m, at)));
    }
  }

  lemma ActionKnown(c: Cluster, m: SyncFileInfo)
    requires SyncOk(c.uploads, c.deletes, m)
    ensures IsAction(m.action)
  {
    hide PathOf;
  }

  // A step keeps all indexes sound if and only if it is no unsafe delivery.
  lemma NextSoundIff(md5: Digest, c: Cluster, s: Step)
    requires Inv(md5, c) && AllSound(md5, c)
    ensures AllSound(md5, Next(md5, c, s)) <==> DeliverySafe(md5, c, s)
  {
    hide AllSound, SafeAt, NodesOk, RegistryOk, UploadsOk, PathsOk, TasksOk, LogsOk, FlightsOk, Next;
    if s.SaveUpload? || s.DeliverTask? || s.CollectTrash? {
      MovedSoundIff(md5, c, s);
    } else {
      NodesKept(md5, c, s);
      SameNodesSound(md5, c, Next(md5, c, s));
    }
  }

  lemma SameNodesSound(md5: Digest, c: Cluster, c': Cluster)
    requires AllSound(md5, c) && c'.nodes == c.nodes
    ensures AllSound(md5, c')
  {
    hide IndexSound;
  }

  lemma MovedSoundIff(md5: Digest, c: Cluster, s: Step)
    requires Inv(md5, c) && AllSound(md5, c) && (s.SaveUpload? || s.DeliverTask? || s.CollectTrash?)
    ensures AllSound(md5, Next(md5, c, s)) <==> DeliverySafe(md5, c, s)
  {
    hide AllSound, SafeAt, NodesOk, RegistryOk, UploadsOk, PathsOk, TasksOk, LogsOk, FlightsOk, DoSave, DoDeliver,
      Collect;
    if Enabled(c, s) {
      match s {
        case SaveUpload(j, env) => SaveAllSound(md5, c, j, env);
        case DeliverTask(i, at) => DeliverSoundIff(md5, c, i, at);
        case CollectTrash(a, path) => CollectedSound(md5, c, a, path);
      }
    }
  }

  lemma SaveAllSound(md5: Digest, c: Cluster, j: nat, env: UploadEnv)
    requires Inv(md5, c) && AllSound(md5, c) && Savable(c, j)
    ensures AllSound(md5, DoSave(md5, c, j, env))
  {
    hide Inv, IndexSound, Upload, DoSave, StoredPath, TargetPath;
    SaveParts(md5, c, j, env);
    SaveSafe(md5, c, j, env);
    UploadSound(md5, c.nodes[c.flights[j].a], c.flights[j].req, env);
  }

  lemma CollectedSound(md5: Digest, c: Cluster, a: string, path: string)
    requires AllSound(md5, c) && a in c.nodes
    ensures AllSound(md5, c.(nodes := c.nodes[a := Collect(c.nodes[a], path)]))
  {
    hide IndexSound, Collect;
    CollectSound(md5, c.nodes[a], path);
  }

  // Every index stays sound throughout a run if and only if every delivery of it is safe.
  lemma RunSoundIff(md5: Digest, c0: Cluster, steps: seq<Step>)
    requires Init(c0)
    ensures (forall k :: 0 <= k <= |steps| ==> AllSound(md5, After(md5, c0, steps[..k])))
       <==> (forall k :: 0 <= k < |steps| ==> DeliverySafe(md5, After(md5, c0, steps[..k]), steps[k]))
  {
    hide AllSound, DeliverySafe, Inv, After, Next;
    if forall k :: 0 <= k < |steps| ==> DeliverySafe(md5, After(md5, c0, steps[..k]), steps[k]) {
      forall k | 0 <= k <= |steps| ensures AllSound(md5, After(md5, c0, steps[..k])) { SafePrefix(md5, c0, steps, k); }
    }
    if forall k :: 0 <= k <= |steps| ==> AllSound(md5, After(md5, c0, steps[..k])) {
      forall k | 0 <= k < |steps| ensures DeliverySafe(md5, After(md5, c0, steps[..k]), steps[k]) {
        RunInv(md5, c0, steps[..k]);
        assert AllSound(md5, After(md5, c0, steps[..k])) && AllSound(md5, After(md5, c0, steps[..k + 1]));
        OneMore(md5, c0, steps, k);
        NextSoundIff(md5, After(md5, c0, steps[..k]), steps[k]);
      }
    }
  }

  lemma StartSound(md5: Digest, c0: Cluster)
    requires Init(c0)
    ensures AllSound(md5, c0)
  {
    hide ConfOk;
  }

  lemma OneMore(md5: Digest, c: Cluster, steps: seq<Step>, k: nat)
    requires k < |steps|
    ensures After(md5, c, steps[..k + 1]) == Next(md5, After(md5, c, steps[..k]), steps[k])
  {
    hide Next;
    assert steps[..k + 1] == steps[..k] + [steps[k]];
    AfterAppend(md5, c, steps[..k], steps[k]);
  }

  lemma {:induction false} SafePrefix(md5: Digest, c0: Cluster, steps: seq<Step>, k: nat)
    requires Init(c0) && k <= |steps|
    requires forall j :: 0 <= j < |steps| ==> DeliverySafe(md5, After(md5, c0, steps[..j]), steps[j])
    ensures AllSound(md5, After(md5, c0, steps[..k]))
  {
    hide DeliverySafe, Inv, Next, AllSound, Init;
    if k == 0 {
      StartSound(md5, c0);
      assert After(md5, c0, steps[..0]) == c0;
    } else {
      SafePrefix(md5, c0, steps, k - 1);
      RunInv(md5, c0, steps[..k - 1]);
      OneMore(md5, c0, steps, k - 1);
      NextSoundIff(md5, After(md5, c0, steps[..k - 1]), steps[k - 1]);
    }
  }
}
