// What the system says about its files is true: the records of stored uploads, the messages that
// spread them, the entries of every index, and the URLs that uploads answer with.
module Records {
  import opened Lib
  import opened Names
  import opened Membership
  import opened Routing
  import opened Nodes
  import opened Replication
  import opened Repairs
  import opened Protocol
  import opened ProtocolInv
  import opened Conservation
  import opened Contents
  import opened Copies
  import opened Loss
  import opened Indexes

  // The record of an upload says everything about the file the client sent; a declared digest is
  // the digest of its content, and the content is within its node's limit.
  ghost predicate InfoTrue(md5: Digest, nodes: NodeMap, p: string, rec: Record) {
    && rec.req.form.Some? && rec.src in nodes && p == rec.filePath + "/" + rec.fileName
    && var conf, file, info := nodes[rec.src].conf, rec.req.form.value, rec.info;
    && rec.fileName == rec.req.uuid + Ext(file.filename) && rec.group == conf.group
    && (exists today :: rec.filePath == GenFilePath(today, rec.req.customDir))
    && info == FileInfo(rec.req.uuid, file.filename, rec.fileName, UrlOf(conf, p), |file.content|, p, info.md5,
                        rec.group)
    && (info.md5 == "" || info.md5 == md5(file.content))
    && (rec.req.fileHash != "" ==> info.md5 == rec.req.fileHash)
    && (conf.fileSizeLimit > 0 ==> |file.content| <= conf.fileSizeLimit)
  }

  function UrlAt(nodes: NodeMap, a: string): string
    requires a in nodes
  {
    nodes[a].conf.schema + "://" + a
  }

  // A fan-out message names both ends by their URLs and carries id, place, digest and group of
  // its upload.
  ghost predicate MsgTrue(nodes: NodeMap, rec: Record, m: SyncFileInfo) {
    var d := HostOf(m.dst);
    && rec.src in nodes && d in nodes && d != rec.src && nodes[d].conf.group == rec.group
    && m == SyncFileInfo(UrlAt(nodes, rec.src), UrlAt(nodes, d), rec.req.uuid, rec.filePath, rec.fileName,
                         rec.info.md5, SYNC_ADD, rec.group)
  }

  // The entry e under digest h on node a is that of the upload at q: on its own node what the
  // upload reported, elsewhere the same id, name, digest and group under that node's URL.
  ghost predicate EntryTrue(uploads: map<string, Record>, a: string, n: NodeState, h: string, e: FileInfo, q: string) {
    && q in uploads && uploads[q].info.md5 == h && n.conf.group == uploads[q].group
    && var rec := uploads[q];
    && (a == rec.src ==> e == rec.info)
    && (a != rec.src ==> e == FileInfo(rec.req.uuid, rec.fileName, rec.fileName, UrlOf(n.conf, q), e.size,
                                       rec.filePath, h, rec.group))
  }

  ghost predicate HasOrigin(uploads: map<string, Record>, a: string, n: NodeState, h: string)
    requires h in n.index
  {
    exists q :: EntryTrue(uploads, a, n, h, n.index[h], q)
  }

  ghost predicate EntriesTrue(uploads: map<string, Record>, a: string, n: NodeState) {
    forall h :: h in n.index ==> HasOrigin(uploads, a, n, h)
  }

  ghost predicate RecordTrue(md5: Digest, nodes: NodeMap, p: string, rec: Record) {
    InfoTrue(md5, nodes, p, rec) && forall m :: m in rec.Msgs() ==> MsgTrue(nodes, rec, m)
  }

  ghost predicate True(md5: Digest, c: Cluster) {
    && (forall p :: p in c.uploads ==> RecordTrue(md5, c.nodes, p, c.uploads[p]))
    && (forall a :: a in c.nodes ==> EntriesTrue(c.uploads, a, c.nodes[a]))
  }

  // --- Records and messages ---

  lemma RecordStays(md5: Digest, nodes: NodeMap, nodes': NodeMap, p: string, rec: Record)
    requires RecordTrue(md5, nodes, p, rec) && SameNodes(nodes, nodes')
    ensures RecordTrue(md5, nodes', p, rec)
  {
    hide HostOf, Ext, GenFilePath, UrlOf;
    forall m | m in rec.Msgs() ensures MsgTrue(nodes', rec, m) { assert MsgTrue(nodes, rec, m); }
  }

  lemma SavedInfo(md5: Digest, nodes: NodeMap, n: NodeState, f: Flight, env: UploadEnv)
    requires f.a in nodes && nodes[f.a].conf == n.conf && n.conf.group == f.group
    requires Upload(md5, n, f.req, env).1.Stored?
    ensures var r := Upload(md5, n, f.req, env).1;
      RecordTrue(md5, nodes, StoredPath(r.filePath, r.fileName),
                 Record(f.a, f.group, f.req, r.filePath, r.fileName, r.info, None))
  {
    hide Upload, Ext, GenFilePath, UrlOf;
    StoredInfo(md5, n, f.req, env);
    UploadDecides(md5, n, f.req, env);
    if f.req.fileHash != "" { DeclaredDigest(md5, n, f.req, env); }
  }

  // --- Entries ---

  // Entries stay true while records only gain fan-outs.
  lemma EntriesStayTrue(uploads: map<string, Record>, uploads': map<string, Record>, a: string, n: NodeState,
                        n': NodeState)
    requires EntriesTrue(uploads, a, n) && n'.conf == n.conf
    requires forall q :: q in uploads ==> q in uploads' && Later(uploads[q], uploads'[q])
    requires forall h :: h in n'.index ==>
      (h in n.index && n'.index[h] == n.index[h]) || HasOrigin(uploads', a, n', h)
    ensures EntriesTrue(uploads', a, n')
  {
    hide UrlOf;
    forall h | h in n'.index ensures HasOrigin(uploads', a, n', h) {
      if h in n.index && n'.index[h] == n.index[h] {
        assert HasOrigin(uploads, a, n, h);
        var q :| EntryTrue(uploads, a, n, h, n.index[h], q);
        assert EntryTrue(uploads', a, n', h, n'.index[h], q);
      }
    }
  }

  // What an ADD enters is true.
  lemma AddedEntry(md5: Digest, c: Cluster, a: string, m: SyncFileInfo, fate: SyncFate, body: Bytes)
    requires a in c.nodes && HostOf(m.dst) == a && EntriesTrue(c.uploads, a, c.nodes[a])
    requires PathOf(m) in c.uploads && MsgTrue(c.nodes, c.uploads[PathOf(m)], m)
    ensures EntriesTrue(c.uploads, a, SyncAdd(c.nodes[a], m, fate, body).0)
  {
    hide UrlOf, HostOf, PathOf;
    var n, n' := c.nodes[a], SyncAdd(c.nodes[a], m, fate, body).0;
    forall h | h in n'.index && (h !in n.index || n'.index[h] != n.index[h]) ensures HasOrigin(c.uploads, a, n', h) {
      assert EntryTrue(c.uploads, a, n', h, n'.index[h], PathOf(m));
    }
    EntriesStayTrue(c.uploads, c.uploads, a, n, n');
  }

  // A DELETE enters nothing.
  lemma RemovedEntry(uploads: map<string, Record>, a: string, n: NodeState, m: SyncFileInfo, works: bool)
    requires EntriesTrue(uploads, a, n)
    ensures EntriesTrue(uploads, a, SyncDelete(n, m, works).0)
  {
    hide PathOf, HasOrigin;
    var n' := SyncDelete(n, m, works).0;
    forall h | h in n'.index ensures HasOrigin(uploads, a, n', h) { SameOrigin(uploads, a, n, n', h); }
  }

  lemma SameOrigin(uploads: map<string, Record>, a: string, n: NodeState, n': NodeState, h: string)
    requires h in n.index && HasOrigin(uploads, a, n, h)
    requires n'.conf == n.conf && h in n'.index && n'.index[h] == n.index[h]
    ensures HasOrigin(uploads, a, n', h)
  {
    hide UrlOf;
    var q :| EntryTrue(uploads, a, n, h, n.index[h], q);
    assert EntryTrue(uploads, a, n', h, n'.index[h], q);
  }

  // An upload enters its own report, under its digest.
  lemma SavedEntry(md5: Digest, uploads: map<string, Record>, uploads': map<string, Record>, a: string, n: NodeState,
                   req: UploadRequest, env: UploadEnv)
    requires EntriesTrue(uploads, a, n)
    requires forall q :: q in uploads ==> q in uploads' && Later(uploads[q], uploads'[q])
    requires var r := Upload(md5, n, req, env).1; r.Stored? ==>
      var q := StoredPath(r.filePath, r.fileName);
      q in uploads' && uploads'[q].src == a && uploads'[q].info == r.info && uploads'[q].group == n.conf.group
    ensures EntriesTrue(uploads', a, Upload(md5, n, req, env).0)
  {
    hide UrlOf, Upload, StoredPath, EntriesTrue, HasOrigin, TargetPath;
    var (n', r) := Upload(md5, n, req, env);
    UploadShape(md5, n, req, env);
    SavedIndex(md5, n, req, env);
    forall h | h in n'.index && (h !in n.index || n'.index[h] != n.index[h]) ensures HasOrigin(uploads', a, n', h) {
      OwnOrigin(uploads', a, n', h, StoredPath(r.filePath, r.fileName));
    }
    EntriesStayTrue(uploads, uploads', a, n, n');
  }

  lemma SavedIndex(md5: Digest, n: NodeState, req: UploadRequest, env: UploadEnv)
    ensures var (n', r) := Upload(md5, n, req, env);
      && n'.conf == n.conf
      && forall h :: h in n'.index && (h !in n.index || n'.index[h] != n.index[h]) ==>
           r.Stored? && h == r.info.md5 && n'.index[h] == r.info
  {
    hide GenFileName, GenFilePath, StoredPath, UrlOf;
  }

  lemma OwnOrigin(uploads: map<string, Record>, a: string, n: NodeState, h: string, q: string)
    requires h in n.index && q in uploads && uploads[q].src == a && n.index[h] == uploads[q].info
    requires uploads[q].info.md5 == h && uploads[q].group == n.conf.group
    ensures HasOrigin(uploads, a, n, h)
  {
    hide UrlOf;
    assert EntryTrue(uploads, a, n, h, n.index[h], q);
  }

  // --- The steps ---

  lemma SaveTrue(md5: Digest, c: Cluster, j: nat, env: UploadEnv)
    requires Inv(md5, c) && True(md5, c) && Savable(c, j)
    ensures True(md5, DoSave(md5, c, j, env))
  {
    hide NodesOk, RegistryOk, UploadsOk, PathsOk, TasksOk, LogsOk, FlightsOk, Upload, DoSave, StoredPath,
      RecordTrue, EntriesTrue;
    var c', f := DoSave(md5, c, j, env), c.flights[j];
    SaveParts(md5, c, j, env);
    SaveGrows(md5, c, j, env);
    SaveFresh(c, j);
    if Upload(md5, c.nodes[f.a], f.req, env).1.Stored? { SavedInfo(md5, c'.nodes, c.nodes[f.a], f, env); }
    forall p | p in c'.uploads ensures RecordTrue(md5, c'.nodes, p, c'.uploads[p]) {
      if p in c.uploads { RecordStays(md5, c.nodes, c'.nodes, p, c.uploads[p]); }
    }
    SavedEntry(md5, c.uploads, c'.uploads, f.a, c.nodes[f.a], f.req, env);
    forall a | a in c'.nodes && a != f.a ensures EntriesTrue(c'.uploads, a, c'.nodes[a]) {
      OthersStay(c.uploads, c'.uploads, a, c.nodes[a]);
    }
  }

  lemma OthersStay(uploads: map<string, Record>, uploads': map<string, Record>, a: string, n: NodeState)
    requires EntriesTrue(uploads, a, n)
    requires forall q :: q in uploads ==> q in uploads' && Later(uploads[q], uploads'[q])
    ensures EntriesTrue(uploads', a, n)
  {
    hide EntriesTrue, HasOrigin;
    EntriesStayTrue(uploads, uploads', a, n, n);
  }

  // The messages of an answered upload: one to every other storage of the group, and no more.
  lemma AnsweredMessages(md5: Digest, c: Cluster, j: nat, p: string)
    requires NodesOk(c) && RegistryOk(c.nodes, c.tracker) && AboutToFan(c, j, p)
    requires c.uploads[p].info.fileId == c.uploads[p].req.uuid
    ensures var c1 := DoAnswer(c, j); var f := c.flights[j]; var rec := c.uploads[p];
      && f.a in c.nodes && c.tracker[f.group].storages.Keys <= c.nodes.Keys && p in c1.uploads
      && forall m :: m in c1.uploads[p].Msgs() <==>
           exists b :: b in c.tracker[f.group].storages && b != f.a
             && m == SyncFileInfo(UrlAt(c.nodes, f.a), UrlAt(c.nodes, b), rec.req.uuid, rec.filePath, rec.fileName,
                                  rec.info.md5, SYNC_ADD, rec.group)
  {
    hide DoAnswer, FanOut, StoredPath, Started, ConfOk, Reports;
    var f, rec := c.flights[j], c.uploads[p];
    AnswerParts(c, j, p);
    RegisteredAddressed(c, f.group);
    var m := c.tracker[f.group].storages;
    forall b | b in m ensures b in c.nodes && m[b].schema == c.nodes[b].conf.schema { SlotNode(c, f.group, b); }
    AddFanOut(m, f.a, rec.info, rec.filePath, rec.fileName, f.group);
  }

  lemma SlotNode(c: Cluster, g: string, b: string)
    requires RegistryOk(c.nodes, c.tracker) && Registered(c.tracker, g, b)
    ensures b in c.nodes && c.tracker[g].storages[b].schema == c.nodes[b].conf.schema && c.nodes[b].conf.group == g
  {
    assert SlotOk(c.nodes, g, b, c.tracker[g].storages[b]);
  }

  lemma AnswerTrue(md5: Digest, c: Cluster, j: nat)
    requires Inv(md5, c) && True(md5, c) && Answerable(c, j)
    ensures True(md5, DoAnswer(c, j))
  {
    hide NodesOk, RegistryOk, UploadsOk, PathsOk, TasksOk, LogsOk, FlightsOk, DoAnswer, StoredPath, RecordTrue,
      EntriesTrue, FanOut, Started, StoredBy;
    var c', f := DoAnswer(c, j), c.flights[j];
    if f.reply.value.Stored? {
      var p := StoredPath(f.reply.value.filePath, f.reply.value.fileName);
      StoredFlight(md5, c, j);
      StoredThere(c, j, p);
      AnswerParts(c, j, p);
      FannedRecord(md5, c, j, p);
      forall a | a in c'.nodes ensures EntriesTrue(c'.uploads, a, c'.nodes[a]) {
        OthersStay(c.uploads, c'.uploads, a, c.nodes[a]);
      }
    } else {
      AnswerRefused(c, j);
    }
  }

  lemma FannedRecord(md5: Digest, c: Cluster, j: nat, p: string)
    requires NodesOk(c) && RegistryOk(c.nodes, c.tracker) && AboutToFan(c, j, p)
    requires RecordTrue(md5, c.nodes, p, c.uploads[p])
    ensures p in DoAnswer(c, j).uploads && RecordTrue(md5, c.nodes, p, DoAnswer(c, j).uploads[p])
  {
    hide NodesOk, RegistryOk, DoAnswer, FanOut, Started, StoredPath, HostOf, UrlOf, GenFilePath, Ext;
    var rec, f := c.uploads[p], c.flights[j];
    AnswerParts(c, j, p);
    AnsweredMessages(md5, c, j, p);
    var rec' := DoAnswer(c, j).uploads[p];
    forall m | m in rec'.Msgs() ensures MsgTrue(c.nodes, rec', m) {
      var b :| b in c.tracker[f.group].storages && b != f.a
        && m == SyncFileInfo(UrlAt(c.nodes, f.a), UrlAt(c.nodes, b), rec.req.uuid, rec.filePath, rec.fileName,
                             rec.info.md5, SYNC_ADD, rec.group);
      SlotNode(c, f.group, b);
      NodeHost(c, b);
    }
  }

  lemma NodeHost(c: Cluster, b: string)
    requires NodesOk(c) && b in c.nodes
    ensures HostOf(UrlAt(c.nodes, b)) == b
  {
    HostOfBaseUrl(c.nodes[b].conf.schema, b);
  }

  lemma DeliverTrue(md5: Digest, c: Cluster, i: nat, at: DeliverFate)
    requires TasksOk(c) && True(md5, c) && i < |c.tasks|
    ensures True(md5, DoDeliver(md5, c, i, at))
  {
    hide PathOf, HostOf, Fetch, Damage, RecordTrue, EntriesTrue;
    var c', m := DoDeliver(md5, c, i, at), c.tasks[i].info;
    var d := HostOf(m.dst);
    assert TaskOk(c, c.tasks[i]);
    if d in c.nodes { DeliveredEntries(md5, c, m, at); }
    forall p | p in c'.uploads ensures RecordTrue(md5, c'.nodes, p, c'.uploads[p]) {
      DeliverConf(md5, c, i, at);
      RecordStays(md5, c.nodes, c'.nodes, p, c.uploads[p]);
    }
  }

  lemma DeliverConf(md5: Digest, c: Cluster, i: nat, at: DeliverFate)
    requires i < |c.tasks|
    ensures SameNodes(c.nodes, DoDeliver(md5, c, i, at).nodes)
  {
    hide PathOf, HostOf, Fetch, Damage, SyncInfo;
  }

  lemma DeliveredEntries(md5: Digest, c: Cluster, m: SyncFileInfo, at: DeliverFate)
    requires SyncOk(c.uploads, c.deletes, m) && HostOf(m.dst) in c.nodes && True(md5, c)
    ensures EntriesTrue(c.uploads, HostOf(m.dst), Apply(md5, c.nodes[HostOf(m.dst)], OpOf(c.nodes, m, at)))
  {
    hide PathOf, HostOf, Fetch, EntriesTrue, InfoTrue;
    var d := HostOf(m.dst);
    var op := OpOf(c.nodes, m, at);
    if m.action == SYNC_ADD {
      assert RecordTrue(md5, c.nodes, PathOf(m), c.uploads[PathOf(m)]);
      AddedEntry(md5, c, d, m, op.fate, op.body);
    } else {
      RemovedEntry(c.uploads, d, c.nodes[d], m, op.removeWorks);
    }
  }

  lemma CollectTrue(md5: Digest, c: Cluster, a: string, path: string)
    requires True(md5, c) && a in c.nodes
    ensures True(md5, c.(nodes := c.nodes[a := Collect(c.nodes[a], path)]))
  {
    hide RecordTrue, EntriesTrue;
    var n' := Collect(c.nodes[a], path);
    EntriesSame(c.uploads, a, c.nodes[a], n');
    forall p | p in c.uploads ensures RecordTrue(md5, c.nodes[a := n'], p, c.uploads[p]) {
      RecordStays(md5, c.nodes, c.nodes[a := n'], p, c.uploads[p]);
    }
  }

  lemma EntriesSame(uploads: map<string, Record>, a: string, n: NodeState, n': NodeState)
    requires EntriesTrue(uploads, a, n) && n'.conf == n.conf && n'.index == n.index
    ensures EntriesTrue(uploads, a, n')
  {
    hide HasOrigin;
    forall h | h in n'.index ensures HasOrigin(uploads, a, n', h) { SameOrigin(uploads, a, n, n', h); }
  }

  lemma NextTrue(md5: Digest, c: Cluster, s: Step)
    requires Inv(md5, c) && True(md5, c)
    ensures True(md5, Next(md5, c, s))
  {
    hide True, NodesOk, RegistryOk, UploadsOk, PathsOk, LogsOk, FlightsOk, TaskOk, Next;
    if s.SaveUpload? || s.DeliverTask? || s.CollectTrash? || s.AnswerUpload? {
      MovedTrue(md5, c, s);
    } else {
      NodesKept(md5, c, s);
      QuietTrue(md5, c, Next(md5, c, s));
    }
  }

  lemma QuietTrue(md5: Digest, c: Cluster, c': Cluster)
    requires True(md5, c) && c'.nodes == c.nodes && c'.uploads == c.uploads
    ensures True(md5, c')
  {
    hide RecordTrue, EntriesTrue;
  }

  lemma MovedTrue(md5: Digest, c: Cluster, s: Step)
    requires Inv(md5, c) && True(md5, c) && (s.SaveUpload? || s.DeliverTask? || s.CollectTrash? || s.AnswerUpload?)
    ensures True(md5, Next(md5, c, s))
  {
    hide True, NodesOk, RegistryOk, UploadsOk, PathsOk, TasksOk, LogsOk, FlightsOk, DoSave, DoDeliver, DoAnswer,
      Collect;
    if Enabled(c, s) {
      match s {
        case SaveUpload(j, env) => SaveTrue(md5, c, j, env);
        case AnswerUpload(j) => AnswerTrue(md5, c, j);
        case DeliverTask(i, at) => DeliverTrue(md5, c, i, at);
        case CollectTrash(a, path) => CollectTrue(md5, c, a, path);
      }
    }
  }

  lemma StartTrue(md5: Digest, c0: Cluster)
    requires Init(c0)
    ensures True(md5, c0)
  {
    hide ConfOk, RecordTrue, HasOrigin;
  }

  // In every reachable state all records, messages and index entries are true.
  lemma {:induction false} RunTrue(md5: Digest, c0: Cluster, steps: seq<Step>)
    requires Init(c0)
    ensures True(md5, After(md5, c0, steps))
  {
    hide Inv, Next, True;
    if steps == [] {
      StartTrue(md5, c0);
    } else {
      var pre := steps[..|steps| - 1];
      RunInv(md5, c0, pre);
      RunTrue(md5, c0, pre);
      NextTrue(md5, After(md5, c0, pre), steps[|steps| - 1]);
    }
  }

  // --- What follows for clients ---

  // In every reachable state a stored file has the digest its client declared, if any, and its
  // messages carry that digest and the upload's own id.
  lemma StoredAsDeclared(md5: Digest, c0: Cluster, steps: seq<Step>, p: string)
    requires Init(c0) && p in After(md5, c0, steps).uploads
    ensures var rec := After(md5, c0, steps).uploads[p];
      && rec.req.form.Some? && rec.info.size == |rec.req.form.value.content|
      && (rec.req.fileHash != "" ==> md5(rec.req.form.value.content) == rec.req.fileHash == rec.info.md5)
      && forall m :: m in rec.Msgs() ==> m.fileId == rec.req.uuid && m.fileHash == rec.info.md5
  {
    hide After, UrlOf, HostOf, Ext, GenFilePath, EntriesTrue;
    RunTrue(md5, c0, steps);
    var c := After(md5, c0, steps);
    assert RecordTrue(md5, c.nodes, p, c.uploads[p]);
    if c.uploads[p].req.fileHash != "" { assert c.uploads[p].info.md5 != ""; }
    forall m | m in c.uploads[p].Msgs()
      ensures m.fileId == c.uploads[p].req.uuid && m.fileHash == c.uploads[p].info.md5
    {
      assert MsgTrue(c.nodes, c.uploads[p], m);
    }
  }

  // So content that does not have the declared digest is never stored nor fanned out: its upload
  // is refused or answered from the index, in every run.
  lemma DamagedNeverStored(md5: Digest, c0: Cluster, steps: seq<Step>, j: nat)
    requires Init(c0) && j < |After(md5, c0, steps).flights|
    requires var req := After(md5, c0, steps).flights[j].req;
      req.form.Some? && req.fileHash != "" && md5(req.form.value.content) != req.fileHash
    ensures var c := After(md5, c0, steps);
      && (c.flights[j].reply.Some? ==> !c.flights[j].reply.value.Stored?)
      && forall p :: p in c.uploads ==> c.uploads[p].req != c.flights[j].req
  {
    hide After, Inv, StoredPath;
    var c := After(md5, c0, steps);
    RunInv(md5, c0, steps);
    forall p | p in c.uploads ensures c.uploads[p].req != c.flights[j].req { StoredAsDeclared(md5, c0, steps, p); }
    if c.flights[j].reply.Some? && c.flights[j].reply.value.Stored? { StoredFlight(md5, c, j); }
  }

  // An upload that declares known content is answered with what is true of an earlier upload of
  // content with that digest, as stored on this very node.
  lemma InstantAnswerTrue(md5: Digest, c0: Cluster, steps: seq<Step>, a: string, req: UploadRequest, env: UploadEnv)
    requires Init(c0) && a in After(md5, c0, steps).nodes && Hit(After(md5, c0, steps).nodes[a], req)
    ensures var c := After(md5, c0, steps); var (n', r) := Upload(md5, c.nodes[a], req, env);
      && n' == c.nodes[a] && r.Instant?
      && exists q :: EntryTrue(c.uploads, a, c.nodes[a], req.fileHash, r.info, q)
                     && q in c.uploads && md5(c.uploads[q].Content()) == req.fileHash
                     && r.info.url == UrlOf(c.nodes[a].conf, q) && r.info.fileId == c.uploads[q].req.uuid
  {
    hide After, UrlOf, HostOf, Ext, GenFilePath, MsgTrue, HasOrigin;
    var c := After(md5, c0, steps);
    var n, h := c.nodes[a], req.fileHash;
    RunTrue(md5, c0, steps);
    assert EntriesTrue(c.uploads, a, n) && HasOrigin(c.uploads, a, n, h);
    var q := Origin(c.uploads, a, n, h);
    assert RecordTrue(md5, c.nodes, q, c.uploads[q]);
  }

  lemma Origin(uploads: map<string, Record>, a: string, n: NodeState, h: string) returns (q: string)
    requires h in n.index && HasOrigin(uploads, a, n, h)
    ensures EntryTrue(uploads, a, n, h, n.index[h], q)
  {
    hide EntryTrue;
    q :| EntryTrue(uploads, a, n, h, n.index[h], q);
  }

  // The URL that a stored upload was answered with gets its content, in every reachable state
  // until a delete names the file.
  lemma UploadUrlServes(md5: Digest, c0: Cluster, steps: seq<Step>, p: string)
    requires Init(c0)
    requires var c := After(md5, c0, steps); p in c.uploads && p !in c.deletes && Fetchable(c.uploads[p], p)
    ensures var c := After(md5, c0, steps); Get(c.nodes, c.uploads[p].info.url) == Some(c.uploads[p].Content())
  {
    hide After, UrlOf, HostOf, Ext, GenFilePath, EntriesTrue, UrlSafe, Get, JoinHostPort, Held, HoldersOk, MsgTrue;
    var c := After(md5, c0, steps);
    RunTrue(md5, c0, steps);
    RunHeld(md5, c0, steps);
    RunInv(md5, c0, steps);
    StoredHolds(c, p);
    assert RecordTrue(md5, c.nodes, p, c.uploads[p]);
    NodeUrl(md5, c, c.uploads[p].src, p);
  }

  lemma StoredHolds(c: Cluster, p: string)
    requires Held(c) && p in c.uploads && p !in c.deletes
    ensures FileAt(c.nodes, c.uploads[p].src, p) == Some(c.uploads[p].Content())
  {
    hide FileAt;
    assert HoldersOk(c, p);
    SourceHolds(c, p);
  }

  lemma NodeUrl(md5: Digest, c: Cluster, a: string, p: string)
    requires Inv(md5, c) && a in c.nodes && UrlSafe(c.nodes[a].conf.group) && UrlSafe(p)
    ensures var n := c.nodes[a];
      Get(c.nodes, UrlOf(n.conf, p)) == Some(if p in n.files then n.files[p] else n.conf.missing)
  {
    hide RegistryOk, UploadsOk, PathsOk, TasksOk, LogsOk, FlightsOk, UrlSafe, Get, UrlOf;
    assert ConfOk(a, c.nodes[a].conf);
    UrlGets(c.nodes, a, p);
  }

  // In a clean run over URL-safe names the URL of an instant answer gets content with the declared
  // digest.
  lemma InstantUrlServes(md5: Digest, c0: Cluster, steps: seq<Step>, a: string, req: UploadRequest, env: UploadEnv)
    requires Init(c0) && CleanRun(md5, c0, steps)
    requires var c := After(md5, c0, steps);
      a in c.nodes && Hit(c.nodes[a], req) && forall q :: q in c.uploads ==> Fetchable(c.uploads[q], q)
    ensures var c := After(md5, c0, steps); var r := Upload(md5, c.nodes[a], req, env).1;
      r.Instant? && Get(c.nodes, r.info.url).Some? && md5(Get(c.nodes, r.info.url).value) == req.fileHash
  {
    hide After, UrlOf, UrlSafe, Get, Inv, CleanRun, Live, Indexed;
    var c := After(md5, c0, steps);
    var n, h := c.nodes[a], req.fileHash;
    RunInv(md5, c0, steps);
    InstantAnswerTrue(md5, c0, steps, a, req, env);
    var r := Upload(md5, n, req, env).1;
    var q :| EntryTrue(c.uploads, a, n, h, r.info, q) && q in c.uploads && md5(c.uploads[q].Content()) == h
             && r.info.url == UrlOf(n.conf, q) && r.info.fileId == c.uploads[q].req.uuid;
    RunIndexSound(md5, c0, steps);
    UploadDecides(md5, n, req, env);
    EntryIsIndexed(md5, n, h, q);
    NodeUrl(md5, c, a, q);
  }
}
