// One storage node as a value: its files, its content index, and the operations of
// svc/storage.go on them. Disk and network failures are inputs ("fates").
module Nodes {
  import opened Lib
  import opened Names

  newtype byte = x: int | 0 <= x < 256
  type Bytes = seq<byte>

  // The content digest; its hexadecimal form is never empty.
  type Digest = f: Bytes -> string | forall b :: f(b) != "" witness (b: Bytes) => "0"

  const SUCCESS := 20000
  const FAIL := 10000
  const DIR_CREATE_FAIL := 40000
  const FORM_FILE_NOT_FOUND := 40001
  const FILE_SIZE_EXCEEDED := 40002
  const FILE_SAVE_FAIL := 40003

  datatype FileInfo = FileInfo(fileId: string, name: string, reName: string, url: string,
                               size: nat, path: string, md5: string, group: string)
  datatype SyncFileInfo = SyncFileInfo(src: string, dst: string, fileId: string, filePath: string,
                                       fileName: string, fileHash: string, action: string, group: string)
  // `missing` is the body its web server answers with when it has no such file.
  datatype Conf = Conf(schema: string, host: string, port: string, group: string, fileSizeLimit: int, missing: Bytes)

  // `files` is keyed by the path below the storage directory; `trash` holds the damaged
  // uploads whose removal has been started but may not have happened yet.
  datatype NodeState = NodeState(conf: Conf, files: map<string, Bytes>, index: map<string, FileInfo>,
                                 trash: set<string>)

  function UrlOf(c: Conf, path: string): string {
    BaseUrl(c.schema, JoinHostPort(c.host, c.port)) + "/" + c.group + "/" + path
  }

  lemma UrlInjective(c: Conf, p: string, q: string)
    requires UrlOf(c, p) == UrlOf(c, q)
    ensures p == q
  {
    var pre := BaseUrl(c.schema, JoinHostPort(c.host, c.port)) + "/" + c.group + "/";
    assert UrlOf(c, p) == pre + p && UrlOf(c, q) == pre + q;
    assert (pre + p)[|pre|..] == p && (pre + q)[|pre|..] == q;
  }

  // --- Upload ---

  datatype FormFile = FormFile(filename: string, content: Bytes)
  datatype UploadRequest = UploadRequest(fileHash: string, customDir: string, uuid: string, form: Option<FormFile>)
  datatype SaveFate = OpenFails | CreateFails | CopyFails(written: Bytes) | ReopenFails | DigestFails | Saves
  datatype UploadEnv = UploadEnv(today: Date, dirReady: bool, fate: SaveFate)
  datatype UploadResult =
    | Instant(info: FileInfo)
    | Refused(code: nat)
    | Stored(info: FileInfo, filePath: string, fileName: string)

  // The digest is returned on success; a digest that cannot be computed counts as "".
  function SaveFile(md5: Digest, n: NodeState, path: string, content: Bytes, hash: string, fate: SaveFate)
    : (NodeState, Option<string>)
  {
    match fate
    case OpenFails => (n, None)
    case CreateFails => (n, None)
    case CopyFails(written) => (n.(files := n.files[path := written]), None)
    case ReopenFails => (n.(files := n.files[path := content]), None)
    case _ =>
      var h := if fate.DigestFails? then "" else md5(content);
      if hash != h && hash != "" then
        (n.(files := n.files[path := content], trash := n.trash + {path}), None)
      else
        (n.(files := n.files[path := content]), Some(h))
  }

  function PutIndex(n: NodeState, hash: string, info: FileInfo): NodeState {
    if hash == "" then n else n.(index := n.index[hash := info])
  }

  function UploadInfo(c: Conf, req: UploadRequest, filePath: string, fileName: string, hash: string): FileInfo
    requires req.form.Some?
  {
    FileInfo(req.uuid, req.form.value.filename, fileName, UrlOf(c, StoredPath(filePath, fileName)),
             |req.form.value.content|, StoredPath(filePath, fileName), hash, c.group)
  }

  function Upload(md5: Digest, n: NodeState, req: UploadRequest, env: UploadEnv): (NodeState, UploadResult) {
    if req.fileHash != "" && req.fileHash in n.index then (n, Instant(n.index[req.fileHash]))
    else if !env.dirReady then (n, Refused(DIR_CREATE_FAIL))
    else if req.form.None? then (n, Refused(FORM_FILE_NOT_FOUND))
    else if n.conf.fileSizeLimit > 0 && |req.form.value.content| > n.conf.fileSizeLimit then
      (n, Refused(FILE_SIZE_EXCEEDED))
    else
      var filePath := GenFilePath(env.today, req.customDir);
      var fileName := GenFileName(req.uuid, req.form.value.filename);
      var (n', h) := SaveFile(md5, n, StoredPath(filePath, fileName), req.form.value.content, req.fileHash, env.fate);
      if h.None? then (n', Refused(FILE_SAVE_FAIL))
      else
        var info := UploadInfo(n.conf, req, filePath, fileName, h.value);
        (PutIndex(n', h.value, info), Stored(info, filePath, fileName))
  }

  // Where an upload writes when it gets that far.
  function TargetPath(req: UploadRequest, env: UploadEnv): string
    requires req.form.Some?
  {
    UploadPath(env.today, req.customDir, req.uuid, req.form.value.filename)
  }

  // What an upload that touched the disk did: it wrote one file, and either failed without
  // indexing it or stored the whole content and indexed it under its digest.
  ghost predicate Wrote(md5: Digest, n: NodeState, n': NodeState, p: string, content: Bytes, r: UploadResult) {
    && p in n'.files && n'.files == n.files[p := n'.files[p]] && n'.conf == n.conf
    && match r
       case Instant(_) => false
       case Refused(code) => code == FILE_SAVE_FAIL && n'.index == n.index && n.trash <= n'.trash <= n.trash + {p}
       case Stored(info, filePath, fileName) =>
         && p == StoredPath(filePath, fileName) && n'.files[p] == content && n'.trash == n.trash
         && info.url == UrlOf(n.conf, p) && (info.md5 == "" || info.md5 == md5(content))
         && n'.index == PutIndex(n, info.md5, info).index
  }

  lemma SaveShape(md5: Digest, n: NodeState, p: string, content: Bytes, hash: string, fate: SaveFate)
    ensures var (n', h) := SaveFile(md5, n, p, content, hash, fate);
      || (n' == n && h.None?)
      || (&& p in n'.files && n'.files == n.files[p := n'.files[p]] && n'.conf == n.conf && n'.index == n.index
          && n.trash <= n'.trash <= n.trash + {p}
          && (h.Some? ==> n'.files[p] == content && n'.trash == n.trash && (h.value == "" || h.value == md5(content))))
  {
  }

  lemma UploadShape(md5: Digest, n: NodeState, req: UploadRequest, env: UploadEnv)
    ensures var (n', r) := Upload(md5, n, req, env);
      || (n' == n && !r.Stored?)
      || (req.form.Some? && Wrote(md5, n, n', TargetPath(req, env), req.form.value.content, r))
  {
    hide GenFilePath, GenFileName, StoredPath, UrlOf;
    if req.form.Some? {
      SaveShape(md5, n, TargetPath(req, env), req.form.value.content, req.fileHash, env.fate);
    }
  }

  // --- What an upload answers, and what it leaves on the disk ---

  // The declared content is known, so nothing needs to be stored.
  predicate Hit(n: NodeState, req: UploadRequest) {
    req.fileHash != "" && req.fileHash in n.index
  }

  // The upload gets as far as its save.
  predicate Reaches(n: NodeState, req: UploadRequest, env: UploadEnv) {
    && !Hit(n, req) && env.dirReady && req.form.Some?
    && (n.conf.fileSizeLimit > 0 ==> |req.form.value.content| <= n.conf.fileSizeLimit)
  }

  // The digest that the save finds on the disk; None when it fails before.
  function Found(md5: Digest, content: Bytes, fate: SaveFate): Option<string> {
    if fate.Saves? then Some(md5(content)) else if fate.DigestFails? then Some("") else None
  }

  // The save ends well: the digest found is the declared one, or none was declared.
  predicate Intact(md5: Digest, req: UploadRequest, env: UploadEnv)
    requires req.form.Some?
  {
    var found := Found(md5, req.form.value.content, env.fate);
    found.Some? && (req.fileHash == "" || found.value == req.fileHash)
  }

  // Every answer, with exactly when it is given.
  lemma UploadDecides(md5: Digest, n: NodeState, req: UploadRequest, env: UploadEnv)
    ensures var r := Upload(md5, n, req, env).1; var hit, file := Hit(n, req), req.form;
      && (r.Instant? <==> hit) && (hit ==> r.info == n.index[req.fileHash])
      && (r == Refused(DIR_CREATE_FAIL) <==> !hit && !env.dirReady)
      && (r == Refused(FORM_FILE_NOT_FOUND) <==> !hit && env.dirReady && file.None?)
      && (r == Refused(FILE_SIZE_EXCEEDED) <==>
            !hit && env.dirReady && file.Some? && 0 < n.conf.fileSizeLimit < |file.value.content|)
      && (r == Refused(FILE_SAVE_FAIL) <==> Reaches(n, req, env) && !Intact(md5, req, env))
      && (r.Stored? <==> Reaches(n, req, env) && Intact(md5, req, env))
  {
    hide GenFilePath, GenFileName, StoredPath, UrlOf;
  }

  // What a stored upload reports: everything about the file it stored.
  lemma StoredInfo(md5: Digest, n: NodeState, req: UploadRequest, env: UploadEnv)
    ensures var r := Upload(md5, n, req, env).1;
      r.Stored? ==>
        && req.form.Some? && r.filePath == GenFilePath(env.today, req.customDir)
        && r.fileName == req.uuid + Ext(req.form.value.filename)
        && var p := r.filePath + "/" + r.fileName; var content := req.form.value.content;
        && r.info.fileId == req.uuid && r.info.name == req.form.value.filename && r.info.reName == r.fileName
        && r.info.url == UrlOf(n.conf, p) && r.info.path == p
        && r.info.size == |content| && r.info.group == n.conf.group
        && r.info.md5 == (if env.fate.DigestFails? then "" else md5(content))
  {
    hide GenFilePath, Ext, UrlOf;
  }

  // A declared digest must match: what is stored has it, and content that has another one is
  // refused, never indexed, and its removal is started.
  lemma DeclaredDigest(md5: Digest, n: NodeState, req: UploadRequest, env: UploadEnv)
    requires req.fileHash != ""
    ensures var (n', r) := Upload(md5, n, req, env);
      && (r.Stored? ==> r.info.md5 == req.fileHash == md5(req.form.value.content))
      && (Reaches(n, req, env) && env.fate.Saves? && md5(req.form.value.content) != req.fileHash ==>
            var p := TargetPath(req, env);
            && r == Refused(FILE_SAVE_FAIL)
            && n' == n.(files := n.files[p := req.form.value.content], trash := n.trash + {p}))
  {
    hide GenFilePath, GenFileName, StoredPath, UrlOf;
  }

  // Once that removal has run, an upload with a wrong digest to an unused path has left nothing.
  lemma DamagedLeavesNothing(md5: Digest, n: NodeState, req: UploadRequest, env: UploadEnv)
    requires Reaches(n, req, env) && env.fate.Saves? && req.fileHash !in {"", md5(req.form.value.content)}
    requires TargetPath(req, env) !in n.files && TargetPath(req, env) !in n.trash
    ensures Collect(Upload(md5, n, req, env).0, TargetPath(req, env)) == n
  {
    hide TargetPath, Upload;
    DeclaredDigest(md5, n, req, env);
    var p, n' := TargetPath(req, env), Upload(md5, n, req, env).0;
    assert n'.files - {p} == n.files && n'.trash - {p} == n.trash;
  }

  // A refused upload that was not damaged leaves what its save had written by then, and nothing
  // ever removes it: the whole content if only the check failed to open it, or a part of it.
  lemma RefusedLeaves(md5: Digest, n: NodeState, req: UploadRequest, env: UploadEnv)
    requires Upload(md5, n, req, env).1.Refused?
    ensures var n' := Upload(md5, n, req, env).0;
      if !Reaches(n, req, env) || env.fate.OpenFails? || env.fate.CreateFails? then n' == n
      else
        var p := TargetPath(req, env);
        && n'.files == n.files[p := if env.fate.CopyFails? then env.fate.written else req.form.value.content]
        && n'.conf == n.conf && n'.index == n.index
        && n'.trash == n.trash + (if env.fate.CopyFails? || env.fate.ReopenFails? then {} else {p})
  {
    hide GenFilePath, GenFileName, StoredPath, UrlOf;
  }

  // --- Sync ---

  datatype SyncFate = MkdirFails | GetFails | SyncCreateFails | SyncCopyFails(written: Bytes) | Fetched

  function PathOf(sync: SyncFileInfo): string {
    StoredPath(sync.filePath, sync.fileName)
  }

  function SyncInfo(c: Conf, sync: SyncFileInfo, size: nat): FileInfo {
    FileInfo(sync.fileId, sync.fileName, sync.fileName, UrlOf(c, PathOf(sync)), size,
             sync.filePath, sync.fileHash, sync.group)
  }

  // `body` is whatever the source answered; a zero-length copy counts as a failure.
  function SyncAdd(n: NodeState, sync: SyncFileInfo, fate: SyncFate, body: Bytes): (NodeState, nat) {
    var p := PathOf(sync);
    match fate
    case MkdirFails => (n, DIR_CREATE_FAIL)
    case GetFails => (n, FAIL)
    case SyncCreateFails => (n, DIR_CREATE_FAIL)
    case SyncCopyFails(written) => (n.(files := n.files[p := written]), FAIL)
    case Fetched =>
      var n' := n.(files := n.files[p := body]);
      if |body| <= 0 then (n', FAIL)
      else (PutIndex(n', sync.fileHash, SyncInfo(n.conf, sync, |body|)), SUCCESS)
  }

  function SyncDelete(n: NodeState, sync: SyncFileInfo, removeWorks: bool): (NodeState, nat) {
    var p := PathOf(sync);
    if p !in n.files then (n, SUCCESS)
    else if !removeWorks then (n, FAIL)
    else
      var n' := n.(files := n.files - {p});
      (if sync.fileHash != "" then n'.(index := n.index - {sync.fileHash}) else n', SUCCESS)
  }

  // The removal of a damaged upload, whenever the background task gets to it.
  function Collect(n: NodeState, p: string): NodeState {
    if p in n.trash then n.(files := n.files - {p}, trash := n.trash - {p}) else n
  }

  datatype NodeOp =
    | OpUpload(req: UploadRequest, env: UploadEnv)
    | OpAdd(sync: SyncFileInfo, fate: SyncFate, body: Bytes)
    | OpDelete(sync: SyncFileInfo, removeWorks: bool)
    | OpCollect(path: string)

  function Apply(md5: Digest, n: NodeState, op: NodeOp): NodeState {
    match op
    case OpUpload(req, env) => Upload(md5, n, req, env).0
    case OpAdd(sync, fate, body) => SyncAdd(n, sync, fate, body).0
    case OpDelete(sync, removeWorks) => SyncDelete(n, sync, removeWorks).0
    case OpCollect(path) => Collect(n, path)
  }

  function ApplyAll(md5: Digest, n: NodeState, ops: seq<NodeOp>): NodeState {
    if ops == [] then n else Apply(md5, ApplyAll(md5, n, ops[..|ops| - 1]), ops[|ops| - 1])
  }

  // --- What a sync answers, and what it leaves behind ---

  // Every answer of an ADD, with exactly when it is given.
  lemma AddDecides(n: NodeState, sync: SyncFileInfo, fate: SyncFate, body: Bytes)
    ensures var status := SyncAdd(n, sync, fate, body).1;
      && (status == SUCCESS <==> fate.Fetched? && body != [])
      && (status == DIR_CREATE_FAIL <==> fate.MkdirFails? || fate.SyncCreateFails?)
      && (status == FAIL <==> fate.GetFails? || fate.SyncCopyFails? || (fate.Fetched? && body == []))
  {
    hide PathOf, SyncInfo;
  }

  // An acknowledged ADD of a file with a digest leaves an entry that says everything about the
  // copy it made: its id, name, URL on this node, size, directory, digest and group.
  lemma AddEnters(n: NodeState, sync: SyncFileInfo, body: Bytes)
    requires body != [] && sync.fileHash != ""
    ensures var n' := SyncAdd(n, sync, Fetched, body).0; var h := sync.fileHash;
      && n'.index.Keys == n.index.Keys + {h} && (forall k :: k in n.index && k != h ==> n'.index[k] == n.index[k])
      && var e, p := n'.index[h], sync.filePath + "/" + sync.fileName;
      && p in n'.files && n'.files[p] == body && e.size == |n'.files[p]|
      && e.url == UrlOf(n.conf, p) && e.md5 == h && e.fileId == sync.fileId
      && e.name == e.reName == sync.fileName && e.path == sync.filePath && e.group == sync.group
  {
    hide UrlOf;
  }

  // A DELETE succeeds exactly if the file is absent afterwards; it takes away nothing but the file
  // and, with the file, the entry under the digest it carries.
  lemma DeleteDecides(n: NodeState, sync: SyncFileInfo, works: bool)
    ensures var (n', status) := SyncDelete(n, sync, works); var p := PathOf(sync);
      && (status == SUCCESS <==> p !in n'.files) && (status == FAIL <==> p in n'.files)
      && (p in n'.files <==> p in n.files && !works)
      && (status == FAIL || p !in n.files ==> n' == n)
      && (p in n.files && works ==>
            && n'.files == n.files - {p} && n'.trash == n.trash && n'.conf == n.conf
            && n'.index == if sync.fileHash == "" then n.index else n.index - {sync.fileHash})
  {
    hide PathOf;
  }

  // The background removal takes away a damaged upload, once, and nothing else.
  lemma CollectOnce(n: NodeState, p: string)
    ensures var n' := Collect(n, p);
      && (p in n.trash ==> p !in n'.files) && p !in n'.trash && Collect(n', p) == n'
      && (p !in n.trash ==> n' == n)
      && n'.index == n.index && n'.conf == n.conf && n'.files - {p} == n.files - {p} && n'.trash == n.trash - {p}
  {
  }

  // --- Soundness of the content index ---

  // The entry for hash h names the file at p, which is present, not about to be removed, and has digest h.
  ghost predicate EntryFor(md5: Digest, n: NodeState, h: string, p: string) {
    && h in n.index && n.index[h].url == UrlOf(n.conf, p)
    && p in n.files && p !in n.trash && md5(n.files[p]) == h
  }

  ghost predicate IndexSound(md5: Digest, n: NodeState) {
    forall h :: h in n.index ==> exists p :: EntryFor(md5, n, h, p)
  }

  // The file at p is the one its digest is indexed under.
  predicate Indexed(md5: Digest, n: NodeState, p: string) {
    p in n.files && md5(n.files[p]) in n.index && n.index[md5(n.files[p])].url == UrlOf(n.conf, p)
  }

  // The answer names a file that is there and has digest h.
  ghost predicate Live(md5: Digest, n: NodeState, info: FileInfo, h: string) {
    exists p :: p in n.files && info.url == UrlOf(n.conf, p) && md5(n.files[p]) == h
  }

  // An instant upload answers with a file that is on the node and has the requested digest.
  lemma InstantHit(md5: Digest, n: NodeState, req: UploadRequest, env: UploadEnv)
    requires IndexSound(md5, n)
    ensures var (n', r) := Upload(md5, n, req, env);
      r.Instant? ==> n' == n && Live(md5, n, r.info, req.fileHash)
  {
    var (n', r) := Upload(md5, n, req, env);
    if r.Instant? {
      var p :| EntryFor(md5, n, req.fileHash, p);
      assert p in n.files && r.info.url == UrlOf(n.conf, p);
    }
  }

  // When an operation leaves a sound index sound. Each condition reads only the state before
  // the operation and its inputs.
  predicate Safe(md5: Digest, n: NodeState, op: NodeOp) {
    match op
    case OpUpload(req, env) => UploadSafe(md5, n, req, env)
    case OpAdd(sync, fate, body) => AddSafe(md5, n, sync, fate, body)
    case OpDelete(sync, removeWorks) =>
      var p := PathOf(sync);
      removeWorks && Indexed(md5, n, p) ==> md5(n.files[p]) == sync.fileHash
    case OpCollect(path) => true
  }

  // Writing w at p keeps the entry that names p right.
  predicate Rewrites(md5: Digest, n: NodeState, p: string, w: Bytes) {
    Indexed(md5, n, p) ==> md5(w) == md5(n.files[p])
  }

  predicate AddSafe(md5: Digest, n: NodeState, sync: SyncFileInfo, fate: SyncFate, body: Bytes) {
    var p := PathOf(sync);
    match fate
    case SyncCopyFails(written) => Rewrites(md5, n, p, written)
    case Fetched =>
      && Rewrites(md5, n, p, body)
      && (|body| > 0 && sync.fileHash != "" ==> md5(body) == sync.fileHash && p !in n.trash)
    case _ => true
  }

  // An upload is safe when its path is not in use, which fresh ids guarantee.
  predicate UploadSafe(md5: Digest, n: NodeState, req: UploadRequest, env: UploadEnv) {
    req.form.Some? ==> TargetPath(req, env) !in n.files && TargetPath(req, env) !in n.trash
  }

  lemma EntryIsIndexed(md5: Digest, n: NodeState, h: string, p: string)
    requires IndexSound(md5, n) && h in n.index && n.index[h].url == UrlOf(n.conf, p)
    ensures EntryFor(md5, n, h, p) && Indexed(md5, n, p)
  {
    var q :| EntryFor(md5, n, h, q);
    UrlInjective(n.conf, p, q);
  }

  // Writing a file at p without touching the index keeps it sound exactly when the entry
  // naming p, if any, still has the right digest.
  lemma WriteSoundIff(md5: Digest, n: NodeState, p: string, w: Bytes)
    requires IndexSound(md5, n)
    ensures IndexSound(md5, n.(files := n.files[p := w])) <==> Rewrites(md5, n, p, w)
  {
    var n' := n.(files := n.files[p := w]);
    if Rewrites(md5, n, p, w) {
      forall h | h in n'.index ensures exists q :: EntryFor(md5, n', h, q) {
        var q :| EntryFor(md5, n, h, q);
        assert EntryFor(md5, n', h, q);
      }
    }
    if IndexSound(md5, n') && Indexed(md5, n, p) {
      EntryIsIndexed(md5, n', md5(n.files[p]), p);
    }
  }

  lemma PutSoundIff(md5: Digest, n: NodeState, h: string, info: FileInfo, p: string)
    requires h != "" && info.url == UrlOf(n.conf, p) && p in n.files
    requires forall k :: k in n.index && k != h ==> exists q :: EntryFor(md5, n, k, q)
    ensures IndexSound(md5, PutIndex(n, h, info)) <==> md5(n.files[p]) == h && p !in n.trash
  {
    var n' := PutIndex(n, h, info);
    if md5(n.files[p]) == h && p !in n.trash {
      forall k | k in n'.index ensures exists q :: EntryFor(md5, n', k, q) {
        if k == h {
          assert EntryFor(md5, n', h, p);
        } else {
          var q :| EntryFor(md5, n, k, q);
          assert EntryFor(md5, n', k, q);
        }
      }
    }
    if IndexSound(md5, n') {
      EntryIsIndexed(md5, n', h, p);
    }
  }

  // A delivered ADD, whatever its fate and whatever the source answered, keeps a sound index
  // sound exactly under the stated condition.
  lemma AddSoundIff(md5: Digest, n: NodeState, sync: SyncFileInfo, fate: SyncFate, body: Bytes)
    requires IndexSound(md5, n)
    ensures IndexSound(md5, SyncAdd(n, sync, fate, body).0) <==> AddSafe(md5, n, sync, fate, body)
  {
    var p := PathOf(sync);
    match fate {
      case MkdirFails => case GetFails => case SyncCreateFails =>
      case SyncCopyFails(written) => WriteSoundIff(md5, n, p, written);
      case Fetched =>
        WriteSoundIff(md5, n, p, body);
        var n1 := n.(files := n.files[p := body]);
        if |body| > 0 && sync.fileHash != "" {
          StoredAddSoundIff(md5, n, n1, sync, body);
        }
    }
  }

  lemma StoredAddSoundIff(md5: Digest, n: NodeState, n1: NodeState, sync: SyncFileInfo, body: Bytes)
    requires IndexSound(md5, n) && sync.fileHash != "" && |body| > 0
    requires n1 == n.(files := n.files[PathOf(sync) := body])
    ensures IndexSound(md5, PutIndex(n1, sync.fileHash, SyncInfo(n.conf, sync, |body|)))
       <==> Rewrites(md5, n, PathOf(sync), body) && md5(body) == sync.fileHash && PathOf(sync) !in n.trash
  {
    var p, h := PathOf(sync), sync.fileHash;
    var info := SyncInfo(n.conf, sync, |body|);
    var n2 := PutIndex(n1, h, info);
    if Rewrites(md5, n, p, body) {
      forall k | k in n1.index && k != h ensures exists q :: EntryFor(md5, n1, k, q) {
        var q :| EntryFor(md5, n, k, q);
        assert EntryFor(md5, n1, k, q);
      }
      PutSoundIff(md5, n1, h, info, p);
    } else if IndexSound(md5, n2) {
      var k := md5(n.files[p]);
      EntryIsIndexed(md5, n2, h, p);
      EntryIsIndexed(md5, n2, k, p);
    }
  }

  // A delivered DELETE keeps a sound index sound exactly when it carries the digest of an
  // indexed file it removes.
  lemma DeleteSoundIff(md5: Digest, n: NodeState, sync: SyncFileInfo, removeWorks: bool)
    requires IndexSound(md5, n)
    ensures IndexSound(md5, SyncDelete(n, sync, removeWorks).0) <==> Safe(md5, n, OpDelete(sync, removeWorks))
  {
    var p := PathOf(sync);
    var n' := SyncDelete(n, sync, removeWorks).0;
    if p in n.files && removeWorks {
      if Indexed(md5, n, p) && md5(n.files[p]) != sync.fileHash {
        assert md5(n.files[p]) in n'.index;
        if IndexSound(md5, n') { EntryIsIndexed(md5, n', md5(n.files[p]), p); }
      } else {
        forall h | h in n'.index ensures exists q :: EntryFor(md5, n', h, q) {
          var q :| EntryFor(md5, n, h, q);
          assert EntryFor(md5, n', h, q);
        }
      }
    }
  }

  lemma CollectSound(md5: Digest, n: NodeState, p: string)
    requires IndexSound(md5, n)
    ensures IndexSound(md5, Collect(n, p))
  {
    var n' := Collect(n, p);
    forall h | h in n'.index ensures exists q :: EntryFor(md5, n', h, q) {
      var q :| EntryFor(md5, n, h, q);
      assert EntryFor(md5, n', h, q);
    }
  }

  // An upload to a path not in use keeps the index sound, however far it gets.
  lemma UploadSound(md5: Digest, n: NodeState, req: UploadRequest, env: UploadEnv)
    requires IndexSound(md5, n) && UploadSafe(md5, n, req, env)
    ensures IndexSound(md5, Upload(md5, n, req, env).0)
  {
    UploadShape(md5, n, req, env);
    var (n', r) := Upload(md5, n, req, env);
    if n' != n || r.Stored? { WroteSound(md5, n, n', TargetPath(req, env), req.form.value.content, r); }
  }

  lemma WroteSound(md5: Digest, n: NodeState, n': NodeState, p: string, content: Bytes, r: UploadResult)
    requires IndexSound(md5, n) && Wrote(md5, n, n', p, content, r)
    requires p !in n.files && p !in n.trash
    ensures IndexSound(md5, n')
  {
    forall k | k in n'.index ensures exists q :: EntryFor(md5, n', k, q) {
      if r.Stored? && k == r.info.md5 {
        assert EntryFor(md5, n', k, p);
      } else {
        var q :| EntryFor(md5, n, k, q);
        assert EntryFor(md5, n', k, q);
      }
    }
  }

  lemma SafeKeepsSound(md5: Digest, n: NodeState, op: NodeOp)
    requires IndexSound(md5, n) && Safe(md5, n, op)
    ensures IndexSound(md5, Apply(md5, n, op))
  {
    match op {
      case OpUpload(req, env) => UploadSound(md5, n, req, env);
      case OpAdd(sync, fate, body) => AddSoundIff(md5, n, sync, fate, body);
      case OpDelete(sync, removeWorks) => DeleteSoundIff(md5, n, sync, removeWorks);
      case OpCollect(path) => CollectSound(md5, n, path);
    }
  }

  // --- At-least-once delivery ---

  // A completed ADD leaves the same node behind whatever an earlier attempt at it did, be it
  // failed, cut short or complete. So redelivery with the source unchanged changes nothing.
  lemma AddErasesEarlierAttempt(n: NodeState, sync: SyncFileInfo, fate: SyncFate, earlier: Bytes, body: Bytes)
    requires body != []
    ensures SyncAdd(SyncAdd(n, sync, fate, earlier).0, sync, Fetched, body) == SyncAdd(n, sync, Fetched, body)
  {
    var n1 := SyncAdd(n, sync, fate, earlier).0;
    var p := PathOf(sync);
    assert n1.files[p := body] == n.files[p := body];
    if sync.fileHash != "" {
      var info := SyncInfo(n.conf, sync, |body|);
      assert n1.index[sync.fileHash := info] == n.index[sync.fileHash := info];
    }
  }

  // The operation does not write a file at p.
  predicate Spares(op: NodeOp, p: string) {
    match op
    case OpUpload(req, env) => req.form.None? || TargetPath(req, env) != p
    case OpAdd(sync, _, _) => PathOf(sync) != p
    case _ => true
  }

  lemma SparedStaysAbsent(md5: Digest, n: NodeState, op: NodeOp, p: string)
    requires p !in n.files && Spares(op, p)
    ensures p !in Apply(md5, n, op).files
  {
    if op.OpUpload? { UploadShape(md5, n, op.req, op.env); }
  }

  lemma {:induction false} StaysAbsent(md5: Digest, n: NodeState, ops: seq<NodeOp>, p: string)
    requires p !in n.files && forall i :: 0 <= i < |ops| ==> Spares(ops[i], p)
    ensures p !in ApplyAll(md5, n, ops).files
  {
    if ops != [] {
      StaysAbsent(md5, n, ops[..|ops| - 1], p);
      SparedStaysAbsent(md5, ApplyAll(md5, n, ops[..|ops| - 1]), ops[|ops| - 1], p);
    }
  }

  // Once a DELETE has succeeded, delivering it again answers Success and changes nothing, after
  // any later operations at other paths: an entry made by a later upload of the same content
  // elsewhere survives.
  lemma RedeliveredDelete(md5: Digest, n: NodeState, sync: SyncFileInfo, works: bool, ops: seq<NodeOp>, again: bool)
    requires SyncDelete(n, sync, works).1 == SUCCESS
    requires forall i :: 0 <= i < |ops| ==> Spares(ops[i], PathOf(sync))
    ensures var m := ApplyAll(md5, SyncDelete(n, sync, works).0, ops);
      SyncDelete(m, sync, again) == (m, SUCCESS)
  {
    StaysAbsent(md5, SyncDelete(n, sync, works).0, ops, PathOf(sync));
  }
}
