// svc/storage.go: the storage service, step by step, proved to perform the operations of Nodes.
module Storages {
  import opened Lib
  import opened Order
  import opened Names
  import opened EggDBs
  import opened Nodes

  class Storage {
    const conf: Conf
    const md5: Digest
    const db: EggDB<FileInfo>
    var files: map<string, Bytes>
    // Damaged uploads handed to a background removal.
    var trash: set<string>

    constructor (conf: Conf, md5: Digest, onDisk: map<string, Bytes>, index: map<string, FileInfo>)
      ensures this.conf == conf && this.md5 == md5 && fresh(db)
      ensures View() == NodeState(conf, onDisk, index, {})
    {
      this.conf, this.md5, files, trash := conf, md5, onDisk, {};
      db := new EggDB(index);
    }

    ghost function View(): NodeState
      reads this, db
    {
      NodeState(conf, files, db.Ldb, trash)
    }

    method SaveQuickUploadedFile(content: Bytes, dst: string, hash: string, fate: SaveFate)
      returns (md5hash: Option<string>)
      modifies this
      ensures (View(), md5hash) == SaveFile(md5, old(View()), dst, content, hash, fate)
    {
      if fate.OpenFails? { return None; }
      if fate.CreateFails? { return None; }
      files := files[dst := []];
      if fate.CopyFails? {
        files := files[dst := fate.written];
        assert files == old(files)[dst := fate.written];
        return None;
      }
      files := files[dst := content];
      assert files == old(files)[dst := content];
      if fate.ReopenFails? { return None; }
      var h := if fate.DigestFails? then "" else md5(content);
      if hash != h && hash != "" {
        trash := trash + {dst};
        return None;
      }
      md5hash := Some(h);
    }

    method QuickUpload(req: UploadRequest, env: UploadEnv) returns (r: UploadResult)
      modifies this, db
      ensures (View(), r) == Upload(md5, old(View()), req, env)
    {
      if req.fileHash != "" {
        var exist := db.IsExistKey(req.fileHash);
        if exist {
          var data := db.Get(req.fileHash);
          return Instant(data.value);
        }
      }
      var filePath := GenFilePath(env.today, req.customDir);
      if !env.dirReady { return Refused(DIR_CREATE_FAIL); }
      if req.form.None? { return Refused(FORM_FILE_NOT_FOUND); }
      var file := req.form.value;
      if conf.fileSizeLimit > 0 && |file.content| > conf.fileSizeLimit { return Refused(FILE_SIZE_EXCEEDED); }
      var fileName := GenFileName(req.uuid, file.filename);
      var fullPath := filePath + "/" + fileName;
      assert fullPath == StoredPath(filePath, fileName);
      var md5hash := SaveQuickUploadedFile(file.content, fullPath, req.fileHash, env.fate);
      if md5hash.None? { return Refused(FILE_SAVE_FAIL); }
      var fi := FileInfo(req.uuid, file.filename, fileName, UrlOf(conf, fullPath), |file.content|,
                         filePath + "/" + fileName, md5hash.value, conf.group);
      assert fi == UploadInfo(conf, req, filePath, fileName, md5hash.value);
      var _ := db.Put(fi.md5, fi);
      r := Stored(fi, filePath, fileName);
    }

    method SyncFileAdd(sync: SyncFileInfo, fate: SyncFate, body: Bytes) returns (status: nat)
      modifies this, db
      ensures (View(), status) == SyncAdd(old(View()), sync, fate, body)
    {
      if fate.MkdirFails? { return DIR_CREATE_FAIL; }
      if fate.GetFails? { return FAIL; }
      var fullPath := sync.filePath + "/" + sync.fileName;
      assert fullPath == PathOf(sync);
      if fate.SyncCreateFails? { return DIR_CREATE_FAIL; }
      files := files[fullPath := []];
      var copied := if fate.SyncCopyFails? then fate.written else body;
      files := files[fullPath := copied];
      assert files == old(files)[fullPath := copied];
      if fate.SyncCopyFails? || |copied| <= 0 { return FAIL; }
      var fi := FileInfo(sync.fileId, sync.fileName, sync.fileName, UrlOf(conf, fullPath), |copied|,
                         sync.filePath, sync.fileHash, sync.group);
      var _ := db.Put(sync.fileHash, fi);
      status := SUCCESS;
    }

    method SyncFileDelete(sync: SyncFileInfo, removeWorks: bool) returns (status: nat)
      modifies this, db
      ensures (View(), status) == SyncDelete(old(View()), sync, removeWorks)
    {
      var fullPath := sync.filePath + "/" + sync.fileName;
      assert fullPath == PathOf(sync);
      if fullPath !in files { return SUCCESS; }
      if !removeWorks { return FAIL; }
      files := files - {fullPath};
      if sync.fileHash != "" {
        db.Delete([sync.fileHash]);
        assert Elements([sync.fileHash]) == {sync.fileHash};
      }
      status := SUCCESS;
    }

    // The removal that a save with a wrong digest leaves to the background.
    method RemoveDamaged(path: string)
      modifies this
      ensures View() == Collect(old(View()), path)
    {
      if path in trash {
        files := files - {path};
        trash := trash - {path};
      }
    }
  }
}
