// Replication as the tracker drives it: which sync messages an upload or a delete produces,
// what one POST does to the nodes, what is logged, and one repair pass over the log.
module Replication {
  import opened Lib
  import opened Order
  import opened Names
  import opened Membership
  import opened Nodes

  // Nodes by address, and the durable log of failed syncs.
  type NodeMap = map<string, NodeState>
  type Log = map<string, SyncFileInfo>

  // --- One POST to /sync ---

  // What stands behind the host in the URL of a fetch; it is not escaped.
  function UrlPath(sync: SyncFileInfo): string {
    sync.group + "/" + PathOf(sync)
  }

  // The path below the storage directory that a node serves for a request, if it serves one.
  function Under(group: string, request: string): Option<string> {
    if group + "/" <= request then Some(request[|group| + 1..]) else None
  }

  // The path that a fetch really names on a node of this group.
  function Named(group: string, sync: SyncFileInfo): Option<string> {
    var request := Requested(UrlPath(sync));
    if request.Some? then Under(group, request.value) else None
  }

  // What a GET of the file at its source answers; the status is not looked at. None when the
  // URL does not parse or the source cannot be reached. `odd` is Some when a mangled URL names
  // no file but a directory, a path the server redirects or another route, with what it answers
  // then; in all other cases it answers its page for a missing file.
  function Fetch(nodes: NodeMap, sync: SyncFileInfo, odd: Option<Bytes>): Option<Bytes> {
    var s := HostOf(sync.src);
    if s !in nodes || Requested(UrlPath(sync)).None? then None
    else
      var n := nodes[s];
      var p := Named(n.conf.group, sync);
      if p.Some? && p.value in n.files then Some(n.files[p.value])
      else if p == Some(PathOf(sync)) || odd.None? then Some(n.conf.missing)
      else odd
  }

  // A fetch with a URL-safe group and path names the file itself on a node of that group.
  lemma SafeNamed(sync: SyncFileInfo)
    requires UrlSafe(sync.group) && UrlSafe(PathOf(sync))
    ensures Requested(UrlPath(sync)) == Some(UrlPath(sync)) && Named(sync.group, sync) == Some(PathOf(sync))
  {
    hide PathOf, Requested;
    UrlSafeIff(UrlPath(sync));
    assert UrlPath(sync)[|sync.group| + 1..] == PathOf(sync);
  }

  // So such a fetch brings the file, or the page for a missing one.
  lemma SafeFetch(nodes: NodeMap, sync: SyncFileInfo, odd: Option<Bytes>)
    requires UrlSafe(sync.group) && UrlSafe(PathOf(sync))
    requires HostOf(sync.src) in nodes && nodes[HostOf(sync.src)].conf.group == sync.group
    ensures var n := nodes[HostOf(sync.src)];
      Fetch(nodes, sync, odd) == Some(if PathOf(sync) in n.files then n.files[PathOf(sync)] else n.conf.missing)
  {
    hide PathOf, Requested, Named, UrlSafe, HostOf;
    SafeNamed(sync);
  }

  // A GET of any URL whose host is an address, when what it names is no directory and the like:
  // the file, or the page for a missing one.
  function Get(nodes: NodeMap, url: string): Option<Bytes> {
    var rest := HostOf(url);
    var a := UpTo(rest, '/');
    if a !in nodes || |a| == |rest| || Requested(rest[|a| + 1..]).None? then None
    else
      var n := nodes[a];
      var p := Under(n.conf.group, Requested(rest[|a| + 1..]).value);
      Some(if p.Some? && p.value in n.files then n.files[p.value] else n.conf.missing)
  }

  lemma UrlParts(schema: string, a: string, path: string)
    requires ':' !in schema && '/' !in a
    ensures var rest := HostOf(BaseUrl(schema, a) + "/" + path);
      UpTo(rest, '/') == a && |rest| > |a| && rest[|a| + 1..] == path
  {
    assert BaseUrl(schema, a) + "/" + path == BaseUrl(schema, a + ['/'] + path);
    HostOfBaseUrl(schema, a + ['/'] + path);
    UpToFirst(a, '/', path);
  }

  // The fetch of an ADD is the GET of source, group, directory and name, joined by slashes.
  lemma FetchIsGet(nodes: NodeMap, sync: SyncFileInfo, schema: string, a: string)
    requires sync.src == schema + "://" + a && ':' !in schema && '/' !in a
    ensures Fetch(nodes, sync, None)
         == Get(nodes, sync.src + "/" + sync.group + "/" + sync.filePath + "/" + sync.fileName)
  {
    hide Requested, HostOf;
    HostOfBaseUrl(schema, a);
    UrlParts(schema, a, UrlPath(sync));
    assert sync.src + "/" + sync.group + "/" + sync.filePath + "/" + sync.fileName
        == BaseUrl(schema, a) + "/" + UrlPath(sync);
  }

  // A static URL with a URL-safe group and path gets the file it names.
  lemma UrlGets(nodes: NodeMap, a: string, p: string)
    requires a in nodes && a == JoinHostPort(nodes[a].conf.host, nodes[a].conf.port)
    requires ':' !in nodes[a].conf.schema && '/' !in a && UrlSafe(nodes[a].conf.group) && UrlSafe(p)
    ensures var n := nodes[a]; Get(nodes, UrlOf(n.conf, p)) == Some(if p in n.files then n.files[p] else n.conf.missing)
  {
    hide Requested, HostOf;
    var c := nodes[a].conf;
    var path := c.group + "/" + p;
    UrlParts(c.schema, a, path);
    assert UrlOf(c, p) == BaseUrl(c.schema, a) + "/" + path;
    assert UrlSafe(path) by { assert forall x :: x in path ==> x in c.group || x == '/' || x in p; }
    SafeRequested(path);
    assert path[|c.group| + 1..] == p;
  }

  // What happens on the receiving node: its disk during an ADD or a DELETE, and `odd` above.
  datatype DeliverFate = DeliverFate(disk: SyncFate, removeWorks: bool, odd: Option<Bytes>)

  // A delivery in which every disk works.
  const WHOLE := DeliverFate(Fetched, true, None)

  // The operation a delivered message performs on its destination.
  function OpOf(nodes: NodeMap, sync: SyncFileInfo, fate: DeliverFate): NodeOp {
    if sync.action == SYNC_ADD then
      var body := Fetch(nodes, sync, fate.odd);
      if body.None? then OpAdd(sync, if fate.disk.MkdirFails? then MkdirFails else GetFails, [])
      else OpAdd(sync, fate.disk, body.value)
    else OpDelete(sync, fate.removeWorks)
  }

  function ReplyOf(n: NodeState, op: NodeOp): nat {
    match op
    case OpAdd(sync, fate, body) => SyncAdd(n, sync, fate, body).1
    case OpDelete(sync, works) => SyncDelete(n, sync, works).1
    case _ => FAIL
  }

  // Only ADD and DELETE messages exist; a message with another action gets an empty answer.
  function Deliver(md5: Digest, nodes: NodeMap, sync: SyncFileInfo, fate: DeliverFate): (NodeMap, Option<nat>) {
    var d := HostOf(sync.dst);
    if d !in nodes || !IsAction(sync.action) then (nodes, None)
    else
      var op := OpOf(nodes, sync, fate);
      (nodes[d := Apply(md5, nodes[d], op)], Some(ReplyOf(nodes[d], op)))
  }

  datatype PostFate = Unreachable | ReplyLost(at: DeliverFate) | Answered(at: DeliverFate)

  function Post(md5: Digest, nodes: NodeMap, sync: SyncFileInfo, fate: PostFate): (NodeMap, Option<nat>) {
    match fate
    case Unreachable => (nodes, None)
    case ReplyLost(at) => (Deliver(md5, nodes, sync, at).0, None)
    case Answered(at) => Deliver(md5, nodes, sync, at)
  }

  function KeyOf(sync: SyncFileInfo): string {
    LogKey(sync.fileName, sync.action)
  }

  // One sync attempt: skipped and logged at once when the destination is not usable, otherwise
  // posted, and logged unless the answer is Success.
  function Attempt(md5: Digest, usable: bool, nodes: NodeMap, log: Log, sync: SyncFileInfo,
                   fate: PostFate): (NodeMap, Log) {
    if !usable then (nodes, log[KeyOf(sync) := sync])
    else
      var (nodes', resp) := Post(md5, nodes, sync, fate);
      (nodes', if resp == Some(SUCCESS) then log else log[KeyOf(sync) := sync])
  }

  // An attempt posts exactly if the destination is usable, and leaves its entry exactly if it was
  // not acknowledged.
  lemma AttemptDecides(md5: Digest, usable: bool, nodes: NodeMap, log: Log, sync: SyncFileInfo, fate: PostFate)
    ensures var (nodes', log') := Attempt(md5, usable, nodes, log, sync, fate);
      var reached := usable && !fate.Unreachable?;
      var acked := usable && fate.Answered? && Deliver(md5, nodes, sync, fate.at).1 == Some(SUCCESS);
      && nodes' == (if reached then Deliver(md5, nodes, sync, fate.at).0 else nodes)
      && log' == if acked then log else log[sync.fileName + "@" + sync.action := sync]
  {
    hide Deliver;
  }

  // --- Messages of an upload and of a delete ---

  function AddMessage(src: ServerState, dst: ServerState, info: FileInfo, filePath: string, fileName: string,
                      group: string): SyncFileInfo {
    SyncFileInfo(BaseUrl(src.schema, src.addr), BaseUrl(dst.schema, dst.addr), info.fileId, filePath, fileName,
                 info.md5, SYNC_ADD, group)
  }

  function DeleteMessage(dst: ServerState, fileId: string, filePath: string, fileName: string, md5: string,
                         group: string): SyncFileInfo {
    SyncFileInfo("", BaseUrl(dst.schema, dst.addr), fileId, filePath, fileName, md5, SYNC_DELETE, group)
  }

  // How a fan-out addresses one storage; None for a storage it leaves out.
  type Maker = ServerState -> Option<SyncFileInfo>

  function AddTo(src: ServerState, info: FileInfo, filePath: string, fileName: string, group: string): Maker {
    (dst: ServerState) =>
      if dst.addr == src.addr then None else Some(AddMessage(src, dst, info, filePath, fileName, group))
  }

  function DeleteAt(fileId: string, filePath: string, fileName: string, md5: string, group: string): Maker {
    (dst: ServerState) => Some(DeleteMessage(dst, fileId, filePath, fileName, md5, group))
  }

  // The messages for the addresses of the list, in order.
  function Messages(m: Storages, addrs: seq<string>, make: Maker): (r: seq<SyncFileInfo>)
    requires forall a :: a in addrs ==> a in m
  {
    if addrs == [] then []
    else
      var msg := make(m[addrs[|addrs| - 1]]);
      Messages(m, addrs[..|addrs| - 1], make) + if msg.Some? then [msg.value] else []
  }

  // The fan-out over a group: one message per registered storage that is addressed, by address.
  ghost function FanOut(m: Storages, make: Maker): seq<SyncFileInfo> {
    SortedMembers(m);
    Messages(m, SortedSeq(m.Keys), make)
  }

  lemma SortedMembers(m: Storages)
    ensures forall a :: a in SortedSeq(m.Keys) <==> a in m
  {
    assert forall a :: a in SortedSeq(m.Keys) <==> a in Elements(SortedSeq(m.Keys));
  }

  // The fan-out addresses every registered storage the maker does not leave out, and no other.
  lemma FanOutComplete(m: Storages, make: Maker)
    ensures forall msg :: msg in FanOut(m, make) <==> exists a :: a in m && make(m[a]) == Some(msg)
  {
    SortedMembers(m);
    MessagesComplete(m, SortedSeq(m.Keys), make);
  }

  // Every other registered storage gets an ADD with both URLs, and with id, place, digest and
  // group of the upload; nobody else gets any.
  lemma AddFanOut(m: Storages, a: string, info: FileInfo, filePath: string, fileName: string, group: string)
    requires Addressed(m) && a in m
    ensures forall msg :: msg in FanOut(m, AddTo(m[a], info, filePath, fileName, group)) <==>
      exists b :: b in m && b != a && msg == SyncFileInfo(m[a].schema + "://" + a, m[b].schema + "://" + b, info.fileId,
                                                          filePath, fileName, info.md5, SYNC_ADD, group)
  {
    hide FanOut;
    FanOutComplete(m, AddTo(m[a], info, filePath, fileName, group));
  }

  // Every registered storage gets a DELETE with its URL and what the client sent.
  lemma DeleteFanOut(m: Storages, fileId: string, filePath: string, fileName: string, md5: string, group: string)
    requires Addressed(m)
    ensures forall msg :: msg in FanOut(m, DeleteAt(fileId, filePath, fileName, md5, group)) <==>
      exists b :: b in m && msg == SyncFileInfo("", m[b].schema + "://" + b, fileId, filePath, fileName, md5,
                                                SYNC_DELETE, group)
  {
    hide FanOut;
    FanOutComplete(m, DeleteAt(fileId, filePath, fileName, md5, group));
  }

  lemma {:induction false} MessagesComplete(m: Storages, addrs: seq<string>, make: Maker)
    requires forall a :: a in addrs ==> a in m
    ensures forall msg :: msg in Messages(m, addrs, make) <==> exists a :: a in addrs && make(m[a]) == Some(msg)
  {
    if addrs != [] {
      var pre, last := addrs[..|addrs| - 1], addrs[|addrs| - 1];
      MessagesComplete(m, pre, make);
      assert forall a :: a in addrs <==> a in pre || a == last;
    }
  }

  // --- The fan-out of an upload, counted ---

  // Storages filed under their own addresses, reached over plain schemas.
  ghost predicate Addressed(m: Storages) {
    forall a :: a in m ==> m[a].addr == a && ':' !in m[a].schema
  }

  ghost predicate DistinctHosts(msgs: seq<SyncFileInfo>) {
    forall i, j :: 0 <= i < j < |msgs| ==> HostOf(msgs[i].dst) != HostOf(msgs[j].dst)
  }

  lemma NoHosts()
    ensures DistinctHosts([])
  {
  }

  lemma {:induction false} AddMessagesCount(m: Storages, addrs: seq<string>, src: ServerState, info: FileInfo,
                                            filePath: string, fileName: string, group: string)
    requires Addressed(m) && forall a :: a in addrs ==> a in m
    requires forall i, j :: 0 <= i < j < |addrs| ==> addrs[i] != addrs[j]
    ensures var msgs := Messages(m, addrs, AddTo(src, info, filePath, fileName, group));
      && |msgs| == |addrs| - (if src.addr in addrs then 1 else 0)
      && (forall x :: x in msgs ==> HostOf(x.dst) in addrs)
      && DistinctHosts(msgs)
  {
    if addrs == [] {
      NoHosts();
    } else {
      var pre, a := addrs[..|addrs| - 1], addrs[|addrs| - 1];
      AddMessagesCount(m, pre, src, info, filePath, fileName, group);
      hide HostOf, BaseUrl, DistinctHosts;
      HostOfBaseUrl(m[a].schema, a);
      assert forall x :: x in addrs <==> x in pre || x == a;
      var make := AddTo(src, info, filePath, fileName, group);
      if make(m[a]).Some? { OneMoreHost(Messages(m, pre, make), make(m[a]).value, pre); }
    }
  }

  // A message to a node none of the others goes to.
  lemma OneMoreHost(init: seq<SyncFileInfo>, msg: SyncFileInfo, addrs: seq<string>)
    requires DistinctHosts(init) && forall x :: x in init ==> HostOf(x.dst) in addrs
    requires HostOf(msg.dst) !in addrs
    ensures DistinctHosts(init + [msg])
  {
    hide HostOf;
    assert forall i :: 0 <= i < |init| ==> init[i] in init;
  }

  // One message per registered storage other than the source, all to different nodes.
  lemma FanOutSize(m: Storages, a: string, info: FileInfo, filePath: string, fileName: string, group: string)
    requires Addressed(m) && a in m
    ensures var msgs := FanOut(m, AddTo(m[a], info, filePath, fileName, group));
      |msgs| == |m.Keys| - 1 && DistinctHosts(msgs)
  {
    SortedMembers(m);
    StrictlySortedAll(SortedSeq(m.Keys));
    AddMessagesCount(m, SortedSeq(m.Keys), m[a], info, filePath, fileName, group);
  }

  // --- Repair ---

  // How repair finds the storages an entry names: by the whole URL as the code does, or by the
  // address in it, as the registry is keyed.
  datatype Addressing = AsWritten | ByAddress

  function LookupKey(mode: Addressing, url: string): string {
    if mode == AsWritten then url else HostOf(url)
  }

  // Crash stands for the nil dereference on a storage that is not found.
  datatype Verdict = Skip | Crash | Try

  function Consider(mode: Addressing, t: TrackerState, sync: SyncFileInfo): Verdict {
    if sync.group !in t then Skip
    else
      var m := t[sync.group].storages;
      var d, s := LookupKey(mode, sync.dst), LookupKey(mode, sync.src);
      if d !in m then Crash
      else if m[d].status != StorageActive then Skip
      else if mode == ByAddress && sync.action != SYNC_ADD then Try
      else if s !in m then Crash
      else if m[s].status != StorageActive then Skip
      else Try
  }

  // Repair tries an entry exactly if its group is registered, its destination found and Active,
  // and, but for a DELETE looked up by address, its source too; it stops at a storage not found.
  lemma ConsiderDecides(mode: Addressing, t: TrackerState, sync: SyncFileInfo)
    ensures var d := if mode == AsWritten then sync.dst else HostOf(sync.dst);
      var s := if mode == AsWritten then sync.src else HostOf(sync.src);
      var g, needed := sync.group, mode == AsWritten || sync.action == SYNC_ADD;
      && (Consider(mode, t, sync) == Try <==>
            g in t && IsActive(t[g].storages, d) && (needed ==> IsActive(t[g].storages, s)))
      && (Consider(mode, t, sync) == Crash <==>
            g in t && (d !in t[g].storages || (needed && IsActive(t[g].storages, d) && s !in t[g].storages)))
  {
    hide HostOf;
  }

  datatype Pass = Pass(nodes: NodeMap, log: Log, crashed: bool)

  // The log after an answer to the POST of an entry.
  function Settle(log: Log, sync: SyncFileInfo, resp: Option<nat>): Log {
    if resp == Some(SUCCESS) then log - {KeyOf(sync)} else log
  }

  // The pass over the snapshot's keys in the given order; `fate` says what happens to each POST.
  function RepairPass(md5: Digest, mode: Addressing, t: TrackerState, nodes: NodeMap, log: Log,
                      snapshot: Log, keys: seq<string>, fate: string -> PostFate): Pass
    requires forall k :: k in keys ==> k in snapshot
  {
    if keys == [] then Pass(nodes, log, false)
    else
      var sync := snapshot[keys[0]];
      match Consider(mode, t, sync)
      case Skip => RepairPass(md5, mode, t, nodes, log, snapshot, keys[1..], fate)
      case Crash => Pass(nodes, log, true)
      case Try =>
        var (nodes', resp) := Post(md5, nodes, sync, fate(keys[0]));
        RepairPass(md5, mode, t, nodes', Settle(log, sync, resp), snapshot, keys[1..], fate)
  }

  lemma LogKeysListed(log: Log)
    ensures forall k :: k in SortedSeq(log.Keys) <==> k in log
  {
    assert forall k :: k in SortedSeq(log.Keys) <==> k in Elements(SortedSeq(log.Keys));
  }

  // One pass over the whole log, in the key order an iterator gives.
  ghost function FullRepair(md5: Digest, mode: Addressing, t: TrackerState, nodes: NodeMap, log: Log,
                            fate: string -> PostFate): Pass {
    LogKeysListed(log);
    RepairPass(md5, mode, t, nodes, log, log, SortedSeq(log.Keys), fate)
  }

  lemma RepairStep(md5: Digest, mode: Addressing, t: TrackerState, nodes: NodeMap, log: Log,
                   snapshot: Log, keys: seq<string>, i: nat, fate: string -> PostFate)
    requires i < |keys| && forall k :: k in keys ==> k in snapshot
    ensures var sync := snapshot[keys[i]];
      RepairPass(md5, mode, t, nodes, log, snapshot, keys[i..], fate) ==
      match Consider(mode, t, sync)
      case Skip => RepairPass(md5, mode, t, nodes, log, snapshot, keys[i + 1..], fate)
      case Crash => Pass(nodes, log, true)
      case Try =>
        var (nodes', resp) := Post(md5, nodes, sync, fate(keys[i]));
        RepairPass(md5, mode, t, nodes', Settle(log, sync, resp), snapshot, keys[i + 1..], fate)
  {
    assert keys[i..][1..] == keys[i + 1..];
  }

  lemma RepairEnd(md5: Digest, mode: Addressing, t: TrackerState, nodes: NodeMap, log: Log, snapshot: Log,
                  fate: string -> PostFate)
    ensures RepairPass(md5, mode, t, nodes, log, snapshot, [], fate) == Pass(nodes, log, false)
  {
  }
}
