// What one repair pass over the sync log achieves: with the lookups as written, and with
// lookups by address.
module Repairs {
  import opened Lib
  import opened Order
  import opened Names
  import opened Membership
  import opened Nodes
  import opened Replication

  function FileAt(nodes: NodeMap, d: string, p: string): Option<Bytes> {
    if d in nodes && p in nodes[d].files then Some(nodes[d].files[p]) else None
  }

  // Every entry is filed under its key, and names a file as the tracker names them.
  ghost predicate LogOk(log: Log) {
    forall k :: k in log ==> IsAction(log[k].action) && '/' !in log[k].fileName && k == KeyOf(log[k])
  }

  ghost predicate Targets(sync: SyncFileInfo, d: string, p: string) {
    HostOf(sync.dst) == d && PathOf(sync) == p
  }

  lemma OpFrame(md5: Digest, n: NodeState, op: NodeOp, p: string)
    requires op.OpAdd? || op.OpDelete?
    requires PathOf(op.sync) == p
    ensures var n' := Apply(md5, n, op); n'.conf == n.conf && n'.files - {p} == n.files - {p}
  {
    hide PathOf, SyncInfo, PutIndex, Upload, Collect;
    if op.OpAdd? {
      IndexOnly(n.(files := n.files[p := op.body]), op.sync.fileHash, SyncInfo(n.conf, op.sync, |op.body|));
    }
  }

  lemma IndexOnly(n: NodeState, hash: string, info: FileInfo)
    ensures PutIndex(n, hash, info).files == n.files && PutIndex(n, hash, info).conf == n.conf
  {
  }

  // A delivered sync touches one file of one node and leaves every node in place.
  lemma DeliverFrame(md5: Digest, nodes: NodeMap, sync: SyncFileInfo, at: DeliverFate)
    ensures var nodes' := Deliver(md5, nodes, sync, at).0;
      && nodes'.Keys == nodes.Keys
      && (forall d :: d in nodes ==> nodes'[d].conf == nodes[d].conf)
      && (forall d, p :: !Targets(sync, d, p) ==> FileAt(nodes', d, p) == FileAt(nodes, d, p))
  {
    var d, op := HostOf(sync.dst), OpOf(nodes, sync, at);
    if d in nodes && IsAction(sync.action) {
      OpFrame(md5, nodes[d], op, PathOf(sync));
      hide Apply, OpOf;
      var nodes' := Deliver(md5, nodes, sync, at).0;
      forall e, p | !Targets(sync, e, p) ensures FileAt(nodes', e, p) == FileAt(nodes, e, p) {
        if e == d {
          assert p in nodes'[d].files <==> p in nodes'[d].files - {PathOf(sync)};
          assert p in nodes[d].files <==> p in nodes[d].files - {PathOf(sync)};
        }
      }
    }
  }

  lemma PostFrame(md5: Digest, nodes: NodeMap, sync: SyncFileInfo, f: PostFate)
    ensures var nodes' := Post(md5, nodes, sync, f).0;
      && nodes'.Keys == nodes.Keys
      && (forall d :: d in nodes ==> nodes'[d].conf == nodes[d].conf)
      && (forall d, p :: !Targets(sync, d, p) ==> FileAt(nodes', d, p) == FileAt(nodes, d, p))
  {
    if !f.Unreachable? { DeliverFrame(md5, nodes, sync, f.at); }
  }

  // --- The lookups as written ---

  // With storages registered under host:port addresses and entries naming URLs, the pass
  // never repairs anything: it changes neither log nor nodes, and it crashes exactly when
  // some entry's group is registered.
  lemma AsWrittenNeverRepairs(md5: Digest, t: TrackerState, nodes: NodeMap, log: Log, fate: string -> PostFate)
    requires forall g, a :: Registered(t, g, a) ==> '/' !in a
    requires forall k :: k in log ==> '/' in log[k].dst
    ensures FullRepair(md5, AsWritten, t, nodes, log, fate)
      == Pass(nodes, log, exists k :: k in log && log[k].group in t)
  {
    LogKeysListed(log);
    AsWrittenStep(md5, t, nodes, log, SortedSeq(log.Keys), fate);
    assert forall k :: k in SortedSeq(log.Keys) <==> k in log;
  }

  lemma {:induction false} AsWrittenStep(md5: Digest, t: TrackerState, nodes: NodeMap, log: Log, keys: seq<string>,
                                         fate: string -> PostFate)
    requires forall g, a :: Registered(t, g, a) ==> '/' !in a
    requires forall k :: k in log ==> '/' in log[k].dst
    requires forall k :: k in keys ==> k in log
    ensures RepairPass(md5, AsWritten, t, nodes, log, log, keys, fate)
         == Pass(nodes, log, exists k :: k in keys && log[k].group in t)
  {
    if keys != [] {
      var sync := log[keys[0]];
      assert forall k :: k in keys <==> k == keys[0] || k in keys[1..];
      AsWrittenStep(md5, t, nodes, log, keys[1..], fate);
      if sync.group in t { assert !Registered(t, sync.group, sync.dst); }
    }
  }

  // --- Convergence ---

  // Everything an ADD entry needs to be repaired: both ends found and Active, the POST
  // answered, no disk failure, and the source serving a non-empty file under that URL.
  ghost predicate Ready(mode: Addressing, t: TrackerState, nodes: NodeMap, sync: SyncFileInfo, f: PostFate) {
    var s := HostOf(sync.src);
    && sync.action == SYNC_ADD && Consider(mode, t, sync) == Try
    && f.Answered? && f.at.disk.Fetched?
    && HostOf(sync.dst) in nodes && s in nodes
    && UrlSafe(sync.group) && UrlSafe(PathOf(sync)) && sync.group == nodes[s].conf.group
    && FileAt(nodes, s, PathOf(sync)).Some? && FileAt(nodes, s, PathOf(sync)) != Some([])
  }

  // The answer to an ADD is Success exactly when nothing fails and the source serves something
  // other than an empty body; so an empty file is never acknowledged.
  lemma AddSucceedsIff(md5: Digest, nodes: NodeMap, sync: SyncFileInfo, at: DeliverFate)
    requires sync.action == SYNC_ADD && HostOf(sync.dst) in nodes
    ensures Deliver(md5, nodes, sync, at).1 == Some(SUCCESS)
       <==> at.disk.Fetched? && Fetch(nodes, sync, at.odd).Some? && Fetch(nodes, sync, at.odd) != Some([])
  {
  }

  lemma ReadyDelivers(md5: Digest, mode: Addressing, t: TrackerState, nodes: NodeMap, sync: SyncFileInfo, f: PostFate)
    requires Ready(mode, t, nodes, sync, f)
    ensures var (nodes', resp) := Post(md5, nodes, sync, f); var d, p := HostOf(sync.dst), PathOf(sync);
      && resp == Some(SUCCESS)
      && FileAt(nodes', d, p) == FileAt(nodes, HostOf(sync.src), p)
      && var info := SyncInfo(nodes[d].conf, sync, |FileAt(nodes', d, p).value|);
      nodes'[d].index == PutIndex(nodes[d], sync.fileHash, info).index
  {
    hide Fetch, PathOf, HostOf, UrlSafe, SyncInfo, Consider;
    SafeFetch(nodes, sync, f.at.odd);
  }

  // Two entries for the same file of the same node differ in their action only, and the ADD
  // comes first.
  lemma SameFileOrder(log: Log, k1: string, k2: string)
    requires LogOk(log) && k1 in log && k2 in log && Below(k1, k2)
    requires PathOf(log[k1]) == PathOf(log[k2])
    ensures log[k1].action == SYNC_ADD && log[k2].action == SYNC_DELETE && log[k1].fileName == log[k2].fileName
  {
    StoredPathInjective(log[k1].filePath, log[k1].fileName, log[k2].filePath, log[k2].fileName);
    BelowIrreflexive(k1);
    AddSortsBeforeDelete(log[k1].fileName);
    if log[k1].action == SYNC_DELETE && log[k2].action == SYNC_ADD { BelowTransitive(k1, k2, k1); }
  }

  ghost predicate Ahead(log: Log, keys: seq<string>) {
    StrictlySorted(keys) && forall k :: k in keys ==> k in log
  }

  // No entry still ahead touches this file.
  ghost predicate Untouched(log: Log, keys: seq<string>, d: string, p: string)
    requires forall k :: k in keys ==> k in log
  {
    forall k :: k in keys ==> !Targets(log[k], d, p)
  }

  lemma {:induction false} PassKeeps(md5: Digest, mode: Addressing, t: TrackerState, nodes: NodeMap, cur: Log,
                                     log: Log, keys: seq<string>, fate: string -> PostFate, d: string, p: string)
    requires Ahead(log, keys) && Untouched(log, keys, d, p)
    ensures FileAt(RepairPass(md5, mode, t, nodes, cur, log, keys, fate).nodes, d, p) == FileAt(nodes, d, p)
  {
    if keys != [] {
      var sync := log[keys[0]];
      var rest := keys[1..];
      match Consider(mode, t, sync) {
        case Skip => PassKeeps(md5, mode, t, nodes, cur, log, rest, fate, d, p);
        case Crash =>
        case Try =>
          var (nodes', resp) := Post(md5, nodes, sync, fate(keys[0]));
          PostFrame(md5, nodes, sync, fate(keys[0]));
          assert !Targets(sync, d, p);
          PassKeeps(md5, mode, t, nodes', Settle(cur, sync, resp), log, rest, fate, d, p);
      }
    }
  }

  // A pass only removes entries, and only entries it visits.
  lemma {:induction false} PassShrinks(md5: Digest, mode: Addressing, t: TrackerState, nodes: NodeMap, cur: Log,
                                       log: Log, keys: seq<string>, fate: string -> PostFate)
    requires LogOk(log) && forall k :: k in keys ==> k in log
    ensures var r := RepairPass(md5, mode, t, nodes, cur, log, keys, fate);
      forall k :: (k in r.log ==> k in cur && r.log[k] == cur[k]) && (k in cur && k !in keys ==> k in r.log)
  {
    if keys != [] {
      var sync := log[keys[0]];
      match Consider(mode, t, sync) {
        case Skip => PassShrinks(md5, mode, t, nodes, cur, log, keys[1..], fate);
        case Crash =>
        case Try =>
          var (nodes', resp) := Post(md5, nodes, sync, fate(keys[0]));
          PassShrinks(md5, mode, t, nodes', Settle(cur, sync, resp), log, keys[1..], fate);
      }
    }
  }

  // What the entries still ahead must satisfy for the rest of the pass to converge.
  ghost predicate AllReady(mode: Addressing, t: TrackerState, nodes: NodeMap, log: Log, keys: seq<string>,
                           fate: string -> PostFate)
    requires forall k :: k in keys ==> k in log
  {
    forall k :: k in keys ==>
      if log[k].action == SYNC_ADD then Ready(mode, t, nodes, log[k], fate(k)) else Consider(mode, t, log[k]) != Crash
  }

  // Visiting the first entry takes nothing away from the entries behind it.
  lemma StaysReady(md5: Digest, mode: Addressing, t: TrackerState, nodes: NodeMap, log: Log, keys: seq<string>,
                   fate: string -> PostFate)
    requires keys != [] && LogOk(log) && Ahead(log, keys) && AllReady(mode, t, nodes, log, keys, fate)
    ensures var nodes' := Post(md5, nodes, log[keys[0]], fate(keys[0])).0;
      && AllReady(mode, t, nodes', log, keys[1..], fate)
      && forall k :: k in keys[1..] && log[k].action == SYNC_ADD ==>
           FileAt(nodes', HostOf(log[k].src), PathOf(log[k])) == FileAt(nodes, HostOf(log[k].src), PathOf(log[k]))
  {
    var sync := log[keys[0]];
    PostFrame(md5, nodes, sync, fate(keys[0]));
    forall k | k in keys[1..] && log[k].action == SYNC_ADD
      ensures !Targets(sync, HostOf(log[k].src), PathOf(log[k]))
    {
      var i :| 0 < i < |keys| && keys[i] == k;
      assert Below(keys[0], keys[i]);
      if PathOf(sync) == PathOf(log[k]) { SameFileOrder(log, keys[0], k); }
    }
  }

  // The first entry ahead, when it is an ADD, leaves the log for good and its file arrives to stay.
  lemma HeadConverges(md5: Digest, mode: Addressing, t: TrackerState, nodes: NodeMap, cur: Log,
                      log: Log, keys: seq<string>, fate: string -> PostFate)
    requires keys != [] && LogOk(log) && Ahead(log, keys) && AllReady(mode, t, nodes, log, keys, fate)
    requires log[keys[0]].action == SYNC_ADD
    ensures var r, sync := RepairPass(md5, mode, t, nodes, cur, log, keys, fate), log[keys[0]];
      && keys[0] !in r.log
      && (LogKey(sync.fileName, SYNC_DELETE) !in keys ==>
            FileAt(r.nodes, HostOf(sync.dst), PathOf(sync)) == FileAt(nodes, HostOf(sync.src), PathOf(sync)))
  {
    var sync, rest := log[keys[0]], keys[1..];
    var (nodes', resp) := Post(md5, nodes, sync, fate(keys[0]));
    var cur' := Settle(cur, sync, resp);
    ReadyDelivers(md5, mode, t, nodes, sync, fate(keys[0]));
    PassShrinks(md5, mode, t, nodes', cur', log, rest, fate);
    if LogKey(sync.fileName, SYNC_DELETE) !in keys {
      RestUntouched(log, keys);
      PassKeeps(md5, mode, t, nodes', cur', log, rest, fate, HostOf(sync.dst), PathOf(sync));
    }
  }

  lemma {:induction false} PassConverges(md5: Digest, mode: Addressing, t: TrackerState, nodes: NodeMap, cur: Log,
                                         log: Log, keys: seq<string>, fate: string -> PostFate)
    requires LogOk(log) && Ahead(log, keys) && AllReady(mode, t, nodes, log, keys, fate)
    ensures var r := RepairPass(md5, mode, t, nodes, cur, log, keys, fate);
      && !r.crashed
      && (forall k :: k in keys && log[k].action == SYNC_ADD ==> k !in r.log)
      && (forall k :: k in keys && log[k].action == SYNC_ADD && LogKey(log[k].fileName, SYNC_DELETE) !in keys ==>
            FileAt(r.nodes, HostOf(log[k].dst), PathOf(log[k])) == FileAt(nodes, HostOf(log[k].src), PathOf(log[k])))
    decreases |keys|
  {
    hide Post, FileAt, PathOf, HostOf, LogKey;
    if keys != [] {
      var sync, rest := log[keys[0]], keys[1..];
      assert forall k :: k in keys <==> k == keys[0] || k in rest;
      if sync.action == SYNC_ADD { HeadConverges(md5, mode, t, nodes, cur, log, keys, fate); }
      if Consider(mode, t, sync) == Skip {
        PassConverges(md5, mode, t, nodes, cur, log, rest, fate);
      } else {
        var (nodes', resp) := Post(md5, nodes, sync, fate(keys[0]));
        StaysReady(md5, mode, t, nodes, log, keys, fate);
        PassConverges(md5, mode, t, nodes', Settle(cur, sync, resp), log, rest, fate);
      }
    }
  }

  lemma RestUntouched(log: Log, keys: seq<string>)
    requires keys != [] && LogOk(log) && Ahead(log, keys) && LogKey(log[keys[0]].fileName, SYNC_DELETE) !in keys
    ensures forall k :: k in keys[1..] ==> PathOf(log[k]) != PathOf(log[keys[0]])
  {
    forall k | k in keys[1..] ensures PathOf(log[k]) != PathOf(log[keys[0]]) {
      var i :| 0 < i < |keys| && keys[i] == k;
      assert Below(keys[0], keys[i]);
      if PathOf(log[k]) == PathOf(log[keys[0]]) { SameFileOrder(log, keys[0], k); }
    }
  }

  // Repair converges: when every ADD entry is ready and no entry crashes the pass, one pass
  // ends with no ADD entry left and nothing else added, and every logged destination whose
  // file has no logged DELETE holds the bytes of the source.
  lemma RepairConverges(md5: Digest, mode: Addressing, t: TrackerState, nodes: NodeMap, log: Log,
                        fate: string -> PostFate)
    requires LogOk(log)
    requires forall k :: k in log ==>
      if log[k].action == SYNC_ADD then Ready(mode, t, nodes, log[k], fate(k)) else Consider(mode, t, log[k]) != Crash
    ensures var r := FullRepair(md5, mode, t, nodes, log, fate);
      && !r.crashed
      && (forall k :: k in r.log ==> k in log && r.log[k] == log[k] && log[k].action == SYNC_DELETE)
      && (forall k :: k in log && log[k].action == SYNC_ADD && LogKey(log[k].fileName, SYNC_DELETE) !in log ==>
            FileAt(r.nodes, HostOf(log[k].dst), PathOf(log[k])) == FileAt(nodes, HostOf(log[k].src), PathOf(log[k])))
  {
    LogKeysListed(log);
    PassConverges(md5, mode, t, nodes, log, log, SortedSeq(log.Keys), fate);
    PassShrinks(md5, mode, t, nodes, log, log, SortedSeq(log.Keys), fate);
  }

  // --- The index after a converging pass ---

  // The hash in the entry is the digest of the file at its source.
  ghost predicate HashTrue(md5: Digest, nodes: NodeMap, e: SyncFileInfo) {
    var file := FileAt(nodes, HostOf(e.src), PathOf(e));
    e.fileHash != "" ==> file.Some? && md5(file.value) == e.fileHash
  }

  ghost predicate Brings(e: SyncFileInfo, d: string, h: string) {
    e.action == SYNC_ADD && HostOf(e.dst) == d && e.fileHash == h
  }

  // The node's index entry for h names the file at p, which is there and has digest h.
  ghost predicate Points(md5: Digest, n: NodeState, h: string, p: string) {
    h in n.index && n.index[h].url == UrlOf(n.conf, p) && p in n.files && md5(n.files[p]) == h
  }

  // Node d's entry for h names a file that some ADD entry of the log brings there.
  ghost predicate IndexedAt(md5: Digest, nodes: NodeMap, log: Log, d: string, h: string) {
    d in nodes && exists k :: k in log && Brings(log[k], d, h) && Points(md5, nodes[d], h, PathOf(log[k]))
  }

  // No DELETE entry for node d carries h or names a file that is brought there with digest h.
  ghost predicate Undisturbed(log: Log, d: string, h: string) {
    forall k :: k in log && log[k].action == SYNC_DELETE && HostOf(log[k].dst) == d ==>
      log[k].fileHash != h && forall j :: j in log && Brings(log[j], d, h) ==> PathOf(log[k]) != PathOf(log[j])
  }

  // A POST to d that neither enters h, nor drops it, nor touches the file at p.
  lemma PointsKept(md5: Digest, n: NodeState, op: NodeOp, h: string, p: string)
    requires Points(md5, n, h, p) && (op.OpAdd? || op.OpDelete?) && op.sync.fileHash != h && PathOf(op.sync) != p
    ensures Points(md5, Apply(md5, n, op), h, p)
  {
    hide PathOf, UrlOf, SyncInfo;
  }

  // Two ADD entries for one file are the same entry.
  lemma SameFileSameEntry(log: Log, k1: string, k2: string)
    requires LogOk(log) && k1 in log && k2 in log && log[k1].action == log[k2].action
    requires PathOf(log[k1]) == PathOf(log[k2])
    ensures k1 == k2
  {
    StoredPathInjective(log[k1].filePath, log[k1].fileName, log[k2].filePath, log[k2].fileName);
  }

  lemma PostKeepsIndexed(md5: Digest, nodes: NodeMap, log: Log, k: string, f: PostFate, d: string, h: string)
    requires LogOk(log) && k in log && Undisturbed(log, d, h) && IndexedAt(md5, nodes, log, d, h)
    requires !Brings(log[k], d, h)
    ensures IndexedAt(md5, Post(md5, nodes, log[k], f).0, log, d, h)
  {
    hide PathOf, HostOf, Points, Apply, OpOf, ReplyOf, KeyOf;
    var j :| j in log && Brings(log[j], d, h) && Points(md5, nodes[d], h, PathOf(log[j]));
    var e := log[k];
    if !f.Unreachable? && HostOf(e.dst) == d {
      if e.action == SYNC_ADD && PathOf(e) == PathOf(log[j]) { SameFileSameEntry(log, k, j); }
      OpIsSync(nodes, e, f.at);
      PointsKept(md5, nodes[d], OpOf(nodes, e, f.at), h, PathOf(log[j]));
    }
  }

  lemma OpIsSync(nodes: NodeMap, e: SyncFileInfo, at: DeliverFate)
    ensures var op := OpOf(nodes, e, at); (op.OpAdd? || op.OpDelete?) && op.sync == e
  {
  }

  lemma PostIndexes(md5: Digest, mode: Addressing, t: TrackerState, nodes: NodeMap, log: Log, k: string,
                    f: PostFate, d: string, h: string)
    requires k in log && Ready(mode, t, nodes, log[k], f) && HashTrue(md5, nodes, log[k]) && Brings(log[k], d, h)
    requires h != ""
    ensures IndexedAt(md5, Post(md5, nodes, log[k], f).0, log, d, h)
  {
    var nodes' := Post(md5, nodes, log[k], f).0;
    assert nodes'[d].conf == nodes[d].conf by { PostFrame(md5, nodes, log[k], f); }
    hide Post, PathOf, HostOf, UrlOf, Consider, UrlSafe;
    ReadyDelivers(md5, mode, t, nodes, log[k], f);
    assert Points(md5, nodes'[d], h, PathOf(log[k]));
  }

  lemma ReadyTries(mode: Addressing, t: TrackerState, nodes: NodeMap, e: SyncFileInfo, f: PostFate)
    requires Ready(mode, t, nodes, e, f)
    ensures Consider(mode, t, e) == Try
  {
  }

  lemma {:induction false} PassIndexes(md5: Digest, mode: Addressing, t: TrackerState, nodes: NodeMap, cur: Log,
                                       log: Log,
                                       keys: seq<string>, fate: string -> PostFate, d: string, h: string)
    requires LogOk(log) && Ahead(log, keys) && AllReady(mode, t, nodes, log, keys, fate)
    requires forall k :: k in keys && log[k].action == SYNC_ADD ==> HashTrue(md5, nodes, log[k])
    requires Undisturbed(log, d, h) && h != ""
    requires IndexedAt(md5, nodes, log, d, h) || exists k :: k in keys && Brings(log[k], d, h)
    ensures IndexedAt(md5, RepairPass(md5, mode, t, nodes, cur, log, keys, fate).nodes, log, d, h)
    decreases |keys|
  {
    hide Post, PathOf, HostOf, KeyOf, LogOk, Ready, Undisturbed, IndexedAt, Consider, FileAt;
    if keys != [] {
      var e, rest := log[keys[0]], keys[1..];
      assert forall k :: k in keys <==> k == keys[0] || k in rest;
      if e.action == SYNC_ADD { ReadyTries(mode, t, nodes, e, fate(keys[0])); }
      if Consider(mode, t, e) == Skip {
        PassIndexes(md5, mode, t, nodes, cur, log, rest, fate, d, h);
      } else {
        var (nodes', resp) := Post(md5, nodes, e, fate(keys[0]));
        StaysReady(md5, mode, t, nodes, log, keys, fate);
        if Brings(e, d, h) {
          PostIndexes(md5, mode, t, nodes, log, keys[0], fate(keys[0]), d, h);
        } else if IndexedAt(md5, nodes, log, d, h) {
          PostKeepsIndexed(md5, nodes, log, keys[0], fate(keys[0]), d, h);
        }
        PassIndexes(md5, mode, t, nodes', Settle(cur, e, resp), log, rest, fate, d, h);
      }
    }
  }

  // A converging pass also leaves at every logged destination an index entry for the logged
  // digest that names a file which is there with that digest, unless a DELETE entry disturbs it.
  lemma RepairIndexes(md5: Digest, mode: Addressing, t: TrackerState, nodes: NodeMap, log: Log,
                      fate: string -> PostFate)
    requires LogOk(log)
    requires forall j :: j in log ==>
      if log[j].action == SYNC_ADD then Ready(mode, t, nodes, log[j], fate(j)) else Consider(mode, t, log[j]) != Crash
    requires forall j :: j in log && log[j].action == SYNC_ADD ==> HashTrue(md5, nodes, log[j])
    ensures var r := FullRepair(md5, mode, t, nodes, log, fate);
      forall k :: k in log && log[k].action == SYNC_ADD && log[k].fileHash != ""
                  && Undisturbed(log, HostOf(log[k].dst), log[k].fileHash) ==>
        IndexedAt(md5, r.nodes, log, HostOf(log[k].dst), log[k].fileHash)
  {
    hide RepairPass, IndexedAt, Ready, Consider, HashTrue, Undisturbed, LogOk, HostOf, SortedSeq;
    LogKeysListed(log);
    var r := FullRepair(md5, mode, t, nodes, log, fate);
    forall k | k in log && log[k].action == SYNC_ADD && log[k].fileHash != ""
               && Undisturbed(log, HostOf(log[k].dst), log[k].fileHash)
      ensures IndexedAt(md5, r.nodes, log, HostOf(log[k].dst), log[k].fileHash)
    {
      PassIndexes(md5, mode, t, nodes, log, log, SortedSeq(log.Keys), fate, HostOf(log[k].dst), log[k].fileHash);
    }
  }

  // --- What a pass cannot do, and the order of ADD and DELETE ---

  // The source of the entry serves an empty file.
  ghost predicate ServesEmpty(nodes: NodeMap, sync: SyncFileInfo) {
    var s := HostOf(sync.src);
    && s in nodes && UrlSafe(sync.group) && UrlSafe(PathOf(sync)) && sync.group == nodes[s].conf.group
    && FileAt(nodes, s, PathOf(sync)) == Some([])
  }

  // An entry for an empty file stays in the log, whatever the modes and fates of the pass, as
  // long as no entry of the log rewrites the file at its source.
  lemma EmptyFileStaysLogged(md5: Digest, mode: Addressing, t: TrackerState, nodes: NodeMap, log: Log,
                             fate: string -> PostFate, k: string)
    requires LogOk(log) && k in log && log[k].action == SYNC_ADD
    requires ServesEmpty(nodes, log[k])
    requires forall j :: j in log ==> !Targets(log[j], HostOf(log[k].src), PathOf(log[k]))
    ensures k in FullRepair(md5, mode, t, nodes, log, fate).log
  {
    LogKeysListed(log);
    EmptyStays(md5, mode, t, nodes, log, log, SortedSeq(log.Keys), fate, k);
  }

  lemma EmptyNotAcked(md5: Digest, nodes: NodeMap, sync: SyncFileInfo, at: DeliverFate)
    requires sync.action == SYNC_ADD && ServesEmpty(nodes, sync)
    ensures Deliver(md5, nodes, sync, at).1 != Some(SUCCESS)
  {
    hide Fetch, PathOf, UrlSafe;
    SafeFetch(nodes, sync, at.odd);
    if HostOf(sync.dst) in nodes { AddSucceedsIff(md5, nodes, sync, at); }
  }

  lemma {:induction false} EmptyStays(md5: Digest, mode: Addressing, t: TrackerState, nodes: NodeMap, cur: Log,
                                      log: Log,
                                      keys: seq<string>, fate: string -> PostFate, k: string)
    requires LogOk(log) && Ahead(log, keys) && k in cur && k in log && log[k].action == SYNC_ADD
    requires ServesEmpty(nodes, log[k])
    requires forall j :: j in log ==> !Targets(log[j], HostOf(log[k].src), PathOf(log[k]))
    ensures k in RepairPass(md5, mode, t, nodes, cur, log, keys, fate).log
  {
    hide Deliver, Consider, PathOf, HostOf, UrlSafe, FileAt, Targets, KeyOf;
    if keys != [] {
      var sync, rest := log[keys[0]], keys[1..];
      match Consider(mode, t, sync) {
        case Skip => EmptyStays(md5, mode, t, nodes, cur, log, rest, fate, k);
        case Crash =>
        case Try =>
          var f := fate(keys[0]);
          var (nodes', resp) := Post(md5, nodes, sync, f);
          PostFrame(md5, nodes, sync, f);
          if keys[0] == k && f.Answered? { EmptyNotAcked(md5, nodes, sync, f.at); }
          EmptyStays(md5, mode, t, nodes', Settle(cur, sync, resp), log, rest, fate, k);
      }
    }
  }

  // When a pass that does not crash gets a DELETE acknowledged, its destination ends without
  // the file, even if an ADD of the same file was logged too.
  lemma DeleteWinsPass(md5: Digest, mode: Addressing, t: TrackerState, nodes: NodeMap, log: Log,
                       fate: string -> PostFate, k: string)
    requires LogOk(log) && k in log && log[k].action == SYNC_DELETE && HostOf(log[k].dst) in nodes
    requires forall j :: j in log ==> Consider(mode, t, log[j]) != Crash
    requires Consider(mode, t, log[k]) == Try && fate(k).Answered? && fate(k).at.removeWorks
    ensures FileAt(FullRepair(md5, mode, t, nodes, log, fate).nodes, HostOf(log[k].dst), PathOf(log[k])) == None
  {
    LogKeysListed(log);
    DeleteWins(md5, mode, t, nodes, log, log, SortedSeq(log.Keys), fate, k);
  }

  lemma {:induction false} DeleteWins(md5: Digest, mode: Addressing, t: TrackerState, nodes: NodeMap, cur: Log,
                                      log: Log,
                                      keys: seq<string>, fate: string -> PostFate, k: string)
    requires LogOk(log) && Ahead(log, keys) && k in keys && log[k].action == SYNC_DELETE && HostOf(log[k].dst) in nodes
    requires forall j :: j in log ==> Consider(mode, t, log[j]) != Crash
    requires Consider(mode, t, log[k]) == Try && fate(k).Answered? && fate(k).at.removeWorks
    ensures var r := RepairPass(md5, mode, t, nodes, cur, log, keys, fate);
      FileAt(r.nodes, HostOf(log[k].dst), PathOf(log[k])) == None
  {
    hide Consider, PathOf, HostOf;
    var sync, rest := log[keys[0]], keys[1..];
    var f := fate(keys[0]);
    PostFrame(md5, nodes, sync, f);
    if keys[0] != k {
      assert k in rest;
      if Consider(mode, t, sync) == Skip {
        DeleteWins(md5, mode, t, nodes, cur, log, rest, fate, k);
      } else {
        var (nodes', resp) := Post(md5, nodes, sync, f);
        DeleteWins(md5, mode, t, nodes', Settle(cur, sync, resp), log, rest, fate, k);
      }
    } else {
      var (nodes', resp) := Post(md5, nodes, sync, f);
      forall j | j in rest ensures PathOf(log[j]) != PathOf(sync) {
        var i :| 0 < i < |keys| && keys[i] == j;
        assert Below(keys[0], keys[i]);
        if PathOf(log[j]) == PathOf(sync) { SameFileOrder(log, k, j); }
      }
      PassKeeps(md5, mode, t, nodes', Settle(cur, sync, resp), log, rest, fate, HostOf(sync.dst), PathOf(sync));
    }
  }
}
