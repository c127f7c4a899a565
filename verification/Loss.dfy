// Where the accounting per destination stops being exact: an upload with two destinations.
module Loss {
  import opened Lib
  import opened Order
  import opened Names
  import opened Membership
  import opened Routing
  import opened Nodes
  import opened Replication
  import opened Protocol
  import opened ProtocolInv
  import opened Conservation

  // Every logged sync of the upload at p is accounted for by itself.
  ghost predicate AllExact(c: Cluster, p: string) {
    p in c.uploads ==> forall i: nat :: LoggedSync(c, p, i) ==> Exact(c, c.tasks[i].info)
  }

  // The tracker is about to handle the answer for the upload stored under p.
  ghost predicate AboutToFan(c: Cluster, j: nat, p: string) {
    Answerable(c, j) && StoredBy(c.uploads, c.flights[j], p)
  }

  // How many storages the upload's group has.
  ghost function GroupSize(c: Cluster, j: nat): nat
    requires Answerable(c, j)
  {
    |c.tracker[c.flights[j].group].storages.Keys|
  }

  lemma FreshNotLogged(md5: Digest, c: Cluster, c1: Cluster, p: string)
    requires Inv(md5, c) && Inv(md5, c1) && p in c1.uploads && p in c.uploads && c.uploads[p].fan.None?
    requires c1.logged == c.logged
    ensures forall m :: m in c1.uploads[p].Msgs() ==> m !in c1.logged
    ensures forall m, n :: m in c1.uploads[p].Msgs() && n in c1.uploads[p].Msgs() ==> KeyOf(m) == KeyOf(n)
  {
    hide TargetPath, GenFileName, GenFilePath, Decimal, PathsOk, TasksOk, RegistryOk, FlightsOk, HostOf, LogKey,
      PathOf;
    var msgs := c1.uploads[p].Msgs();
    forall x | x in msgs ensures x !in c1.logged {
      MsgAtPath(md5, c1, p, x);
    }
    assert RecordOk(md5, c1.nodes, c1.ids, p, c1.uploads[p]);
    forall x, y | x in msgs && y in msgs ensures KeyOf(x) == KeyOf(y) {
      assert MsgOk(c1.nodes, c1.uploads[p], x) && MsgOk(c1.nodes, c1.uploads[p], y);
    }
  }

  lemma RegisteredAddressed(c: Cluster, group: string)
    requires RegistryOk(c.nodes, c.tracker) && NodesOk(c) && group in c.tracker
    ensures Addressed(c.tracker[group].storages)
  {
    var m := c.tracker[group].storages;
    forall b | b in m ensures m[b].addr == b && ':' !in m[b].schema { assert SlotOk(c.nodes, group, b, m[b]); }
  }

  lemma FanCount(c: Cluster, j: nat, p: string)
    requires RegistryOk(c.nodes, c.tracker) && NodesOk(c) && AboutToFan(c, j, p)
    ensures var f := c.flights[j]; var m := c.tracker[f.group].storages;
      var msgs := FanOut(m, AddTo(m[f.a], f.reply.value.info, f.reply.value.filePath, f.reply.value.fileName, f.group));
      |msgs| == GroupSize(c, j) - 1 && DistinctHosts(msgs)
  {
    hide FanOut, StoredPath, GenFilePath, GenFileName, DistinctHosts;
    var f := c.flights[j];
    RegisteredAddressed(c, f.group);
    FanOutSize(c.tracker[f.group].storages, f.a, f.reply.value.info, f.reply.value.filePath, f.reply.value.fileName,
               f.group);
  }

  // The first syncs of p's fan-out are the tasks from n on, one per message and to different
  // nodes, and no other task carries one of the messages.
  ghost predicate FannedAt(c: Cluster, p: string, n: nat) {
    && p in c.uploads && |c.tasks| == n + |c.uploads[p].Msgs()| && DistinctHosts(c.uploads[p].Msgs())
    && (forall k :: 0 <= k < |c.uploads[p].Msgs()| ==> c.tasks[n + k] == Fresh(c.uploads[p].Msgs()[k]))
    && (forall i :: 0 <= i < n ==> c.tasks[i].info !in c.uploads[p].Msgs())
  }

  lemma FannedOnce(md5: Digest, c: Cluster, c1: Cluster, p: string)
    requires TasksOk(c) && UploadsOk(md5, c1) && p in c.uploads && c.uploads[p].fan.None? && p in c1.uploads
    requires c1.tasks == c.tasks + Started(c1.uploads[p].Msgs()) && DistinctHosts(c1.uploads[p].Msgs())
    ensures FannedAt(c1, p, |c.tasks|)
  {
    hide UploadsOk, DistinctHosts, PathOf, HostOf, Started;
    var msgs := c1.uploads[p].Msgs();
    StartedAt(msgs);
    forall i | 0 <= i < |c.tasks| ensures c1.tasks[i].info !in msgs {
      assert TaskOk(c, c.tasks[i]);
      if c.tasks[i].info in msgs { MsgAtPath(md5, c1, p, c.tasks[i].info); }
    }
  }

  lemma Apart(c: Cluster, p: string, n: nat, i: nat, k: nat)
    requires FannedAt(c, p, n) && i < k < |c.uploads[p].Msgs()|
    ensures c.uploads[p].Msgs()[i] != c.uploads[p].Msgs()[k]
    ensures HostOf(c.uploads[p].Msgs()[i].dst) != HostOf(c.uploads[p].Msgs()[k].dst)
  {
    hide HostOf;
  }

  // The messages of a fresh fan-out: not logged yet, one key, one per other storage.
  lemma FreshMessages(md5: Digest, c: Cluster, j: nat, p: string)
    requires Inv(md5, c) && AboutToFan(c, j, p)
    ensures var c1 := DoAnswer(c, j);
      FannedAt(c1, p, |c.tasks|) && c1.uploads[p].fan.Some? && var msgs := c1.uploads[p].Msgs();
      && |msgs| == GroupSize(c, j) - 1
      && (forall m :: m in msgs ==> m !in c1.logged)
      && (forall m, n :: m in msgs && n in msgs ==> KeyOf(m) == KeyOf(n))
      && c1.tasks[..|c.tasks|] == c.tasks && p in c.uploads && c.uploads[p].fan.None?
      && c1.uploads[p] == c.uploads[p].(fan := c1.uploads[p].fan)
      && c1 == c.(flights := c1.flights, tasks := c1.tasks, uploads := c.uploads[p := c1.uploads[p]])
  {
    hide DoAnswer, FanOut, Started, StoredBy, KeyOf, PathsOk, TasksOk, LogsOk, UploadsOk, FlightsOk, StoredPath,
      NodesOk, RegistryOk, DistinctHosts, FannedAt;
    var c1, f := DoAnswer(c, j), c.flights[j];
    AnswerParts(c, j, p);
    AnswerInv(md5, c, j);
    FanCount(c, j, p);
    StoredThere(c, j, p);
    FreshNotLogged(md5, c, c1, p);
    FannedOnce(md5, c, c1, p);
    assert |c1.tasks| >= |c.tasks| && c1.tasks[..|c.tasks|] == c.tasks;
  }

  lemma StoredThere(c: Cluster, j: nat, p: string)
    requires AboutToFan(c, j, p)
    ensures p in c.uploads && c.uploads[p].fan.None?
  {
    hide StoredPath, GenFilePath, GenFileName;
  }

  // --- A sync that fails ---

  // A delivery whose directory cannot be made.
  const NO_DIR := DeliverFate(MkdirFails, true, None)

  // An attempt without any effect: a usable destination refuses it, an unusable one is skipped.
  function FailSteps(c: Cluster, i: nat): seq<Step>
    requires i < |c.tasks|
  {
    if Usable(c, c.tasks[i]) then [Send(i), DeliverTask(i, NO_DIR), Answer(i)] else [SkipUnusable(i)]
  }

  function FailedTask(c: Cluster, t: Task): Task {
    t.(phase := Logged, wire := if Usable(c, t) then Delivered(Some(DIR_CREATE_FAIL)) else t.wire)
  }

  // Its sync is logged, over any entry of the same key, and no request is left travelling.
  lemma FailLogs(md5: Digest, c: Cluster, i: nat)
    requires IsPending(c, i) && c.tasks[i].info.action == SYNC_ADD && HostOf(c.tasks[i].info.dst) in c.nodes
    ensures var t := c.tasks[i];
      After(md5, c, FailSteps(c, i)) == PutLog(SetTask(c, i, FailedTask(c, t)), t.info)
  {
    hide KeyOf, Usable, After, Next, HostOf;
    var steps := FailSteps(c, i);
    AfterUpToThree(md5, c, steps[0], if |steps| > 1 then steps[1] else steps[0],
                   if |steps| > 2 then steps[2] else steps[0]);
    if Usable(c, c.tasks[i]) { SentAndRefused(md5, c, i); } else { Skipped(md5, c, i); }
  }

  lemma SentAndRefused(md5: Digest, c: Cluster, i: nat)
    requires IsPending(c, i) && Usable(c, c.tasks[i])
    requires c.tasks[i].info.action == SYNC_ADD && HostOf(c.tasks[i].info.dst) in c.nodes
    ensures Next(md5, Next(md5, Next(md5, c, Send(i)), DeliverTask(i, NO_DIR)), Answer(i))
         == PutLog(SetTask(c, i, c.tasks[i].(phase := Logged, wire := Delivered(Some(DIR_CREATE_FAIL)))),
                   c.tasks[i].info)
  {
    hide KeyOf, Usable, HostOf, DoDeliver;
    var t := c.tasks[i];
    var c1 := Next(md5, c, Send(i));
    assert c1 == SetTask(c, i, t.(phase := Waiting, wire := Travelling));
    Refused(md5, c1, i);
    var c2 := Next(md5, c1, DeliverTask(i, NO_DIR));
    var done := t.(phase := Logged, wire := Delivered(Some(DIR_CREATE_FAIL)));
    assert c2.tasks[i := c2.tasks[i].(phase := Logged)] == c.tasks[i := done];
  }

  lemma Refused(md5: Digest, c: Cluster, i: nat)
    requires i < |c.tasks| && c.tasks[i].info.action == SYNC_ADD && HostOf(c.tasks[i].info.dst) in c.nodes
    ensures DoDeliver(md5, c, i, NO_DIR) == SetTask(c, i, c.tasks[i].(wire := Delivered(Some(DIR_CREATE_FAIL))))
  {
    hide HostOf, PathOf, Fetch;
    var d := HostOf(c.tasks[i].info.dst);
    assert c.nodes[d := c.nodes[d]] == c.nodes;
  }

  lemma Skipped(md5: Digest, c: Cluster, i: nat)
    requires IsPending(c, i) && !Usable(c, c.tasks[i])
    ensures Next(md5, c, SkipUnusable(i)) == PutLog(SetTask(c, i, c.tasks[i].(phase := Logged)), c.tasks[i].info)
  {
    hide KeyOf, Usable;
  }

  // An ADD to a node of the cluster.
  predicate Postable(c: Cluster, i: nat) {
    i < |c.tasks| && c.tasks[i].info.action == SYNC_ADD && HostOf(c.tasks[i].info.dst) in c.nodes
  }

  function TwoFails(c: Cluster, n: nat): seq<Step>
    requires n + 1 < |c.tasks|
  {
    FailSteps(c, n) + FailSteps(c, n + 1)
  }

  lemma TwoFailsLog(md5: Digest, c: Cluster, n: nat)
    requires IsPending(c, n) && IsPending(c, n + 1) && Postable(c, n) && Postable(c, n + 1)
    ensures var c' := After(md5, c, TwoFails(c, n)); var m0, m1 := c.tasks[n].info, c.tasks[n + 1].info;
      && |c'.tasks| == |c.tasks| && c'.tasks[n] == FailedTask(c, c.tasks[n])
      && (forall i :: 0 <= i < |c.tasks| ==>
           c'.tasks[i].info == c.tasks[i].info && c'.tasks[i].repair == c.tasks[i].repair)
      && c' == c.(tasks := c'.tasks, log := c.log[KeyOf(m0) := m0][KeyOf(m1) := m1], logged := c.logged + {m0} + {m1})
  {
    hide KeyOf, Usable, After, Next, FailSteps, HostOf;
    FailLogs(md5, c, n);
    var c1 := After(md5, c, FailSteps(c, n));
    assert FailSteps(c1, n + 1) == FailSteps(c, n + 1) by { SameSteps(c, c1, n + 1); }
    FailLogs(md5, c1, n + 1);
    AfterConcat(md5, c, FailSteps(c, n), FailSteps(c, n + 1));
  }

  lemma SameSteps(c: Cluster, c1: Cluster, i: nat)
    requires i < |c.tasks| && i < |c1.tasks| && c1.tasks[i] == c.tasks[i] && c1.tracker == c.tracker
    ensures FailSteps(c1, i) == FailSteps(c, i)
  {
  }

  // Two failed destinations share one log entry: the first one's sync is left without any.
  lemma TwoFailsInexact(md5: Digest, c1: Cluster, p: string, n: nat)
    requires LogsOk(c1) && FannedAt(c1, p, n) && |c1.uploads[p].Msgs()| >= 2 && c1.uploads[p].Msgs()[0] !in c1.logged
    requires KeyOf(c1.uploads[p].Msgs()[0]) == KeyOf(c1.uploads[p].Msgs()[1]) && Postable(c1, n) && Postable(c1, n + 1)
    ensures !AllExact(After(md5, c1, TwoFails(c1, n)), p)
  {
    hide KeyOf, SyncOk, Next, After, TwoFails, DistinctHosts;
    var msgs := c1.uploads[p].Msgs();
    assert c1.tasks[n + 0].info == msgs[0] && c1.tasks[n + 1].info == msgs[1];
    Apart(c1, p, n, 0, 1);
    TwoFailsLog(md5, c1, n);
    var c3 := After(md5, c1, TwoFails(c1, n));
    assert LoggedSync(c3, p, n) && !Exact(c3, c3.tasks[n].info);
  }

  // --- When the account per destination is exact ---

  // The log accounts for every destination of an upload on its own, whatever happens later, if
  // and only if the group had at most two storages when the fan-out started.
  lemma ExactIffTwoStorages(md5: Digest, c0: Cluster, steps: seq<Step>, j: nat, p: string)
    requires Init(c0) && AboutToFan(After(md5, c0, steps), j, p)
    ensures var c := After(md5, c0, steps);
      (forall more :: AllExact(After(md5, DoAnswer(c, j), more), p)) <==> GroupSize(c, j) <= 2
  {
    hide Next, DoAnswer, AllExact, Inv, StoredBy, After, FannedAt, KeyOf;
    var c := After(md5, c0, steps);
    var c1 := DoAnswer(c, j);
    RunInv(md5, c0, steps);
    FreshMessages(md5, c, j, p);
    AnswerIsNext(md5, c, j);
    if GroupSize(c, j) > 2 {
      AnswerInv(md5, c, j);
      FreshInexact(md5, c1, p, |c.tasks|);
    } else {
      AfterAppend(md5, c0, steps, AnswerUpload(j));
      forall more ensures AllExact(After(md5, c1, more), p) {
        SingleAlwaysExact(md5, c0, steps + [AnswerUpload(j)], more, p);
      }
    }
  }

  lemma AnswerIsNext(md5: Digest, c: Cluster, j: nat)
    requires Answerable(c, j)
    ensures Next(md5, c, AnswerUpload(j)) == DoAnswer(c, j)
  {
    hide DoAnswer;
  }

  // The syncs of a fresh fan-out can be posted.
  lemma FreshPostable(md5: Digest, c: Cluster, p: string, n: nat, k: nat)
    requires UploadsOk(md5, c) && FannedAt(c, p, n) && k < |c.uploads[p].Msgs()|
    ensures Postable(c, n + k) && IsPending(c, n + k) && c.tasks[n + k] == Fresh(c.uploads[p].Msgs()[k])
  {
    hide PathOf, HostOf, DistinctHosts, NameId;
    var m := c.uploads[p].Msgs()[k];
    assert m in c.uploads[p].Msgs() && c.tasks[n + k] == Fresh(m);
    assert RecordOk(md5, c.nodes, c.ids, p, c.uploads[p]) && MsgOk(c.nodes, c.uploads[p], m);
  }

  lemma FreshInexact(md5: Digest, c1: Cluster, p: string, n: nat)
    requires Inv(md5, c1) && FannedAt(c1, p, n) && |c1.uploads[p].Msgs()| >= 2
    requires c1.uploads[p].Msgs()[0] !in c1.logged
    requires KeyOf(c1.uploads[p].Msgs()[0]) == KeyOf(c1.uploads[p].Msgs()[1])
    ensures !AllExact(After(md5, c1, TwoFails(c1, n)), p)
  {
    hide AllExact, KeyOf, NodesOk, RegistryOk, UploadsOk, PathsOk, TasksOk, LogsOk, FlightsOk, Postable, TwoFails,
      FannedAt;
    FreshPostable(md5, c1, p, n, 0);
    FreshPostable(md5, c1, p, n, 1);
    TwoFailsInexact(md5, c1, p, n);
  }

  lemma SingleAlwaysExact(md5: Digest, c0: Cluster, steps: seq<Step>, more: seq<Step>, p: string)
    requires Init(c0) && p in After(md5, c0, steps).uploads && After(md5, c0, steps).uploads[p].fan.Some?
    requires |After(md5, c0, steps).uploads[p].Msgs()| <= 1
    ensures AllExact(After(md5, After(md5, c0, steps), more), p)
  {
    hide Exact, Inv;
    var c1 := After(md5, c0, steps);
    RunInv(md5, c0, steps);
    RunGrows(md5, c1, more);
    AfterConcat(md5, c0, steps, more);
    var c2 := After(md5, c0, steps + more);
    forall i: nat | LoggedSync(c2, p, i) ensures Exact(c2, c2.tasks[i].info) {
      SingleDestinationExact(md5, c0, steps + more, p, i);
    }
  }
}
