// How long the log accounts for a logged message by itself: until another message with its file
// name and action is logged, unless its own repair is acknowledged first.
module Accounts {
  import opened Lib
  import opened Names
  import opened Membership
  import opened Nodes
  import opened Replication
  import opened Repairs
  import opened Routing
  import opened Protocol
  import opened ProtocolInv
  import opened Conservation
  import opened Loss
  import opened LogRuns
  import opened Reachable

  // The state after the first k steps.
  ghost function At(md5: Digest, c: Cluster, steps: seq<Step>, k: nat): Cluster
    requires k <= |steps|
  {
    After(md5, c, steps[..k])
  }

  // A step logs nothing, or is the failure of one sync.
  lemma LoggedBy(md5: Digest, c: Cluster, s: Step)
    ensures var c' := Next(md5, c, s);
      || c'.logged == c.logged
      || exists i: nat :: i < |c.tasks| && !c.tasks[i].repair && c' == Fail(c, i)
  {
    hide Upload, FanOut, Started, Deliver, ReportStep, AbortStep, Collect, KeyOf, Decimal, Damage, OpOf,
      StoredPath, Routed, Usable, Consider, HostOf, AddrOf;
    if Enabled(c, s) {
      match s {
        case SkipUnusable(i) =>
        case Answer(i) =>
        case GiveUp(i) =>
        case _ =>
      }
    }
  }

  // The log entry under m's key is another message's.
  ghost predicate Taken(c: Cluster, m: SyncFileInfo) {
    KeyOf(m) in c.log && c.log[KeyOf(m)] != m
  }

  // The step that logs another message of m's file name and action takes its log entry over.
  lemma TakenOver(md5: Digest, c: Cluster, s: Step, m: SyncFileInfo)
    requires Unrivalled(c, m) && !Unrivalled(Next(md5, c, s), m)
    ensures Taken(Next(md5, c, s), m)
  {
    hide Next;
    LoggedBy(md5, c, s);
  }

  // A run in which another such message is logged has a moment at which that has happened.
  lemma {:induction false} TakenOverAt(md5: Digest, c: Cluster, steps: seq<Step>, m: SyncFileInfo)
    requires Unrivalled(c, m) && !Unrivalled(After(md5, c, steps), m)
    ensures exists k: nat :: k <= |steps| && Taken(At(md5, c, steps, k), m)
  {
    hide Next, KeyOf, Unrivalled;
    var n := |steps| - 1;
    var pre := steps[..n];
    if Unrivalled(After(md5, c, pre), m) {
      TakenOver(md5, After(md5, c, pre), steps[n], m);
      assert steps[..|steps|] == steps;
      assert At(md5, c, steps, |steps|) == After(md5, c, steps);
    } else {
      TakenOverAt(md5, c, pre, m);
      var k: nat :| k <= |pre| && Taken(At(md5, c, pre, k), m);
      assert pre[..k] == steps[..k];
      assert At(md5, c, steps, k) == At(md5, c, pre, k);
    }
  }

  // A logged message without a rival is accounted for by itself throughout a run if
  // and only if no other message with its file name and action is logged before its own repair
  // is acknowledged.
  lemma ExactIffUnrivalled(md5: Digest, c0: Cluster, steps: seq<Step>, more: seq<Step>, m: SyncFileInfo)
    requires Init(c0)
    requires var c := After(md5, c0, steps); m in c.logged && Unrivalled(c, m)
    ensures var c := After(md5, c0, steps);
      (forall k: nat :: k <= |more| ==> Exact(At(md5, c, more, k), m))
      <==> (forall k: nat :: k <= |more| ==> Unrivalled(At(md5, c, more, k), m) || m in At(md5, c, more, k).repaired)
  {
    hide Inv, Next, KeyOf, Unrivalled, Exact, After;
    var c := After(md5, c0, steps);
    RunInv(md5, c0, steps);
    if forall k: nat :: k <= |more| ==> Exact(At(md5, c, more, k), m) {
      forall k: nat | k <= |more| && !Unrivalled(At(md5, c, more, k), m) ensures m in At(md5, c, more, k).repaired {
        ExactBefore(md5, c, more, k, m);
      }
    }
    if forall k: nat :: k <= |more| ==> Unrivalled(At(md5, c, more, k), m) || m in At(md5, c, more, k).repaired {
      forall k: nat | k <= |more| ensures Exact(At(md5, c, more, k), m) {
        AfterConcat(md5, c0, steps, more[..k]);
        RunGrows(md5, c, more[..k]);
        if m in At(md5, c, more, k).repaired {
          RepairedExact(md5, c0, steps + more[..k], m);
        } else {
          UnrivalledExact(md5, c0, steps + more[..k], m);
        }
      }
    }
  }

  // If m is accounted for at every moment until a rival is logged, its repair was acknowledged.
  lemma ExactBefore(md5: Digest, c: Cluster, more: seq<Step>, n: nat, m: SyncFileInfo)
    requires Inv(md5, c) && Unrivalled(c, m) && n <= |more| && !Unrivalled(At(md5, c, more, n), m)
    requires forall k: nat :: k <= |more| ==> Exact(At(md5, c, more, k), m)
    ensures m in At(md5, c, more, n).repaired
  {
    hide Inv, Next, KeyOf, Unrivalled, After;
    TakenOverAt(md5, c, more[..n], m);
    var k: nat :| k <= n && Taken(At(md5, c, more[..n], k), m);
    assert more[..n][..k] == more[..k];
    assert Exact(At(md5, c, more, k), m);
    RunGrows(md5, c, more[..k]);
    RunGrows(md5, At(md5, c, more, k), more[k..n]);
    AfterConcat(md5, c, more[..k], more[k..n]);
    assert more[..k] + more[k..n] == more[..n];
  }

  lemma RepairedExact(md5: Digest, c0: Cluster, steps: seq<Step>, m: SyncFileInfo)
    requires Init(c0) && m in After(md5, c0, steps).repaired
    ensures Exact(After(md5, c0, steps), m)
  {
    hide After, KeyOf;
    RunConserved(md5, c0, steps);
  }

  // --- No logged delete is safe for good before its repair ---

  // A storage reports, the file is deleted again with another digest, and that sync is sent and
  // given up.
  function DeleteAgainRun(a: string, g: string, hash: string, p: string, i: nat, t: int): seq<Step> {
    [Fit(a, t), DeleteFile(g, "", hash, p)] + [Send(i), GiveUp(i)]
  }

  lemma LoggedParses(c: Cluster, m: SyncFileInfo)
    requires LogsOk(c) && m in c.logged
    ensures '/' !in m.fileName && ParseHeaderFilePath(PathOf(m)).Some?
  {
    hide ParseHeaderFilePath;
    assert SyncOk(c.uploads, c.deletes, m);
    ParseRoundTrip(m.filePath, m.fileName);
  }

  lemma TaskName(c: Cluster, i: nat)
    requires TasksOk(c) && i < |c.tasks|
    ensures '/' !in c.tasks[i].info.fileName
  {
    assert TaskOk(c, c.tasks[i]);
  }

  lemma GivenUpLogs(md5: Digest, c: Cluster, i: nat)
    requires IsWaiting(c, i) && !c.tasks[i].repair
    ensures Next(md5, c, GiveUp(i)) == PutLog(SetTask(c, i, c.tasks[i].(phase := Logged)), c.tasks[i].info)
  {
    hide KeyOf;
  }

  lemma DeletedAgain(md5: Digest, c: Cluster, m: SyncFileInfo, g: string, a: string, t: int) returns (run: seq<Step>)
    requires Inv(md5, c) && m in c.logged && m.action == SYNC_DELETE && Reports(c.nodes, g, a)
    ensures Taken(After(md5, c, run), m) && After(md5, c, run).repaired == c.repaired
  {
    hide NodesOk, RegistryOk, UploadsOk, PathsOk, TasksOk, LogsOk, FlightsOk, Next, After, HostOf, LogKey,
      ParseHeaderFilePath, Reports, ActiveAt, DoDelete;
    var p, hash := PathOf(m), m.fileHash + "0";
    LoggedParses(c, m);
    var s1, s2 := Fit(a, t), DeleteFile(g, "", hash, p);
    FitActivates(md5, c, g, a, t);
    NextInv(md5, c, s1);
    var c1 := Next(md5, c, s1);
    var i := DeleteTask(md5, c1, p, g, a, hash, t);
    DeleteNow(md5, c1, g, hash, p, a, t);
    var c2 := Next(md5, c1, s2);
    NextInv(md5, c1, s2);
    SameActive(c1, c2, g, a, t);
    var x := c2.tasks[i].info;
    SentNow(md5, c2, i, g, a, t);
    var c3 := Next(md5, c2, Send(i));
    GivenUpLogs(md5, c3, i);
    TaskName(c2, i);
    StoredPathInjective(x.filePath, x.fileName, m.filePath, m.fileName);
    AfterUpToThree(md5, c, s1, s2, s2);
    AfterUpToThree(md5, c2, Send(i), GiveUp(i), GiveUp(i));
    AfterConcat(md5, c, [s1, s2], [Send(i), GiveUp(i)]);
    run := DeleteAgainRun(a, g, hash, p, i, t);
  }

  // No node's reports are accepted, and nothing has happened but removals on nodes.
  ghost predicate Silent(c: Cluster) {
    && (forall g, a :: !Reports(c.nodes, g, a))
    && c.tracker.Keys == {} && c.tasks == [] && c.flights == [] && c.logged == {}
  }

  lemma StaysSilent(md5: Digest, c: Cluster, s: Step)
    requires Silent(c)
    ensures Silent(Next(md5, c, s))
  {
    hide JoinHostPort, ReportStep, HostOf, Consider, Usable, Decimal, ParseHeaderFilePath;
    var c' := Next(md5, c, s);
    if Enabled(c, s) {
      match s {
        case Report(a, free, time, now) => assert !Reports(c.nodes, c.nodes[a].conf.group, a);
        case CollectTrash(a, path) =>
          forall g, b ensures !Reports(c'.nodes, g, b) { assert !Reports(c.nodes, g, b); }
        case _ =>
      }
    }
  }

  lemma {:induction false} RunSilent(md5: Digest, c0: Cluster, steps: seq<Step>)
    requires Silent(c0)
    ensures Silent(After(md5, c0, steps))
  {
    hide Next, Silent;
    if steps != [] {
      RunSilent(md5, c0, steps[..|steps| - 1]);
      StaysSilent(md5, After(md5, c0, steps[..|steps| - 1]), steps[|steps| - 1]);
    }
  }

  lemma SomeReports(md5: Digest, c0: Cluster, steps: seq<Step>)
    requires Init(c0) && After(md5, c0, steps).logged != {}
    ensures exists g, a :: Reports(After(md5, c0, steps).nodes, g, a)
  {
    hide After, Reports, Inv, ConfOk;
    if !exists g, a :: Reports(c0.nodes, g, a) { RunSilent(md5, c0, steps); }
    InitInv(md5, c0);
    RunGrows(md5, c0, steps);
    var g, a :| Reports(c0.nodes, g, a);
    StillReports(c0.nodes, After(md5, c0, steps).nodes, g, a);
  }

  lemma StillReports(nodes: NodeMap, nodes': NodeMap, g: string, a: string)
    requires Reports(nodes, g, a) && SameNodes(nodes, nodes')
    ensures Reports(nodes', g, a)
  {
  }

  // In every reachable state, a logged delete is accounted for by itself in all later runs if and
  // only if its repair has been acknowledged already: until then a second delete of the same file
  // may take its log entry over.
  lemma DeleteExactIff(md5: Digest, c0: Cluster, steps: seq<Step>, m: SyncFileInfo)
    requires Init(c0)
    requires var c := After(md5, c0, steps); m in c.logged && m.action == SYNC_DELETE
    ensures var c := After(md5, c0, steps);
      (forall more :: Exact(After(md5, c, more), m)) <==> m in c.repaired
  {
    hide Inv, Next, After, KeyOf;
    var c := After(md5, c0, steps);
    if m in c.repaired {
      forall more ensures Exact(After(md5, c, more), m) {
        RunInv(md5, c0, steps);
        RunGrows(md5, c, more);
        AfterConcat(md5, c0, steps, more);
        RepairedExact(md5, c0, steps + more, m);
      }
    } else {
      RunInv(md5, c0, steps);
      SomeReports(md5, c0, steps);
      var g, a :| Reports(c.nodes, g, a);
      var run := DeletedAgain(md5, c, m, g, a, 0);
      assert !Exact(After(md5, c, run), m);
    }
  }
}
