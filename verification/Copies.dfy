// Cut-off copies and lost sources: which replicas a cut can reach, and what a source can hold
// after deletes.
module Copies {
  import opened Lib
  import opened Order
  import opened Names
  import opened Membership
  import opened Routing
  import opened Nodes
  import opened Replication
  import opened Repairs
  import opened Protocol
  import opened ProtocolInv
  import opened Conservation
  import opened Contents

  // The step cuts no copy off after it has opened the file.
  predicate WholeCopy(s: Step) {
    !(s.DeliverTask? && s.at.disk.SyncCopyFails?)
  }

  predicate Whole(steps: seq<Step>) {
    forall i :: 0 <= i < |steps| ==> WholeCopy(steps[i])
  }

  // Only replicas of files whose fan-out has started are ever cut short.
  ghost predicate DamageKnown(c: Cluster) {
    forall d, p :: (d, p) in c.damaged ==> p in c.uploads && c.uploads[p].fan.Some?
  }

  lemma DamageKept(md5: Digest, c: Cluster, s: Step)
    requires !s.DeliverTask?
    ensures Next(md5, c, s).damaged == c.damaged
  {
    hide Upload, FanOut, Started, Deliver, ReportStep, AbortStep, Collect, KeyOf, Decimal, Damage, OpOf,
      StoredPath, Fail, Succeed, Routed, Usable, Consider, HostOf, AddrOf;
    if Enabled(c, s) {
      match s {
        case SkipUnusable(i) => SettledDamage(c, i);
        case Answer(i) => SettledDamage(c, i);
        case GiveUp(i) => SettledDamage(c, i);
        case _ =>
      }
    }
  }

  lemma SettledDamage(c: Cluster, i: nat)
    requires i < |c.tasks|
    ensures Fail(c, i).damaged == Succeed(c, i).damaged == c.damaged
  {
    hide KeyOf;
  }

  lemma DeliverDamage(md5: Digest, c: Cluster, i: nat, at: DeliverFate)
    requires TasksOk(c) && DamageKnown(c) && i < |c.tasks|
    ensures DamageKnown(DoDeliver(md5, c, i, at))
    ensures !at.disk.SyncCopyFails? ==> DoDeliver(md5, c, i, at).damaged <= c.damaged
  {
    hide HostOf, PathOf, Fetch, Deliver;
    assert TaskOk(c, c.tasks[i]);
  }

  // The step is a delivery that writes the file at q on node b, or a part of it.
  ghost predicate Writes(c: Cluster, s: Step, b: string, q: string) {
    && s.DeliverTask? && Enabled(c, s) && b in c.nodes
    && var m := c.tasks[s.i].info;
    && m.action == SYNC_ADD && HostOf(m.dst) == b && PathOf(m) == q
    && (OpOf(c.nodes, m, s.at).fate.SyncCopyFails? || OpOf(c.nodes, m, s.at).fate.Fetched?)
  }

  // A replica counts as cut short exactly if its last write was cut off.
  lemma CutShortIff(md5: Digest, c: Cluster, s: Step, b: string, q: string)
    ensures (b, q) in Next(md5, c, s).damaged <==>
      if Writes(c, s, b, q) then OpOf(c.nodes, c.tasks[s.i].info, s.at).fate.SyncCopyFails?
      else (b, q) in c.damaged
  {
    hide HostOf, PathOf, Fetch, Next;
    if s.DeliverTask? {
      if Enabled(c, s) { DeliverCut(md5, c, s.i, s.at, b, q); }
      DeliverStep(md5, c, s);
    } else {
      DamageKept(md5, c, s);
    }
  }

  lemma DeliverStep(md5: Digest, c: Cluster, s: Step)
    requires s.DeliverTask?
    ensures Next(md5, c, s) == if Enabled(c, s) then DoDeliver(md5, c, s.i, s.at) else c
  {
    hide DoDeliver;
  }

  lemma DeliverCut(md5: Digest, c: Cluster, i: nat, at: DeliverFate, b: string, q: string)
    requires i < |c.tasks|
    ensures var m := c.tasks[i].info; var op := OpOf(c.nodes, m, at);
      (b, q) in DoDeliver(md5, c, i, at).damaged <==>
        if HostOf(m.dst) == b && b in c.nodes && PathOf(m) == q && op.OpAdd?
           && (op.fate.SyncCopyFails? || op.fate.Fetched?)
        then op.fate.SyncCopyFails? else (b, q) in c.damaged
  {
    hide HostOf, PathOf, Fetch, Deliver;
  }

  lemma NextDamage(md5: Digest, c: Cluster, s: Step)
    requires Inv(md5, c) && DamageKnown(c)
    ensures DamageKnown(Next(md5, c, s)) && (WholeCopy(s) ==> Next(md5, c, s).damaged <= c.damaged)
  {
    hide NodesOk, RegistryOk, UploadsOk, PathsOk, TasksOk, LogsOk, FlightsOk, Next, DoDeliver;
    NextInv(md5, c, s);
    if s.DeliverTask? { DeliveredDamage(md5, c, s); } else { DamageKept(md5, c, s); }
  }

  lemma DeliveredDamage(md5: Digest, c: Cluster, s: Step)
    requires TasksOk(c) && DamageKnown(c) && s.DeliverTask?
    ensures DamageKnown(Next(md5, c, s)) && (WholeCopy(s) ==> Next(md5, c, s).damaged <= c.damaged)
  {
    hide TasksOk, DoDeliver;
    if Enabled(c, s) { DeliverDamage(md5, c, s.i, s.at); }
  }

  lemma {:induction false} DamageFrom(md5: Digest, c: Cluster, steps: seq<Step>)
    requires Inv(md5, c) && DamageKnown(c)
    ensures DamageKnown(After(md5, c, steps))
    ensures Whole(steps) ==> After(md5, c, steps).damaged <= c.damaged
  {
    hide Inv, Next, DamageKnown, WholeCopy;
    if steps != [] {
      var pre := steps[..|steps| - 1];
      DamageFrom(md5, c, pre);
      RunGrows(md5, c, pre);
      NextDamage(md5, After(md5, c, pre), steps[|steps| - 1]);
    }
  }

  lemma RunDamage(md5: Digest, c0: Cluster, steps: seq<Step>)
    requires Init(c0)
    ensures DamageKnown(After(md5, c0, steps))
    ensures Whole(steps) ==> After(md5, c0, steps).damaged == {}
  {
    hide DamageKnown, Whole, Inv;
    InitInv(md5, c0);
    assert DamageKnown(c0) by { NoDamage(c0); }
    DamageFrom(md5, c0, steps);
  }

  lemma NoDamage(c: Cluster)
    requires c.damaged == {}
    ensures DamageKnown(c)
  {
  }

  // --- What a source can hold ---

  // The source of a stored file holds its bytes or nothing, also after deletes.
  ghost predicate SourcesIntact(c: Cluster) {
    forall p :: p in c.uploads ==> FileAt(c.nodes, c.uploads[p].src, p) in {None, Some(c.uploads[p].Content())}
  }

  // A step that moves no file of a stored upload.
  lemma SourcesKept(c: Cluster, c': Cluster)
    requires SourcesIntact(c) && c'.nodes == c.nodes
    requires forall p :: p in c'.uploads ==> p in c.uploads && Later(c.uploads[p], c'.uploads[p])
    ensures SourcesIntact(c')
  {
    hide FileAt;
  }

  lemma SaveSources(md5: Digest, c: Cluster, j: nat, env: UploadEnv)
    requires Inv(md5, c) && SourcesIntact(c) && Savable(c, j)
    ensures SourcesIntact(DoSave(md5, c, j, env))
  {
    hide Upload, DoSave, StoredPath, FileAt, NodesOk, RegistryOk, UploadsOk, PathsOk, TasksOk, LogsOk, FlightsOk,
      OnlyAt;
    var c' := DoSave(md5, c, j, env);
    SaveParts(md5, c, j, env);
    SaveGrows(md5, c, j, env);
    forall p | p in c'.uploads ensures FileAt(c'.nodes, c'.uploads[p].src, p) in {None, Some(c'.uploads[p].Content())} {
      if p in c.uploads { SaveTouches(md5, c, j, env, p); } else { SaveStores(md5, c, j, env, p); }
    }
  }

  lemma DeliverSources(md5: Digest, c: Cluster, i: nat, at: DeliverFate)
    requires UploadsOk(md5, c) && TasksOk(c) && SourcesIntact(c) && i < |c.tasks|
    ensures SourcesIntact(DoDeliver(md5, c, i, at))
  {
    hide UploadsOk, HostOf, PathOf, Damage, Deliver;
    var c', m := DoDeliver(md5, c, i, at), c.tasks[i].info;
    assert TaskOk(c, c.tasks[i]);
    forall p | p in c'.uploads ensures FileAt(c'.nodes, c'.uploads[p].src, p) in {None, Some(c'.uploads[p].Content())} {
      DeliverFrame(md5, c.nodes, m, at);
      if Targets(m, c.uploads[p].src, p) { DeletedThere(md5, c, i, at, p); }
    }
  }

  // Only a DELETE can reach the file at its source.
  lemma DeletedThere(md5: Digest, c: Cluster, i: nat, at: DeliverFate, p: string)
    requires UploadsOk(md5, c) && TasksOk(c) && i < |c.tasks| && p in c.uploads
    requires Targets(c.tasks[i].info, c.uploads[p].src, p)
    ensures FileAt(DoDeliver(md5, c, i, at).nodes, c.uploads[p].src, p) in {None, FileAt(c.nodes, c.uploads[p].src, p)}
  {
    hide UploadsOk, HostOf, PathOf, Damage;
    assert TaskOk(c, c.tasks[i]);
    if c.tasks[i].info.action == SYNC_ADD { MsgEnds(md5, c, c.tasks[i].info); }
  }

  lemma CollectSources(c: Cluster, a: string, path: string)
    requires SourcesIntact(c) && a in c.nodes
    ensures SourcesIntact(c.(nodes := c.nodes[a := Collect(c.nodes[a], path)]))
  {
  }

  lemma NextSources(md5: Digest, c: Cluster, s: Step)
    requires Inv(md5, c) && SourcesIntact(c)
    ensures SourcesIntact(Next(md5, c, s))
  {
    hide SourcesIntact, NodesOk, RegistryOk, UploadsOk, PathsOk, TasksOk, LogsOk, FlightsOk, Next, DoSave,
      DoDeliver;
    if s.SaveUpload? || s.DeliverTask? || s.CollectTrash? {
      MovedSources(md5, c, s);
    } else {
      NodesKept(md5, c, s);
      NextInv(md5, c, s);
      SourcesKept(c, Next(md5, c, s));
    }
  }

  lemma MovedSources(md5: Digest, c: Cluster, s: Step)
    requires Inv(md5, c) && SourcesIntact(c) && (s.SaveUpload? || s.DeliverTask? || s.CollectTrash?)
    ensures SourcesIntact(Next(md5, c, s))
  {
    hide SourcesIntact, NodesOk, RegistryOk, UploadsOk, PathsOk, TasksOk, LogsOk, FlightsOk, DoSave, DoDeliver,
      Collect;
    if Enabled(c, s) {
      match s {
        case SaveUpload(j, env) => SaveSources(md5, c, j, env);
        case DeliverTask(i, at) => DeliverSources(md5, c, i, at);
        case CollectTrash(a, path) => CollectSources(c, a, path);
      }
    }
  }

  // Only a save, a delivery and a removal touch a node; only a save adds a record, and only an
  // answer changes one.
  lemma NodesKept(md5: Digest, c: Cluster, s: Step)
    requires !s.SaveUpload? && !s.DeliverTask? && !s.CollectTrash?
    ensures var c' := Next(md5, c, s);
      c'.nodes == c.nodes && c'.uploads.Keys == c.uploads.Keys && (!s.AnswerUpload? ==> c'.uploads == c.uploads)
  {
    hide FanOut, Started, ReportStep, AbortStep, KeyOf, Decimal, StoredPath, Fail, Succeed, Routed, Usable,
      Consider, HostOf, AddrOf;
    if Enabled(c, s) {
      match s {
        case SkipUnusable(i) => SettledNodes(c, i);
        case Answer(i) => SettledNodes(c, i);
        case GiveUp(i) => SettledNodes(c, i);
        case _ =>
      }
    }
  }

  lemma SettledNodes(c: Cluster, i: nat)
    requires i < |c.tasks|
    ensures Fail(c, i).nodes == Succeed(c, i).nodes == c.nodes
    ensures Fail(c, i).uploads == Succeed(c, i).uploads == c.uploads
  {
    hide KeyOf;
  }

  // In every reachable state, deletes or not, the source of a stored file holds its bytes or nothing.
  lemma {:induction false} RunSources(md5: Digest, c0: Cluster, steps: seq<Step>)
    requires Init(c0)
    ensures SourcesIntact(After(md5, c0, steps))
  {
    hide Inv, Next;
    if steps != [] {
      var pre := steps[..|steps| - 1];
      RunInv(md5, c0, pre);
      RunSources(md5, c0, pre);
      NextSources(md5, After(md5, c0, pre), steps[|steps| - 1]);
    }
  }
}
