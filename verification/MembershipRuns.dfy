// What every run of reports and proxy failures keeps, and what the current state says about
// the history that led to it.
module MembershipRuns {
  import opened Lib
  import opened Order
  import opened Names
  import opened Membership

  datatype Event =
    | Report(r: StatusReport, time: int, now: int)
    | Abort(group: string, addr: string)

  ghost function Step(t: TrackerState, e: Event): TrackerState {
    match e
    case Report(r, time, now) => ReportStep(t, r, time, now)
    case Abort(group, addr) => AbortStep(t, group, addr)
  }

  // The state after the events, from the empty tracker.
  ghost function Run(es: seq<Event>): TrackerState {
    if es == [] then map[] else Step(Run(es[..|es| - 1]), es[|es| - 1])
  }

  predicate IsSweep(e: Event) {
    e.Report? && Accepted(e.r)
  }

  predicate IsReportOf(e: Event, group: string, addr: string) {
    IsSweep(e) && e.r.group == group && AddrOf(e.r) == addr
  }

  // --- State invariants ---

  // Every group is filed under its name and is not empty; every storage under its own,
  // non-empty address in the group it names.
  ghost predicate Keyed(t: TrackerState) {
    forall n :: n in t ==> KeyedGroup(t, n)
  }

  ghost predicate KeyedGroup(t: TrackerState, n: string)
    requires n in t
  {
    && n != "" && t[n].name == n && t[n].storages.Keys != {}
    && (forall a :: a in t[n].storages ==> a != "" && t[n].storages[a].addr == a && t[n].storages[a].group == n)
  }

  // The cached capacity is the least free space of the registered storages, and 0 while unavailable.
  ghost predicate CapAgrees(g: GroupState) {
    && (g.status == GroupActive ==> IsMinFree(g.cap, g.storages))
    && (g.status == GroupUnavailable ==> g.cap == 0)
  }

  ghost predicate OneSided(g: GroupState) {
    g.status == GroupUnavailable ==> !HasActive(g.storages)
  }

  ghost predicate TwoSided(g: GroupState) {
    g.status == GroupActive <==> HasActive(g.storages)
  }

  ghost predicate Healthy(t: TrackerState) {
    && Keyed(t)
    && (forall n :: n in t ==> CapAgrees(t[n]))
    && (forall n :: n in t ==> OneSided(t[n]))
  }

  lemma SweepGroupHealthy(g: GroupState, now: int)
    ensures var g' := SweepGroup(g, now); CapAgrees(g') && TwoSided(g')
  {
  }

  lemma SaveKeyed(t: TrackerState, s: ServerState)
    requires Keyed(t) && s.group != "" && s.addr != ""
    ensures Keyed(Save(t, s))
  {
    var saved := Save(t, s);
    forall n | n in saved ensures KeyedGroup(saved, n) {
      assert s.addr in saved[s.group].storages;
      assert n in t ==> KeyedGroup(t, n);
    }
  }

  lemma SweepHealthy(t: TrackerState, now: int)
    requires Keyed(t)
    ensures Healthy(Sweep(t, now)) && forall n :: n in t ==> TwoSided(Sweep(t, now)[n])
  {
    var t' := Sweep(t, now);
    forall n | n in t' ensures KeyedGroup(t', n) && CapAgrees(t'[n]) && TwoSided(t'[n]) {
      assert KeyedGroup(t, n);
      var a :| a in t[n].storages;
      assert a in t'[n].storages;
      SweepGroupHealthy(t[n], now);
    }
  }

  lemma ReportHealthy(t: TrackerState, r: StatusReport, time: int, now: int)
    requires Keyed(t) && Accepted(r)
    ensures var t' := ReportStep(t, r, time, now); Healthy(t') && forall n :: n in t' ==> TwoSided(t'[n])
  {
    SaveKeyed(t, Reported(r, time));
    SweepHealthy(Save(t, Reported(r, time)), now);
  }

  lemma AbortHealthy(t: TrackerState, group: string, addr: string)
    requires Healthy(t)
    ensures Healthy(AbortStep(t, group, addr))
  {
    var t' := AbortStep(t, group, addr);
    forall n | n in t' ensures KeyedGroup(t', n) && CapAgrees(t'[n]) && OneSided(t'[n]) {
      assert KeyedGroup(t, n);
      assert forall a :: a in t'[n].storages <==> a in t[n].storages;
      assert forall a :: a in t'[n].storages ==> t'[n].storages[a].free == t[n].storages[a].free;
      assert forall a :: IsActive(t'[n].storages, a) ==> IsActive(t[n].storages, a);
      if t[n].status == GroupActive {
        var a :| a in t[n].storages && t[n].storages[a].free == t[n].cap;
        assert t'[n].storages[a].free == t'[n].cap;
      } else {
        assert !HasActive(t[n].storages);
      }
    }
  }

  // Every reachable state is healthy; right after an accepted report a group is Active exactly
  // when it has an Active storage, which a proxy failure may break.
  lemma {:induction false} RunHealthy(es: seq<Event>)
    ensures Healthy(Run(es))
    ensures es != [] && IsSweep(es[|es| - 1]) ==> forall n :: n in Run(es) ==> TwoSided(Run(es)[n])
  {
    if es != [] {
      var t, e := Run(es[..|es| - 1]), es[|es| - 1];
      RunHealthy(es[..|es| - 1]);
      match e {
        case Report(r, time, now) => if Accepted(r) { ReportHealthy(t, r, time, now); }
        case Abort(group, addr) => AbortHealthy(t, group, addr);
      }
    }
  }

  // A registered storage stays registered in its group, so a proxy that was handed a storage
  // always finds it again when it fails.
  lemma {:induction false} RegisteredForever(es: seq<Event>, more: seq<Event>, group: string, addr: string)
    requires Registered(Run(es), group, addr)
    ensures Registered(Run(es + more), group, addr)
  {
    if more == [] {
      assert es + more == es;
    } else {
      var init, last := more[..|more| - 1], more[|more| - 1];
      RegisteredForever(es, init, group, addr);
      assert es + more == (es + init) + [last];
      RunSnoc(es + init, last);
      RegisteredStep(Run(es + init), last, group, addr);
    }
  }

  lemma RunSnoc(es: seq<Event>, e: Event)
    ensures Run(es + [e]) == Step(Run(es), e)
  {
    hide Step;
    assert (es + [e])[..|es|] == es;
  }

  lemma RegisteredStep(t: TrackerState, e: Event, group: string, addr: string)
    requires Registered(t, group, addr)
    ensures Registered(Step(t, e), group, addr)
  {
  }

  // --- The state as a summary of the history ---

  // Position k holds the last report of the storage.
  ghost predicate LastReport(es: seq<Event>, group: string, addr: string, k: nat) {
    && k < |es| && IsReportOf(es[k], group, addr)
    && forall j :: k < j < |es| ==> !IsReportOf(es[j], group, addr)
  }

  // A proxy to the storage failed after position k.
  ghost predicate FailedSince(es: seq<Event>, group: string, addr: string, k: nat) {
    exists j :: k < j < |es| && es[j] == Abort(group, addr)
  }

  // Some sweep since the report at k, its own included, was too late for it.
  ghost predicate LateSince(es: seq<Event>, k: nat)
    requires k < |es| && es[k].Report?
  {
    exists j :: k <= j < |es| && IsSweep(es[j]) && es[j].now - es[k].time > REPORT_TIMEOUT
  }

  // The status that follows from the last report, at k, and from what happened since: Offline
  // after a failed proxy; otherwise a report without enough space decides, whatever the sweeps;
  // otherwise the storage is Active until a sweep finds the report too old.
  ghost function StatusSince(es: seq<Event>, group: string, addr: string, k: nat): StorageStatus
    requires k < |es| && es[k].Report?
  {
    if FailedSince(es, group, addr, k) then StorageOffline
    else if es[k].r.free <= MIN_STORAGE_SPACE then StorageNotEnoughSpace
    else if LateSince(es, k) then StorageOffline
    else StorageActive
  }

  // The registry and the history agree: a storage is registered exactly when it has reported, and
  // it carries stamp, free space and schema of its last report and the status that follows from
  // the history since.
  ghost predicate Explains(es: seq<Event>, group: string, addr: string) {
    var t := Run(es);
    && (Registered(t, group, addr) <==> exists k: nat :: LastReport(es, group, addr, k))
    && (forall k: nat :: LastReport(es, group, addr, k) && Registered(t, group, addr) ==>
          ExplainedBy(es, group, addr, k, t[group].storages[addr]))
  }

  ghost predicate ExplainedBy(es: seq<Event>, group: string, addr: string, k: nat, s: ServerState)
    requires k < |es| && es[k].Report?
  {
    && s.updateTime == es[k].time && s.free == es[k].r.free && s.schema == es[k].r.schema
    && s.status == StatusSince(es, group, addr, k)
  }

  lemma {:induction false} RunExplained(es: seq<Event>, group: string, addr: string)
    ensures Explains(es, group, addr)
  {
    if es != [] {
      var pre, e := es[..|es| - 1], es[|es| - 1];
      RunExplained(pre, group, addr);
      if IsReportOf(e, group, addr) {
        OwnReport(es, group, addr);
      } else {
        OtherEvent(es, group, addr);
      }
    }
  }

  lemma OwnReport(es: seq<Event>, group: string, addr: string)
    requires es != [] && IsReportOf(es[|es| - 1], group, addr)
    ensures Explains(es, group, addr)
  {
    var e := es[|es| - 1];
    assert LastReport(es, group, addr, |es| - 1);
    assert Run(es)[group].storages[addr] == SweepServer(Reported(e.r, e.time), e.now);
    assert forall k: nat :: LastReport(es, group, addr, k) ==> k == |es| - 1;
  }

  lemma OtherEvent(es: seq<Event>, group: string, addr: string)
    requires es != [] && !IsReportOf(es[|es| - 1], group, addr)
    requires Explains(es[..|es| - 1], group, addr)
    ensures Explains(es, group, addr)
  {
    var pre, e := es[..|es| - 1], es[|es| - 1];
    var t, t' := Run(pre), Run(es);
    assert forall k: nat :: LastReport(es, group, addr, k) <==> LastReport(pre, group, addr, k);
    assert Registered(t', group, addr) <==> Registered(t, group, addr);
    forall k: nat | LastReport(es, group, addr, k) && Registered(t', group, addr)
      ensures ExplainedBy(es, group, addr, k, t'[group].storages[addr])
    {
      assert LastReport(pre, group, addr, k) && pre[k] == es[k];
      SinceStep(es, group, addr, k);
      if IsSweep(e) {
        assert t'[group].storages[addr] == SweepServer(t[group].storages[addr], e.now);
      }
    }
  }

  // What the last event adds to the history since k.
  lemma SinceStep(es: seq<Event>, group: string, addr: string, k: nat)
    requires k < |es| - 1 && es[k].Report?
    ensures var pre, e := es[..|es| - 1], es[|es| - 1];
      && (FailedSince(es, group, addr, k) <==> FailedSince(pre, group, addr, k) || e == Abort(group, addr))
      && (LateSince(es, k) <==> LateSince(pre, k) || (IsSweep(e) && e.now - es[k].time > REPORT_TIMEOUT))
  {
    var pre, n := es[..|es| - 1], |es| - 1;
    assert forall j :: 0 <= j < n ==> pre[j] == es[j];
    if j :| k < j < n && pre[j] == Abort(group, addr) { assert es[j] == Abort(group, addr); }
    if j :| k < j < |es| && es[j] == Abort(group, addr) && j != n { assert pre[j] == Abort(group, addr); }
    if j :| k <= j < n && IsSweep(pre[j]) && pre[j].now - pre[k].time > REPORT_TIMEOUT { assert IsSweep(es[j]); }
    if j :| k <= j < |es| && IsSweep(es[j]) && es[j].now - es[k].time > REPORT_TIMEOUT && j != n {
      assert IsSweep(pre[j]);
    }
  }

  // The failure detector: a storage whose last report is more than the timeout older than some
  // sweep is not Active from that sweep until its own next report, whatever else happens; with
  // enough space in that report it is Offline.
  lemma SilentStorageNotActive(es: seq<Event>, group: string, addr: string, k: nat, sweep: nat)
    requires LastReport(es, group, addr, k)
    requires k <= sweep < |es| && IsSweep(es[sweep]) && es[sweep].now - es[k].time > REPORT_TIMEOUT
    ensures Registered(Run(es), group, addr) && !IsActive(Run(es)[group].storages, addr)
    ensures es[k].r.free > MIN_STORAGE_SPACE ==> Run(es)[group].storages[addr].status == StorageOffline
  {
    RunExplained(es, group, addr);
  }

  // Every Active storage reported at most the timeout before the latest sweep, with enough space.
  lemma ActiveStorageIsFresh(es: seq<Event>, group: string, addr: string, sweep: nat)
    requires group in Run(es) && IsActive(Run(es)[group].storages, addr)
    requires sweep < |es| && IsSweep(es[sweep]) && forall j :: sweep < j < |es| ==> !IsSweep(es[j])
    ensures var s := Run(es)[group].storages[addr];
      es[sweep].now - s.updateTime <= REPORT_TIMEOUT && s.free > MIN_STORAGE_SPACE
  {
    RunExplained(es, group, addr);
    var k: nat :| LastReport(es, group, addr, k);
    assert IsSweep(es[k]);
  }

  // --- Which slots there are ---

  // A report from this host and port for the group, with nothing missing.
  predicate IsFrom(e: Event, group: string, host: string, port: string) {
    e.Report? && e.r.group == group != "" && e.r.host == host != "" && e.r.port == port != ""
  }

  // A slot is registered exactly if a complete report for its group came from a host and port
  // that make its address.
  lemma RegisteredIff(es: seq<Event>, group: string, addr: string)
    ensures Registered(Run(es), group, addr)
       <==> exists i, host, port ::
              0 <= i < |es| && IsFrom(es[i], group, host, port) && JoinHostPort(host, port) == addr
  {
    hide Run, JoinHostPort;
    RunExplained(es, group, addr);
    if k: nat :| LastReport(es, group, addr, k) { assert IsFrom(es[k], group, es[k].r.host, es[k].r.port); }
    if i, host, port :| 0 <= i < |es| && IsFrom(es[i], group, host, port) && JoinHostPort(host, port) == addr {
      LastOne(es, group, addr, i);
    }
  }

  lemma {:induction false} LastOne(es: seq<Event>, group: string, addr: string, i: nat)
    requires i < |es| && IsReportOf(es[i], group, addr)
    ensures exists k: nat :: LastReport(es, group, addr, k)
    decreases |es| - i
  {
    if !LastReport(es, group, addr, i) {
      var j :| i < j < |es| && IsReportOf(es[j], group, addr);
      LastOne(es, group, addr, j);
    }
  }

  // Storages of one group that report from different hosts or ports have slots of their own.
  lemma SlotPerEndpoint(es: seq<Event>, group: string, i: nat, h1: string, p1: string, j: nat, h2: string, p2: string)
    requires i < |es| && IsFrom(es[i], group, h1, p1) && j < |es| && IsFrom(es[j], group, h2, p2)
    requires ':' !in p1 && ':' !in p2 && (h1 != h2 || p1 != p2)
    ensures var t, a1, a2 := Run(es), JoinHostPort(h1, p1), JoinHostPort(h2, p2);
      Registered(t, group, a1) && Registered(t, group, a2) && a1 != a2 && |t[group].storages.Keys| >= 2
  {
    hide Run, JoinHostPort;
    var t, a1, a2 := Run(es), JoinHostPort(h1, p1), JoinHostPort(h2, p2);
    RegisteredIff(es, group, a1);
    RegisteredIff(es, group, a2);
    if a1 == a2 { EndpointInjective(h1, p1, h2, p2); }
    var rest := t[group].storages.Keys - {a1};
    assert a2 in rest && |rest| == |t[group].storages.Keys| - 1;
  }
}
