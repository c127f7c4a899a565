// Which group an upload goes to and which storage of a group serves a client.
module Routing {
  import opened Lib
  import opened Order
  import opened Membership
  import opened MembershipRuns

  ghost function ActiveAddrs(m: Storages): (r: set<string>)
    ensures forall a :: a in r <==> IsActive(m, a)
  {
    set a | a in m && m[a].status == StorageActive
  }

  // The storage serving a client whose ip hashes to h: position h modulo n in the ascending
  // list of the n Active addresses.
  ghost function Select(m: Storages, h: nat): (r: Option<string>)
    ensures r.None? <==> !HasActive(m)
    ensures r.Some? ==> IsActive(m, r.value)
  {
    var up := SortedSeq(ActiveAddrs(m));
    assert forall a :: a in up <==> IsActive(m, a);
    if up == [] then
      assert forall a :: !IsActive(m, a);
      None
    else
      assert IsActive(m, up[h % |up|]);
      Some(up[h % |up|])
  }

  lemma SelectIs(m: Storages, addrs: seq<string>, h: nat)
    requires addrs == SortedSeq(ActiveAddrs(m))
    ensures Select(m, h) == if |addrs| == 0 then None else Some(addrs[h % |addrs|])
    ensures forall a :: a in addrs ==> IsActive(m, a)
  {
    assert forall a :: a in addrs ==> a in Elements(addrs);
  }

  // The Active addresses of a listing, in its order.
  function FilterActive(m: Storages, addrs: seq<string>): seq<string> {
    if addrs == [] then []
    else
      var a := addrs[|addrs| - 1];
      var init := FilterActive(m, addrs[..|addrs| - 1]);
      if a in m && m[a].status == StorageActive then init + [a] else init
  }

  lemma {:induction false} FilterKeeps(m: Storages, addrs: seq<string>)
    requires StrictlySorted(addrs)
    ensures StrictlySorted(FilterActive(m, addrs))
    ensures forall a :: a in FilterActive(m, addrs) <==> a in addrs && IsActive(m, a)
  {
    if addrs != [] {
      var pre, a := addrs[..|addrs| - 1], addrs[|addrs| - 1];
      FilterKeeps(m, pre);
      assert forall x :: x in addrs <==> x in pre || x == a;
      assert forall x :: x in pre ==> Below(x, a);
      var init := FilterActive(m, pre);
      assert forall i :: 0 <= i < |init| ==> init[i] in init;
    }
  }

  // Filtering the ascending listing of a group gives the ascending listing of its Active storages.
  lemma FilterIsActive(m: Storages)
    ensures FilterActive(m, SortedSeq(m.Keys)) == SortedSeq(ActiveAddrs(m))
  {
    var all := SortedSeq(m.Keys);
    FilterKeeps(m, all);
    assert forall a :: a in all <==> a in Elements(all);
    assert Elements(FilterActive(m, all)) == ActiveAddrs(m);
    SortedUnique(FilterActive(m, all), SortedSeq(ActiveAddrs(m)));
  }

  // --- Balance of hash routing ---

  // How many of the hash values 0..total-1 go to position i of n.
  function Hits(total: nat, n: nat, i: nat): nat
    requires i < n
  {
    if total == 0 then 0 else Hits(total - 1, n, i) + (if (total - 1) % n == i then 1 else 0)
  }

  lemma {:induction false} HitsExact(total: nat, n: nat, i: nat)
    requires i < n
    ensures Hits(total, n, i) == total / n + (if i < total % n then 1 else 0)
  {
    if total != 0 {
      HitsExact(total - 1, n, i);
      DivStep(total - 1, n);
    }
  }

  lemma DivStep(x: nat, n: nat)
    requires n > 0
    ensures if x % n == n - 1 then (x + 1) / n == x / n + 1 && (x + 1) % n == 0
            else (x + 1) / n == x / n && (x + 1) % n == x % n + 1
  {
    var q, r := x / n, x % n;
    assert x == n * q + r;
    if r == n - 1 {
      assert x + 1 == n * (q + 1);
      DivUnique(x + 1, n, q + 1, 0);
    } else {
      DivUnique(x + 1, n, q, r + 1);
    }
  }

  lemma DivUnique(x: nat, n: nat, q: nat, r: nat)
    requires n > 0 && r < n && x == n * q + r
    ensures x / n == q && x % n == r
  {
    var q', r' := x / n, x % n;
    assert x == n * q' + r';
    assert n * (q - q') == r' - r;
    if q > q' { MulAtLeast(n, q - q'); }
    if q < q' { MulAtLeast(n, q' - q); }
  }

  lemma MulAtLeast(n: nat, k: int)
    requires k >= 1
    ensures n * k >= n
  {
    assert n * k == n * (k - 1) + n;
    assert n * (k - 1) >= 0;
  }

  const HASH_VALUES := 0x1_0000_0000

  // How many of the hash values 0..total-1 the storage at a serves.
  ghost function Served(m: Storages, total: nat, a: string): nat {
    if total == 0 then 0 else Served(m, total - 1, a) + (if Select(m, total - 1) == Some(a) then 1 else 0)
  }

  // A storage serves what goes to its one position in the listing of the Active addresses.
  lemma {:induction false} ServedIsHits(m: Storages, total: nat, up: seq<string>, i: nat)
    requires up == SortedSeq(ActiveAddrs(m)) && i < |up|
    ensures Served(m, total, up[i]) == Hits(total, |up|, i)
  {
    hide Select, SortedSeq, ActiveAddrs;
    if total != 0 {
      ServedIsHits(m, total - 1, up, i);
      SelectIs(m, up, total - 1);
      StrictlySortedAll(up);
    }
  }

  // Over all 32-bit hash values every Active storage serves the floor of an equal share, or,
  // where the share is not whole, possibly the ceiling.
  lemma HashRoutingBalanced(m: Storages, a: string)
    requires IsActive(m, a)
    ensures var n := |ActiveAddrs(m)|;
      n > 0 && HASH_VALUES / n <= Served(m, HASH_VALUES, a) <= (HASH_VALUES + n - 1) / n
  {
    hide Select, SortedSeq;
    var up := SortedSeq(ActiveAddrs(m));
    assert a in Elements(up);
    var i :| 0 <= i < |up| && up[i] == a;
    ServedIsHits(m, HASH_VALUES, up, i);
    HitsExact(HASH_VALUES, |up|, i);
    Ceiling(HASH_VALUES, |up|);
  }

  lemma Ceiling(x: nat, n: nat)
    requires n > 0
    ensures (x + n - 1) / n == x / n + (if x % n == 0 then 0 else 1)
  {
    var q, r := x / n, x % n;
    assert x == n * q + r;
    if r == 0 {
      DivUnique(x + n - 1, n, q, n - 1);
    } else {
      assert x + n - 1 == n * (q + 1) + (r - 1);
      DivUnique(x + n - 1, n, q + 1, r - 1);
    }
  }

  // --- Group choice ---

  ghost function ActiveGroups(t: TrackerState): (r: set<string>)
    ensures forall n :: n in r <==> n in t && t[n].status == GroupActive
  {
    set n | n in t && t[n].status == GroupActive
  }

  // The comparator as written: both sides read the same element.
  const AS_WRITTEN: (nat, nat) -> bool := (x: nat, y: nat) => x > x
  // The comparator the comments describe: larger capacity first.
  const DESCENDING: (nat, nat) -> bool := (x: nat, y: nat) => x > y

  // A listing of the Active groups that a sort with this comparator may end in.
  ghost predicate SortOutcome(t: TrackerState, less: (nat, nat) -> bool, gs: seq<string>) {
    && Elements(gs) == ActiveGroups(t)
    && (forall i :: 0 <= i < |gs| ==> gs[i] in t)
    && (forall i, j :: 0 <= i < j < |gs| ==> gs[i] != gs[j] && !less(t[gs[j]].cap, t[gs[i]].cap))
  }

  // Group n may be returned, for some order of the groups map.
  ghost predicate MayChoose(t: TrackerState, less: (nat, nat) -> bool, n: string) {
    exists gs :: SortOutcome(t, less, gs) && gs != [] && gs[0] == n
  }

  ghost predicate Largest(t: TrackerState, n: string) {
    && n in t && t[n].status == GroupActive
    && forall k :: k in t && t[k].status == GroupActive ==> t[k].cap <= t[n].cap
  }

  lemma ListFrom(s: set<string>, n: string) returns (gs: seq<string>)
    requires n in s
    ensures gs != [] && gs[0] == n && Elements(gs) == s
    ensures forall i, j :: 0 <= i < j < |gs| ==> gs[i] != gs[j]
  {
    hide SortedSeq, StrictlySorted;
    var rest := SortedSeq(s - {n});
    gs := [n] + rest;
    forall i, j | 0 <= i < j < |gs| ensures gs[i] != gs[j] {
      if i > 0 { StrictlySortedDistinct(rest, i - 1, j - 1); } else { assert rest[j - 1] in Elements(rest); }
    }
    assert Elements(gs) == {n} + Elements(rest);
  }

  // A sort by capacity of the Active groups, listed in map order with their capacities.
  lemma SortedListing(t: TrackerState, gs: seq<(string, nat)>, less: (nat, nat) -> bool, cmp: ((string, nat),
                      (string, nat)) -> bool)
    requires WeakOrder(cmp) && forall x, y :: cmp(x, y) == less(x.1, y.1)
    requires Distinct(gs) && gs != []
    requires forall x :: x in gs <==> x.0 in ActiveGroups(t) && x.1 == t[x.0].cap
    ensures MayChoose(t, less, SortSlice(gs, cmp)[0].0)
  {
    var sorted := SortSlice(gs, cmp);
    SortDistinct(gs, cmp);
    SortedElements(gs, cmp);
    var names := seq(|sorted|, i requires 0 <= i < |sorted| => sorted[i].0);
    assert forall i :: 0 <= i < |sorted| ==> sorted[i] in sorted && sorted[i] in gs;
    forall n ensures n in names <==> n in ActiveGroups(t) {
      if n in ActiveGroups(t) {
        assert (n, t[n].cap) in sorted;
        var i :| 0 <= i < |sorted| && sorted[i] == (n, t[n].cap);
        assert names[i] == n;
      }
    }
    assert Elements(names) == ActiveGroups(t);
    forall i, j | 0 <= i < j < |names| ensures names[i] != names[j] && !less(t[names[j]].cap, t[names[i]].cap) {
      assert sorted[i] != sorted[j] && !cmp(sorted[j], sorted[i]);
    }
    assert SortOutcome(t, less, names) && names[0] == sorted[0].0;
  }

  // As written, every Active group may be returned and nothing else.
  lemma AsWrittenMayChooseAnyActive(t: TrackerState, n: string)
    ensures MayChoose(t, AS_WRITTEN, n) <==> n in ActiveGroups(t)
  {
    if n in ActiveGroups(t) {
      var gs := ListFrom(ActiveGroups(t), n);
      assert forall i :: 0 <= i < |gs| ==> gs[i] in Elements(gs);
      assert SortOutcome(t, AS_WRITTEN, gs);
    }
    if MayChoose(t, AS_WRITTEN, n) {
      var gs :| SortOutcome(t, AS_WRITTEN, gs) && gs != [] && gs[0] == n;
      assert n in Elements(gs);
    }
  }

  // So the promise "the group with the largest capacity" holds of the code exactly in the
  // states where all Active groups have equal capacity.
  lemma AsWrittenOptimalIff(t: TrackerState)
    ensures (forall n :: MayChoose(t, AS_WRITTEN, n) ==> Largest(t, n))
       <==> (forall m, n :: m in ActiveGroups(t) && n in ActiveGroups(t) ==> t[m].cap == t[n].cap)
  {
    forall n ensures MayChoose(t, AS_WRITTEN, n) <==> n in ActiveGroups(t) {
      AsWrittenMayChooseAnyActive(t, n);
    }
    if forall n :: MayChoose(t, AS_WRITTEN, n) ==> Largest(t, n) {
      forall m, n | m in ActiveGroups(t) && n in ActiveGroups(t) ensures t[m].cap == t[n].cap {
        assert Largest(t, m) && Largest(t, n);
      }
    }
  }

  // With the comparator of the comments every possible result is an Active group of largest capacity.
  lemma DescendingChoosesLargest(t: TrackerState, n: string)
    requires MayChoose(t, DESCENDING, n)
    ensures Largest(t, n)
  {
    var gs :| SortOutcome(t, DESCENDING, gs) && gs != [] && gs[0] == n;
    forall k | k in t && t[k].status == GroupActive ensures t[k].cap <= t[n].cap {
      assert k in Elements(gs);
      var i :| 0 <= i < |gs| && gs[i] == k;
    }
    assert n in Elements(gs);
  }

  function Alone(s: ServerState): GroupState {
    GroupState(s.group, GroupActive, s.free, map[s.addr := s])
  }

  // A group with one Active storage that is still in time stays as it is.
  lemma SweepAlone(s: ServerState, now: int)
    requires s.status == StorageActive && now - s.updateTime <= REPORT_TIMEOUT
    ensures SweepGroup(Alone(s), now) == Alone(s)
  {
    var m := SweepStorages(Alone(s).storages, now);
    assert m == Alone(s).storages;
    assert IsActive(m, s.addr);
  }

  // The first report of a group, from a storage with enough space.
  lemma FirstReport(t: TrackerState, r: StatusReport, time: int)
    requires Accepted(r) && r.free > MIN_STORAGE_SPACE && r.group !in t
    ensures ReportStep(t, r, time, time) == Sweep(t, time)[r.group := Alone(Reported(r, time))]
  {
    var s := Reported(r, time);
    assert Save(t, s)[s.group].storages == map[s.addr := s];
    SweepAlone(s, time);
    assert SweepGroup(Save(t, s)[s.group], time) == SweepGroup(Alone(s), time);
  }

  // The registry after the first reports of two groups.
  lemma TwoReports(r1: StatusReport, r2: StatusReport, time: int)
    requires Accepted(r1) && Accepted(r2) && r1.group != r2.group
    requires r1.free > MIN_STORAGE_SPACE && r2.free > MIN_STORAGE_SPACE
    ensures Run([Report(r1, time, time), Report(r2, time, time)])
         == map[r1.group := Alone(Reported(r1, time)), r2.group := Alone(Reported(r2, time))]
  {
    hide ReportStep, AddrOf, Sweep, Alone, Run;
    var e1, e2 := Report(r1, time, time), Report(r2, time, time);
    var s1, s2 := Reported(r1, time), Reported(r2, time);
    assert [e1] == [] + [e1] && [e1, e2] == [e1] + [e2];
    assert Run([]) == map[] by { NothingRun(); }
    RunSnoc([], e1);
    RunSnoc([e1], e2);
    FirstReport(map[], r1, time);
    NothingToSweep(time);
    var t1 := Run([e1]);
    assert t1 == map[r1.group := Alone(s1)];
    FirstReport(t1, r2, time);
    SweepOnly(s1, time);
    assert Run([e1, e2]) == t1[r2.group := Alone(s2)];
  }

  lemma NothingRun()
    ensures Run([]) == map[]
  {
  }

  lemma NothingToSweep(now: int)
    ensures Sweep(map[], now) == map[]
  {
  }

  lemma SweepOnly(s: ServerState, now: int)
    requires s.status == StorageActive && now - s.updateTime <= REPORT_TIMEOUT
    ensures Sweep(map[s.group := Alone(s)], now) == map[s.group := Alone(s)]
  {
    hide SweepGroup;
    SweepAlone(s, now);
    var t := map[s.group := Alone(s)];
    assert Sweep(t, now).Keys == t.Keys && Sweep(t, now)[s.group] == t[s.group];
  }

  // After the first reports of any two groups the code may return the one with less space.
  lemma AsWrittenMayChooseSmaller(r1: StatusReport, r2: StatusReport, time: int)
    requires Accepted(r1) && Accepted(r2) && r1.group != r2.group && MIN_STORAGE_SPACE < r1.free < r2.free
    ensures var t := Run([Report(r1, time, time), Report(r2, time, time)]);
      MayChoose(t, AS_WRITTEN, r1.group) && !Largest(t, r1.group)
  {
    hide Run, MayChoose;
    var t := Run([Report(r1, time, time), Report(r2, time, time)]);
    TwoReports(r1, r2, time);
    assert t[r1.group].cap == r1.free && t[r2.group].cap == r2.free;
    AsWrittenMayChooseAnyActive(t, r1.group);
  }

  // --- Availability ---

  ghost predicate SomewhereActive(t: TrackerState) {
    exists n, a :: n in t && IsActive(t[n].storages, a)
  }

  // Choosing a group and then a storage in it succeeds whatever the order of the map and the ip.
  ghost predicate UploadFindsStorage(t: TrackerState, less: (nat, nat) -> bool) {
    && ActiveGroups(t) != {}
    && forall n, h: nat :: MayChoose(t, less, n) ==> n in t && Select(t[n].storages, h).Some?
  }

  // In any state the selection always succeeds exactly when some group is Active and
  // every Active group has an Active storage.
  lemma UploadFindsStorageIff(t: TrackerState)
    ensures UploadFindsStorage(t, AS_WRITTEN)
       <==> ActiveGroups(t) != {} && forall n :: n in ActiveGroups(t) ==> HasActive(t[n].storages)
  {
    forall n ensures MayChoose(t, AS_WRITTEN, n) <==> n in ActiveGroups(t) {
      AsWrittenMayChooseAnyActive(t, n);
    }
    if UploadFindsStorage(t, AS_WRITTEN) {
      forall n | n in ActiveGroups(t) ensures HasActive(t[n].storages) {
        assert MayChoose(t, AS_WRITTEN, n) && Select(t[n].storages, 0).Some?;
      }
    }
  }

  // Right after an accepted report an upload finds a storage exactly when some storage is Active.
  lemma AvailableAfterReport(es: seq<Event>)
    requires es != [] && IsSweep(es[|es| - 1])
    ensures UploadFindsStorage(Run(es), AS_WRITTEN) <==> SomewhereActive(Run(es))
  {
    RunHealthy(es);
    UploadFindsStorageIff(Run(es));
    var t := Run(es);
    if SomewhereActive(t) {
      var n, a :| n in t && IsActive(t[n].storages, a);
      assert TwoSided(t[n]) && n in ActiveGroups(t);
    }
    if ActiveGroups(t) != {} {
      var n :| n in ActiveGroups(t);
      assert TwoSided(t[n]) && HasActive(t[n].storages);
      var a :| IsActive(t[n].storages, a);
      assert n in t && IsActive(t[n].storages, a);
    }
  }

  // In every reachable state a selected storage is Active, filed in the selected group, and
  // its last report had more than the minimum space.
  lemma SelectedStorageUsable(es: seq<Event>, n: string, h: nat)
    requires n in Run(es) && Select(Run(es)[n].storages, h).Some?
    ensures var t := Run(es); var a := Select(t[n].storages, h).value;
      && Registered(t, n, a) && t[n].storages[a].group == n && t[n].storages[a].addr == a
      && t[n].storages[a].status == StorageActive && t[n].storages[a].free > MIN_STORAGE_SPACE
  {
    var a := Select(Run(es)[n].storages, h).value;
    RunHealthy(es);
    assert KeyedGroup(Run(es), n);
    RunExplained(es, n, a);
    var k: nat :| LastReport(es, n, a, k);
    assert StatusSince(es, n, a, k) == StorageActive;
  }

  // --- Routing an upload ---

  // By AsWrittenMayChooseAnyActive these are the groups the code may return.
  ghost predicate Chosen(t: TrackerState, n: string) {
    n in t && t[n].status == GroupActive
  }

  // Group n may be chosen and storage a of it serves clients hashing to h.
  ghost predicate Routed(t: TrackerState, h: nat, n: string, a: string) {
    Chosen(t, n) && a in t[n].storages && Select(t[n].storages, h) == Some(a)
  }

  ghost predicate Unroutable(t: TrackerState, h: nat) {
    ActiveGroups(t) == {} || exists n :: Chosen(t, n) && Select(t[n].storages, h).None?
  }

  lemma RoutedRegistered(t: TrackerState, h: nat, n: string, a: string)
    requires Routed(t, h, n, a)
    ensures Registered(t, n, a)
  {
  }
}
