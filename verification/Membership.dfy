// What the tracker knows about groups and storages, as a value, and the three steps that
// change it: a status report, the timeout sweep it triggers, and a proxy failure.
// The classes in Groups and Trackers are proved to perform exactly these steps.
module Membership {
  import opened Lib
  import opened Order
  import opened Names

  const MIN_STORAGE_SPACE := 100000
  const REPORT_TIMEOUT := 5 * 10

  datatype StorageStatus = StorageOffline | StorageActive | StorageNotEnoughSpace
  datatype GroupStatus = GroupUnavailable | GroupActive

  datatype ServerState = ServerState(group: string, schema: string, addr: string,
                                     status: StorageStatus, free: nat, updateTime: int)
  type Storages = map<string, ServerState>
  datatype GroupState = GroupState(name: string, status: GroupStatus, cap: nat, storages: Storages)
  type TrackerState = map<string, GroupState>

  datatype StatusReport = StatusReport(group: string, schema: string, host: string, port: string, free: nat)

  // --- Capacity and activity, stated without loops ---

  ghost predicate IsActive(m: Storages, a: string) {
    a in m && m[a].status == StorageActive
  }

  ghost predicate HasActive(m: Storages) {
    exists a :: IsActive(m, a)
  }

  ghost predicate IsMinFree(c: nat, m: Storages) {
    && (exists a :: a in m && m[a].free == c)
    && (forall a :: a in m ==> c <= m[a].free)
  }

  lemma {:induction false} MinFreeExists(m: Storages)
    requires m.Keys != {}
    ensures exists c :: IsMinFree(c, m)
    decreases |m|
  {
    var a :| a in m;
    var rest := m - {a};
    if rest.Keys == {} {
      assert forall b :: b in m ==> b == a by { forall b | b in m ensures b == a { assert b != a ==> b in rest; } }
      assert IsMinFree(m[a].free, m);
    } else {
      MinFreeExists(rest);
      var c :| IsMinFree(c, rest);
      assert forall b :: b in m ==> b == a || b in rest;
      assert IsMinFree(if m[a].free < c then m[a].free else c, m) by {
        var b :| b in rest && rest[b].free == c;
        assert b in m && m[b].free == c;
      }
    }
  }

  ghost function MinFree(m: Storages): (c: nat)
    requires m.Keys != {}
    ensures IsMinFree(c, m)
  {
    MinFreeExists(m);
    var c :| IsMinFree(c, m);
    c
  }

  // --- The sweep ---

  function SweepServer(s: ServerState, now: int): ServerState {
    if s.status == StorageActive && now - s.updateTime > REPORT_TIMEOUT then s.(status := StorageOffline) else s
  }

  function SweepStorages(m: Storages, now: int): Storages {
    map a | a in m :: SweepServer(m[a], now)
  }

  // A group with these storages, its status and capacity computed from them.
  ghost function Summary(name: string, m: Storages): GroupState {
    if HasActive(m) then GroupState(name, GroupActive, MinFree(m), m)
    else GroupState(name, GroupUnavailable, 0, m)
  }

  ghost function SweepGroup(g: GroupState, now: int): GroupState {
    Summary(g.name, SweepStorages(g.storages, now))
  }

  ghost function Sweep(t: TrackerState, now: int): TrackerState {
    map n | n in t :: SweepGroup(t[n], now)
  }

  // --- Steps ---

  predicate Accepted(r: StatusReport) {
    r.port != "" && r.host != "" && r.group != ""
  }

  function AddrOf(r: StatusReport): (addr: string)
    ensures addr != ""
  {
    JoinHostPort(r.host, r.port)
  }

  function Reported(r: StatusReport, time: int): ServerState {
    ServerState(r.group, r.schema, AddrOf(r),
                if r.free <= MIN_STORAGE_SPACE then StorageNotEnoughSpace else StorageActive, r.free, time)
  }

  function Save(t: TrackerState, s: ServerState): TrackerState {
    var g := if s.group in t then t[s.group] else GroupState(s.group, GroupActive, s.free, map[]);
    t[s.group := g.(storages := g.storages[s.addr := s])]
  }

  // A report stamped at `time` whose sweep runs at `now`.
  ghost function ReportStep(t: TrackerState, r: StatusReport, time: int, now: int): TrackerState {
    if Accepted(r) then Sweep(Save(t, Reported(r, time)), now) else t
  }

  predicate Registered(t: TrackerState, group: string, addr: string) {
    group in t && addr in t[group].storages
  }

  function AbortStep(t: TrackerState, group: string, addr: string): TrackerState {
    if Registered(t, group, addr) then
      var g := t[group];
      t[group := g.(storages := g.storages[addr := g.storages[addr].(status := StorageOffline)])]
    else t
  }

  // --- The sweep, seen as an operation of its own ---

  function Max(a: int, b: int): int { if a < b then b else a }

  lemma SweepStoragesTwice(m: Storages, a: int, b: int)
    ensures SweepStorages(SweepStorages(m, a), b) == SweepStorages(m, Max(a, b))
  {
  }

  lemma SweepGroupTwice(g: GroupState, a: int, b: int)
    ensures SweepGroup(SweepGroup(g, a), b) == SweepGroup(g, Max(a, b))
  {
    SweepStoragesTwice(g.storages, a, b);
  }

  // Two sweeps do what one sweep at the later time does; so sweeping is idempotent at a fixed
  // time and sweeps may be swapped.
  lemma SweepTwice(t: TrackerState, a: int, b: int)
    ensures Sweep(Sweep(t, a), b) == Sweep(t, Max(a, b))
  {
    forall n | n in t ensures Sweep(Sweep(t, a), b)[n] == Sweep(t, Max(a, b))[n] {
      SweepGroupTwice(t[n], a, b);
    }
  }

  // Visiting groups one at a time, in the order of the list.
  ghost function SweepInOrder(t: TrackerState, order: seq<string>, now: int): TrackerState {
    if order == [] || order[0] !in t then t
    else SweepInOrder(t[order[0] := SweepGroup(t[order[0]], now)], order[1..], now)
  }

  // Any visiting order, even one with repetitions, gives the pointwise sweep once every group is visited.
  lemma {:induction false} SweepOrderIrrelevant(t: TrackerState, order: seq<string>, now: int)
    requires Elements(order) == t.Keys
    ensures SweepInOrder(t, order, now) == Sweep(t, now)
  {
    SweepVisited(t, t, {}, order, now);
  }

  lemma {:induction false} SweepVisited(t: TrackerState, cur: TrackerState, done: set<string>, order: seq<string>,
                                        now: int)
    requires cur.Keys == t.Keys == done + Elements(order)
    requires forall n :: n in t ==> cur[n] == if n in done then SweepGroup(t[n], now) else t[n]
    ensures SweepInOrder(cur, order, now) == Sweep(t, now)
    decreases order
  {
    if order == [] {
      assert cur == Sweep(t, now);
    } else {
      var n := order[0];
      assert n in Elements(order);
      SweepGroupTwice(t[n], now, now);
      assert Elements(order) == {n} + Elements(order[1..]) by { assert order == [n] + order[1..]; }
      SweepVisited(t, cur[n := SweepGroup(cur[n], now)], done + {n}, order[1..], now);
    }
  }
}
