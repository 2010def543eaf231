/**
  Members of one cluster: the lists active and pending, the status machine and
  the callbacks between a member and its cluster.

  M is the identity of a member: the object reference in the code. The record
  of a member stays in `members` after the member has left the lists, so that
  late callbacks of removed members can be described.
*/
module Membership {
  import opened Common
  import opened Lists
  import opened Scheduler
  import opened Sessions
  import Notify

  datatype Status = ACTIVE | SUSPENDED | DRAINING

  /** What the configuration says about a member, apart from its name and status. */
  datatype Params = Params(address: string, cmdOut: string, weight: int, capacity: Capacity, wan: string, lan: string)

  datatype Record = Record(
    name: string,
    params: Params,
    status: Status,
    isLocal: bool,
    wdnt: bool,        // supports wildcard disconnect notification
    calls: CallMaps,
    online: bool,
    down: bool,        // Shutdown has been called
    sessions: int,     // the stored count that GetActiveSessions returns
    filtered: real,
    watched: bool)     // on_active_update is set

  datatype Relay = Relay(prefix: Notify.Bytes, port: Notify.Bytes)

  datatype State<M(==)> = State(
    active: seq<M>,
    pending: seq<M>,
    members: map<M, Record>,
    soft: bool,
    relay: Option<Relay>)

  function Put<M>(s: State<M>, m: M, r: Record): State<M> {
    s.(members := s.members[m := r])
  }

  // ------------------------------------------------------------ operations

  function AddMember<M>(s: State<M>, m: M, r: Record): State<M> {
    var s1 := Put(s, m, r);
    if r.online then s1.(active := s1.active + [m]) else s1.(pending := s1.pending + [m])
  }

  function MoveToActive<M>(s: State<M>, m: M): State<M> {
    if m in s.pending then s.(pending := RemoveFirst(s.pending, m), active := s.active + [m]) else s
  }

  function MoveToPending<M>(s: State<M>, m: M): State<M> {
    if m in s.active then s.(active := RemoveFirst(s.active, m), pending := s.pending + [m]) else s
  }

  /** GoOnline of a member; `up` says whether the base client is online afterwards. */
  function GoOnline<M>(s: State<M>, m: M, up: bool): State<M>
    requires m in s.members
  {
    var r := s.members[m];
    var s1 := Put(s, m, r.(online := r.online || up));
    if r.online || !up then s1 else MoveToActive(s1, m)
  }

  function GoOffline<M>(s: State<M>, m: M): State<M>
    requires m in s.members
  {
    var r := s.members[m];
    var s1 := if r.online then MoveToPending(s, m) else s;
    Put(s1, m, r.(online := false))
  }

  function ShutDown<M>(s: State<M>, m: M): State<M>
    requires m in s.members
  {
    Put(s, m, s.members[m].(down := true))
  }

  /** The test of bring_down: nothing young in the call map, or no session reported. */
  predicate Idle(r: Record) {
    r.calls.young == {} || r.sessions <= 0
  }

  function BringDown<M>(s: State<M>, m: M): State<M>
    requires m in s.members
  {
    var r := s.members[m];
    if m in s.active then
      if Idle(r) then ShutDown(s.(active := RemoveFirst(s.active, m)), m)
      else Put(s, m, r.(status := DRAINING, watched := true))
    else ShutDown(s.(pending := RemoveFirst(s.pending, m)), m)
  }

  /** rtpp_active_change, called with the count just reported. */
  function ActiveChange<M>(s: State<M>, m: M, n: int): State<M>
    requires m in s.members
  {
    var r := s.members[m];
    if r.status == DRAINING && (r.calls.young == {} || n <= 0) then
      if m in s.pending then ShutDown(s.(pending := RemoveFirst(s.pending, m)), m)
      else ShutDown(s.(active := RemoveFirst(s.active, m)), m)
    else s
  }

  /** UpdateActive: the filter is fed first and the new count stored last. */
  function Report<M>(s: State<M>, m: M, n: int): State<M>
    requires m in s.members
  {
    var r := s.members[m];
    var s1 := Put(s, m, r.(filtered := Filter(r.filtered, n)));
    var s2 := if r.sessions != n && r.watched then ActiveChange(s1, m, n) else s1;
    Put(s2, m, s2.members[m].(sessions := n))
  }

  function SetStatus<M>(s: State<M>, m: M, status: Status): State<M>
    requires m in s.members
  {
    Put(s, m, s.members[m].(status := status))
  }

  /** The client has found out whether the proxy supports wildcard disconnect notification. */
  function Detect<M>(s: State<M>, m: M, wdnt: bool): State<M>
    requires m in s.members
  {
    Put(s, m, s.members[m].(wdnt := wdnt))
  }

  /** Reload on a member that is already there. */
  function Configure<M>(s: State<M>, m: M, params: Params, status: Status): State<M>
    requires m in s.members
  {
    Put(s, m, s.members[m].(params := params, status := status))
  }

  /** The ageing timer of a member; it stops once the member is shut down. */
  function AgeCalls<M>(s: State<M>, m: M): State<M>
    requires m in s.members
  {
    var r := s.members[m];
    if r.down then s else Put(s, m, r.(calls := Age(r.calls)))
  }

  /** The sort of the CLI command ls. */
  function Reorder<M>(s: State<M>, order: seq<M>): State<M> {
    if multiset(order) == multiset(s.active) then s.(active := order) else s
  }

  /** Shutdown of the whole cluster. */
  function Close<M>(s: State<M>): State<M> {
    State([], [],
      map m | m in s.members :: if m in s.active || m in s.pending then s.members[m].(down := true) else s.members[m],
      s.soft, s.relay)
  }

  // ------------------------------------------------------------- partition

  /** active holds exactly the online members that are not shut down, pending exactly the offline ones. */
  ghost predicate Partition<M>(s: State<M>) {
    && NoDup(s.active)
    && NoDup(s.pending)
    && (forall m :: m in s.active ==> m in s.members)
    && (forall m :: m in s.pending ==> m in s.members)
    && (forall m :: m in s.members ==> (m in s.active <==> s.members[m].online && !s.members[m].down))
    && (forall m :: m in s.members ==> (m in s.pending <==> !s.members[m].online && !s.members[m].down))
  }

  lemma AddMemberKeeps<M>(s: State<M>, m: M, r: Record)
    requires Partition(s) && m !in s.members && !r.down
    ensures Partition(AddMember(s, m, r))
  {
  }

  /** A change of a record that leaves online and down alone. */
  lemma PutKeeps<M>(s: State<M>, m: M, r: Record)
    requires Partition(s) && m in s.members
    requires r.online == s.members[m].online && r.down == s.members[m].down
    ensures Partition(Put(s, m, r))
  {
  }

  lemma GoOnlineKeeps<M>(s: State<M>, m: M, up: bool)
    requires Partition(s) && m in s.members
    ensures Partition(GoOnline(s, m, up))
  {
    RemoveFirstMembers(s.pending, m);
  }

  lemma GoOfflineKeeps<M>(s: State<M>, m: M)
    requires Partition(s) && m in s.members
    ensures Partition(GoOffline(s, m))
  {
    RemoveFirstMembers(s.active, m);
  }

  lemma DropActiveKeeps<M>(s: State<M>, m: M)
    requires Partition(s) && m in s.members && m !in s.pending
    ensures Partition(ShutDown(s.(active := RemoveFirst(s.active, m)), m))
  {
    RemoveFirstMembers(s.active, m);
  }

  lemma DropPendingKeeps<M>(s: State<M>, m: M)
    requires Partition(s) && m in s.members && m !in s.active
    ensures Partition(ShutDown(s.(pending := RemoveFirst(s.pending, m)), m))
  {
    RemoveFirstMembers(s.pending, m);
  }

  lemma BringDownKeeps<M>(s: State<M>, m: M)
    requires Partition(s) && m in s.members
    ensures Partition(BringDown(s, m))
  {
    var r := s.members[m];
    if m in s.active {
      DropActiveKeeps(s, m);
      PutKeeps(s, m, r.(status := DRAINING, watched := true));
    } else {
      DropPendingKeeps(s, m);
    }
  }

  lemma ActiveChangeKeeps<M>(s: State<M>, m: M, n: int)
    requires Partition(s) && m in s.members
    ensures Partition(ActiveChange(s, m, n)) && m in ActiveChange(s, m, n).members
  {
    if m in s.pending {
      DropPendingKeeps(s, m);
    } else {
      DropActiveKeeps(s, m);
    }
  }

  lemma ReportKeeps<M>(s: State<M>, m: M, n: int)
    requires Partition(s) && m in s.members
    ensures Partition(Report(s, m, n))
  {
    var r := s.members[m];
    var s1 := Put(s, m, r.(filtered := Filter(r.filtered, n)));
    PutKeeps(s, m, r.(filtered := Filter(r.filtered, n)));
    ActiveChangeKeeps(s1, m, n);
    var s2 := if r.sessions != n && r.watched then ActiveChange(s1, m, n) else s1;
    PutKeeps(s2, m, s2.members[m].(sessions := n));
  }

  lemma ReorderKeeps<M>(s: State<M>, order: seq<M>)
    requires Partition(s)
    ensures Partition(Reorder(s, order))
  {
    if multiset(order) == multiset(s.active) {
      PermutationMembers(s.active, order);
    }
  }

  /** A removed member stays out whatever its client reports later. */
  lemma LateCallbacksDoNotReturn<M>(s: State<M>, m: M, up: bool, n: int)
    requires Partition(s) && m in s.members && s.members[m].down
    ensures var a, b, c := GoOnline(s, m, up), GoOffline(s, m), Report(s, m, n);
      && a.active == s.active && a.pending == s.pending
      && b.active == s.active && b.pending == s.pending
      && c.active == s.active && c.pending == s.pending
      && a.members[m].down && b.members[m].down && c.members[m].down
  {
    RemoveAbsent(s.active, m);
    RemoveAbsent(s.pending, m);
  }

  /** Where a change of the online state takes a member, and what a repeated one does. */
  lemma MovesExactly<M>(s: State<M>, m: M, up: bool)
    requires Partition(s) && m in s.members
    ensures var t := GoOnline(s, m, up);
      && t.members == s.members[m := s.members[m].(online := s.members[m].online || up)]
      && t.active == (if m in s.pending && up then s.active + [m] else s.active)
      && t.pending == (if m in s.pending && up then RemoveFirst(s.pending, m) else s.pending)
    ensures var t := GoOffline(s, m);
      && t.members == s.members[m := s.members[m].(online := false)]
      && t.active == RemoveFirst(s.active, m)
      && t.pending == (if m in s.active then s.pending + [m] else s.pending)
  {
    if m !in s.active {
      RemoveAbsent(s.active, m);
    }
  }

  lemma ActiveChangeExactly<M>(s: State<M>, m: M, n: int)
    requires Partition(s) && m in s.members
    ensures var r, t := s.members[m], ActiveChange(s, m, n);
      if r.status == DRAINING && (r.calls.young == {} || n <= 0)
      then t.members == s.members[m := r.(down := true)]
        && t.active == RemoveFirst(s.active, m) && t.pending == RemoveFirst(s.pending, m)
      else t == s
  {
    if m !in s.active {
      RemoveAbsent(s.active, m);
    }
    if m !in s.pending {
      RemoveAbsent(s.pending, m);
    }
  }

  /** A draining member that the count n removes. */
  predicate Goes(r: Record, n: int) {
    n != r.sessions && r.watched && r.status == DRAINING && (r.calls.young == {} || n <= 0)
  }

  lemma ReportLists<M>(s: State<M>, m: M, n: int)
    requires Partition(s) && m in s.members
    ensures var r, t := s.members[m], Report(s, m, n);
      && t.active == (if Goes(r, n) then RemoveFirst(s.active, m) else s.active)
      && t.pending == (if Goes(r, n) then RemoveFirst(s.pending, m) else s.pending)
  {
    var r := s.members[m];
    PutKeeps(s, m, r.(filtered := Filter(r.filtered, n)));
    ActiveChangeExactly(Put(s, m, r.(filtered := Filter(r.filtered, n))), m, n);
  }

  lemma ActiveChangeRecord<M>(s: State<M>, m: M, n: int)
    requires m in s.members
    ensures var r := s.members[m];
      var goes := r.status == DRAINING && (r.calls.young == {} || n <= 0);
      ActiveChange(s, m, n).members == s.members[m := r.(down := r.down || goes)]
  {
  }

  lemma ReportRecord<M>(s: State<M>, m: M, n: int)
    requires m in s.members
    ensures var r, t := s.members[m], Report(s, m, n);
      t.members == s.members[m := r.(filtered := Filter(r.filtered, n), sessions := n, down := r.down || Goes(r, n))]
  {
    var r := s.members[m];
    var fed := r.(filtered := Filter(r.filtered, n));
    ActiveChangeRecord(Put(s, m, fed), m, n);
    var fin := fed.(sessions := n, down := r.down || Goes(r, n));
    assert s.members[m := fed][m := fin] == s.members[m := fin];
  }

  /** A heartbeat: the estimate moves half way to the count, the count is stored, and a draining member may go. */
  lemma ReportExactly<M>(s: State<M>, m: M, n: int)
    requires Partition(s) && m in s.members
    ensures var r, t := s.members[m], Report(s, m, n);
      && t.members == s.members[m := t.members[m]]
      && 2.0 * t.members[m].filtered == r.filtered + n as real
      && t.members[m] == r.(filtered := t.members[m].filtered, sessions := n, down := r.down || Goes(r, n))
      && t.active == (if Goes(r, n) then RemoveFirst(s.active, m) else s.active)
      && t.pending == (if Goes(r, n) then RemoveFirst(s.pending, m) else s.pending)
  {
    ReportLists(s, m, n);
    ReportRecord(s, m, n);
  }

  // ---------------------------------------------------------- what stays

  ghost predicate Listed<M>(s: State<M>, m: M) {
    m in s.active || m in s.pending
  }

  /** From s to t no member comes or returns, and each keeps its name and its calls. */
  ghost predicate Steady<M>(s: State<M>, t: State<M>) {
    && t.members.Keys == s.members.Keys
    && (forall m :: m in s.members ==>
          && t.members[m].name == s.members[m].name
          && t.members[m].calls == s.members[m].calls
          && (s.members[m].down ==> t.members[m].down)
          && (Listed(t, m) ==> Listed(s, m)))
  }

  lemma SteadyPut<M>(s: State<M>, m: M, r: Record)
    requires m in s.members
    requires r.name == s.members[m].name && r.calls == s.members[m].calls && (s.members[m].down ==> r.down)
    ensures Steady(s, Put(s, m, r))
  {
  }

  lemma SteadyLists<M>(s: State<M>, active: seq<M>, pending: seq<M>)
    requires forall m :: m in active || m in pending ==> Listed(s, m)
    ensures Steady(s, s.(active := active, pending := pending))
  {
  }

  lemma SteadyOn<M>(s: State<M>, t: State<M>, u: State<M>)
    requires Steady(s, t) && Steady(t, u)
    ensures Steady(s, u)
  {
  }

  lemma {:induction false} RemovedWereThere<M>(list: seq<M>, m: M)
    ensures forall x :: x in RemoveFirst(list, m) ==> x in list
  {
    if list != [] {
      RemovedWereThere(list[1..], m);
    }
  }

  lemma OnlineIsSteady<M>(s: State<M>, m: M, up: bool)
    requires m in s.members
    ensures Steady(s, GoOnline(s, m, up))
  {
    var r := s.members[m];
    var s1 := Put(s, m, r.(online := r.online || up));
    SteadyPut(s, m, r.(online := r.online || up));
    var t := MoveToActive(s1, m);
    RemovedWereThere(s.pending, m);
    SteadyLists(s1, t.active, t.pending);
    SteadyOn(s, s1, t);
  }

  lemma OfflineIsSteady<M>(s: State<M>, m: M)
    requires m in s.members
    ensures Steady(s, GoOffline(s, m))
  {
    var r := s.members[m];
    var s1 := if r.online then MoveToPending(s, m) else s;
    RemovedWereThere(s.active, m);
    SteadyLists(s, s1.active, s1.pending);
    SteadyPut(s1, m, r.(online := false));
    SteadyOn(s, s1, GoOffline(s, m));
  }

  lemma DropIsSteady<M>(s: State<M>, m: M)
    requires m in s.members
    ensures Steady(s, ShutDown(s.(active := RemoveFirst(s.active, m)), m))
    ensures Steady(s, ShutDown(s.(pending := RemoveFirst(s.pending, m)), m))
  {
    RemovedWereThere(s.active, m);
    RemovedWereThere(s.pending, m);
    var a, p := s.(active := RemoveFirst(s.active, m)), s.(pending := RemoveFirst(s.pending, m));
    SteadyLists(s, a.active, a.pending);
    SteadyLists(s, p.active, p.pending);
    SteadyPut(a, m, s.members[m].(down := true));
    SteadyPut(p, m, s.members[m].(down := true));
    SteadyOn(s, a, ShutDown(a, m));
    SteadyOn(s, p, ShutDown(p, m));
  }

  lemma BringDownIsSteady<M>(s: State<M>, m: M)
    requires m in s.members
    ensures Steady(s, BringDown(s, m))
  {
    DropIsSteady(s, m);
    SteadyPut(s, m, s.members[m].(status := DRAINING, watched := true));
  }

  lemma ActiveChangeIsSteady<M>(s: State<M>, m: M, n: int)
    requires m in s.members
    ensures Steady(s, ActiveChange(s, m, n)) && m in ActiveChange(s, m, n).members
  {
    DropIsSteady(s, m);
    SteadyLists(s, s.active, s.pending);
  }

  lemma ReportIsSteady<M>(s: State<M>, m: M, n: int)
    requires m in s.members
    ensures Steady(s, Report(s, m, n))
  {
    var r := s.members[m];
    var s1 := Put(s, m, r.(filtered := Filter(r.filtered, n)));
    SteadyPut(s, m, r.(filtered := Filter(r.filtered, n)));
    SteadyLists(s1, s1.active, s1.pending);
    ActiveChangeIsSteady(s1, m, n);
    var s2 := if r.sessions != n && r.watched then ActiveChange(s1, m, n) else s1;
    SteadyOn(s, s1, s2);
    SteadyPut(s2, m, s2.members[m].(sessions := n));
    SteadyOn(s, s2, Report(s, m, n));
  }

  lemma ReorderIsSteady<M>(s: State<M>, order: seq<M>)
    requires Partition(s)
    ensures Steady(s, Reorder(s, order))
  {
    if multiset(order) == multiset(s.active) {
      PermutationMembers(s.active, order);
      SteadyLists(s, order, s.pending);
    }
  }

  lemma CloseIsSteady<M>(s: State<M>)
    ensures Steady(s, Close(s))
  {
  }
}
