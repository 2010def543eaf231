/**
  Routing of one command from the signalling side (up_command): which members
  get it, with which text, and whether it is answered at once.

  A parsed command is a record. Whether the text rebuilt by the dispatcher
  parses again is an input of the step, `reparses`. Choosing a proxy for a new
  session takes a random draw as input.
*/
module Routing {
  import opened Common
  import opened Scheduler
  import opened Sessions
  import opened Membership
  import Notify

  datatype Cmd = Cmd(
    kind: char,
    callId: string,
    toTag: string,
    opts: string,
    notifySocket: Notify.Bytes,
    notifyTag: Notify.Bytes,
    localIP: string,
    destIP: string)

  datatype Answer = Word(text: string) | Totals(activeSessions: int)

  /** What the dispatcher does with a command before any member has replied. */
  datatype Outcome<M> =
    | Answered(answer: Answer)                               // replied at once, nothing sent to a member
    | Forwarded(to: M, out: Cmd, early: bool)                // early: "0" was replied, the reply is ignored
    | Spread(parts: seq<(M, Cmd)>, of: nat, stats: bool)     // sent to parts; the broadcaster waits for `of` replies
    | Dropped                                                // given up after an error, without a reply

  predicate IsSession(cmd: Cmd) {
    cmd.kind in "ULDPSRCQ"
  }

  predicate IsNew(cmd: Cmd) {
    cmd.kind == 'U' && cmd.toTag == ""
  }

  predicate KnownBy<M(==)>(members: map<M, Record>, m: M, c: string) {
    m in members && members[m].calls.Knows(c)
  }

  /** The first member of the list that recognises the call. */
  function Owner<M>(list: seq<M>, members: map<M, Record>, c: string): Option<M> {
    if list == [] then None
    else if KnownBy(members, list[0], c) then Some(list[0])
    else Owner(list[1..], members, c)
  }

  /** Online members are searched first; offline ones only for calls that are not new. */
  function Target<M>(s: State<M>, cmd: Cmd): Option<M> {
    var a := Owner(s.active, s.members, cmd.callId);
    if a.Some? || IsNew(cmd) then a else Owner(s.pending, s.members, cmd.callId)
  }

  function WithCalls<M>(s: State<M>, m: M, calls: CallMaps): State<M>
    requires m in s.members
  {
    Put(s, m, s.members[m].(calls := calls))
  }

  /** The members that may take a new session, in list order, with their effective weights. */
  function Candidates<M>(list: seq<M>, members: map<M, Record>): seq<Candidate<M>> {
    if list == [] then []
    else
      var m := list[0];
      var rest := Candidates(list[1..], members);
      if m in members && members[m].status == ACTIVE && members[m].online then
        [Candidate(m,
         EffectiveWeight(members[m].params.weight, CapUtil(members[m].filtered, members[m].params.capacity)))] + rest
      else rest
  }

  ghost function PickProxy<M>(s: State<M>, draw: Draw): Option<M> {
    Choice(Candidates(s.active, s.members), s.soft, draw)
  }

  function OnlineOf<M>(list: seq<M>, members: map<M, Record>): seq<M> {
    if list == [] then []
    else if list[0] in members && members[list[0]].online then [list[0]] + OnlineOf(list[1..], members)
    else OnlineOf(list[1..], members)
  }

  /** GetActiveSessions summed over the online members, skipping those that have not reported. */
  function SumSessions<M>(list: seq<M>, members: map<M, Record>): int {
    if list == [] then 0
    else
      var n := if list[0] in members then members[list[0]].sessions else -1;
      (if n < 0 then 0 else n) + SumSessions(list[1..], members)
  }

  const SelfSocket := "tcp:%%CC_SELF%%:"

  /** The cluster's own TCP port, where notifications are to be sent instead. */
  function OwnSocket(relay: Relay): Notify.Bytes {
    SelfSocket + relay.port
  }

  /** The notify rewriting for a command that goes to one member; None when the tag does not decode. */
  function NotifyRewrite(r: Record, relay: Option<Relay>, cmd: Cmd): Option<Cmd> {
    if IsUL(cmd.kind) && cmd.notifySocket != "" then
      if r.wdnt && relay.Some? && !r.isLocal && Notify.HasPrefix(cmd.notifySocket, relay.value.prefix) then
        match Notify.RewriteTag(relay.value.prefix, cmd.notifySocket, cmd.notifyTag)
        case None => None
        case Some(tag) => Some(cmd.(notifyTag := tag, notifySocket := OwnSocket(relay.value)))
      else if !r.isLocal then Some(cmd.(notifyTag := "", notifySocket := ""))
      else Some(cmd)
    else Some(cmd)
  }

  /** A member with a LAN address gets the command re-parsed and addressed to it. */
  predicate NeedsReparse(r: Record, cmd: Cmd) {
    IsUL(cmd.kind) && r.params.lan != ""
  }

  function LanRewrite(r: Record, cmd: Cmd, out: Cmd): Cmd {
    if NeedsReparse(r, cmd) then out.(localIP := r.params.lan, destIP := "") else out
  }

  function Deliver<M>(r: Record, m: M, relay: Option<Relay>, cmd: Cmd, reparses: bool): Outcome<M> {
    match NotifyRewrite(r, relay, cmd)
    case None => Dropped
    case Some(out) =>
      if NeedsReparse(r, cmd) && !reparses then Dropped else Forwarded(m, LanRewrite(r, cmd, out), false)
  }

  /** The command a broadcast sends out: a lookup is forced for a 'U' nobody knows. */
  function BroadcastForm(cmd: Cmd): Cmd {
    if cmd.kind == 'U' then cmd.(kind := 'L') else cmd
  }

  /** The send to one member of a broadcast, or none if its text does not parse again. */
  function OnePart<M>(m: M, r: Record, cmd: Cmd, reparses: bool): seq<(M, Cmd)> {
    if NeedsReparse(r, cmd) && !reparses then [] else [(m, LanRewrite(r, cmd, BroadcastForm(cmd)))]
  }

  /** The sends of a broadcast; the loop stops at the first member whose text does not parse again. */
  function SessionParts<M>(list: seq<M>, members: map<M, Record>, cmd: Cmd, reparses: bool): seq<(M, Cmd)> {
    if list == [] || list[0] !in members then []
    else
      var part := OnePart(list[0], members[list[0]], cmd, reparses);
      if part == [] then [] else part + SessionParts(list[1..], members, cmd, reparses)
  }

  function StatsParts<M>(list: seq<M>, cmd: Cmd): seq<(M, Cmd)> {
    if list == [] then []
    else [(list[0], if cmd.opts == "v" || cmd.opts == "V" then cmd.(opts := "") else cmd)] + StatsParts(list[1..], cmd)
  }

  /** The calls of the owner after a command of one of them. */
  function OwnedCalls(calls: CallMaps, cmd: Cmd): CallMaps {
    var touched := Touch(calls, cmd.callId);
    if cmd.kind == 'D' then Unbind(touched, cmd.callId) else touched
  }

  /** The state after a command of a call that member m owns. */
  function OwnedState<M>(s: State<M>, m: M, cmd: Cmd): State<M>
    requires m in s.members
  {
    WithCalls(s, m, OwnedCalls(s.members[m].calls, cmd))
  }

  /** The state after a new session: it is bound to the member that was picked. */
  function NewState<M>(s: State<M>, pick: Option<M>, cmd: Cmd): State<M>
    requires pick.Some? ==> pick.value in s.members
  {
    match pick
    case None => s
    case Some(m) => WithCalls(s, m, Bind(s.members[m].calls, cmd.callId, cmd.kind))
  }

  /** The state after any command; how the command is sent out does not matter for it. */
  ghost function RouteState<M>(s: State<M>, cmd: Cmd, draw: Draw): State<M>
    requires Partition(s)
  {
    if s.active == [] || !IsSession(cmd) then s
    else
      match Target(s, cmd)
      case Some(m) =>
        TargetIsListed(s, cmd);
        OwnedState(s, m, cmd)
      case None =>
        if IsNew(cmd) then
          PickIsListed(s, draw);
          NewState(s, PickProxy(s, draw), cmd)
        else s
  }

  function RouteOwned<M>(s: State<M>, m: M, cmd: Cmd, reparses: bool): (State<M>, Outcome<M>)
    requires m in s.members
  {
    var r := s.members[m];
    (OwnedState(s, m, cmd),
     if cmd.kind == 'D' then Forwarded(m, cmd, !r.online) else Deliver(r, m, s.relay, cmd, reparses))
  }

  function RouteNew<M>(s: State<M>, pick: Option<M>, cmd: Cmd, reparses: bool): (State<M>, Outcome<M>)
    requires pick.Some? ==> pick.value in s.members
  {
    (NewState(s, pick, cmd),
     match pick
     case None => Answered(Word("E998"))
     case Some(m) => Deliver(s.members[m], m, s.relay, cmd, reparses))
  }

  /** A call nobody knows: every online member is asked. */
  function RouteUnknown<M>(s: State<M>, cmd: Cmd, reparses: bool): Outcome<M> {
    var online := OnlineOf(s.active, s.members);
    Spread(SessionParts(online, s.members, cmd, reparses), |online|, false)
  }

  function RouteStats<M>(s: State<M>, cmd: Cmd): Outcome<M> {
    var online := OnlineOf(s.active, s.members);
    Spread(StatsParts(online, cmd), |online|, true)
  }

  ghost function RouteSession<M>(s: State<M>, cmd: Cmd, reparses: bool, draw: Draw): (State<M>, Outcome<M>)
    requires Partition(s)
  {
    match Target(s, cmd)
    case Some(m) =>
      TargetIsListed(s, cmd);
      RouteOwned(s, m, cmd, reparses)
    case None =>
      if IsNew(cmd) then
        PickIsListed(s, draw);
        RouteNew(s, PickProxy(s, draw), cmd, reparses)
      else (s, RouteUnknown(s, cmd, reparses))
  }

  ghost function Route<M>(s: State<M>, cmd: Cmd, reparses: bool, draw: Draw): (State<M>, Outcome<M>)
    requires Partition(s)
  {
    if s.active == [] then (s, Answered(Word("E999")))
    else if IsSession(cmd) then RouteSession(s, cmd, reparses, draw)
    else if cmd.kind == 'I' && cmd.opts == "b" then
      (s, Answered(Totals(SumSessions(OnlineOf(s.active, s.members), s.members))))
    else if cmd.kind == 'G' then (s, RouteStats(s, cmd))
    else (s, Forwarded(s.active[0], cmd, false))
  }

  // ---------------------------------------------------------------- lemmas

  lemma {:induction false} OwnerIsFirst<M>(list: seq<M>, members: map<M, Record>, c: string)
    ensures match Owner(list, members, c)
      case Some(m) => m in list && KnownBy(members, m, c)
      case None => forall m :: m in list ==> !KnownBy(members, m, c)
  {
    if list != [] {
      OwnerIsFirst(list[1..], members, c);
      assert list == [list[0]] + list[1..];
    }
  }

  /** The search returns the first member of the list that knows the call. */
  lemma {:induction false} OwnerPosition<M>(list: seq<M>, members: map<M, Record>, c: string, i: nat)
    requires i < |list| && KnownBy(members, list[i], c) && forall j :: 0 <= j < i ==> !KnownBy(members, list[j], c)
    ensures Owner(list, members, c) == Some(list[i])
  {
    if i > 0 {
      assert !KnownBy(members, list[0], c);
      OwnerPosition(list[1..], members, c, i - 1);
    }
  }

  lemma TargetIsListed<M>(s: State<M>, cmd: Cmd)
    requires Partition(s)
    ensures Target(s, cmd).Some? ==>
      Target(s, cmd).value in s.members && (Target(s, cmd).value in s.active || Target(s, cmd).value in s.pending)
      && KnownBy(s.members, Target(s, cmd).value, cmd.callId)
  {
    OwnerIsFirst(s.active, s.members, cmd.callId);
    OwnerIsFirst(s.pending, s.members, cmd.callId);
  }

  lemma {:induction false} CandidatesAreReady<M>(list: seq<M>, members: map<M, Record>, c: Candidate<M>)
    requires c in Candidates(list, members)
    ensures c.member in list && c.member in members
    ensures members[c.member].status == ACTIVE && members[c.member].online
    ensures c.weight == EffectiveWeight(members[c.member].params.weight,
                          CapUtil(members[c.member].filtered, members[c.member].params.capacity))
  {
    if c in Candidates(list[1..], members) {
      CandidatesAreReady(list[1..], members, c);
    }
  }

  lemma {:induction false} ReadyAreCandidates<M>(list: seq<M>, members: map<M, Record>, m: M)
    requires m in list && m in members && members[m].status == ACTIVE && members[m].online
    ensures exists c :: c in Candidates(list, members) && c.member == m
  {
    if list[0] == m {
      assert Candidates(list, members)[0].member == m;
    } else {
      ReadyAreCandidates(list[1..], members, m);
      var c :| c in Candidates(list[1..], members) && c.member == m;
      assert c in Candidates(list, members);
    }
  }

  lemma PickIsListed<M>(s: State<M>, draw: Draw)
    ensures PickProxy(s, draw).Some? ==>
      var m := PickProxy(s, draw).value;
      m in s.members && m in s.active && s.members[m].status == ACTIVE && s.members[m].online
  {
    var cs := Candidates(s.active, s.members);
    PicksSoundAndComplete(cs, s.soft, draw, PickProxy(s, draw));
    if PickProxy(s, draw).Some? {
      var c :| c in cs && c.member == PickProxy(s, draw).value;
      CandidatesAreReady(s.active, s.members, c);
    }
  }

  /** No proxy is picked exactly when none is ready, or none has room and the limit is hard. */
  lemma PickFailsExactly<M>(s: State<M>, draw: Draw)
    requires Partition(s)
    ensures PickProxy(s, draw).None? <==>
      (forall m :: m in s.active ==> s.members[m].status != ACTIVE)
      || (!s.soft && forall m :: m in s.active && s.members[m].status == ACTIVE ==>
            EffectiveWeight(s.members[m].params.weight,
              CapUtil(s.members[m].filtered, s.members[m].params.capacity)) <= 0.0)
  {
    var cs := Candidates(s.active, s.members);
    PicksSoundAndComplete(cs, s.soft, draw, PickProxy(s, draw));
    if cs != [] {
      CandidatesAreReady(s.active, s.members, cs[0]);
    }
    if SomePositive(cs) {
      var i :| 0 <= i < |cs| && cs[i].weight > 0.0;
      CandidatesAreReady(s.active, s.members, cs[i]);
    }
    forall m | m in s.active && s.members[m].status == ACTIVE
      ensures cs != []
      ensures EffectiveWeight(s.members[m].params.weight,
        CapUtil(s.members[m].filtered, s.members[m].params.capacity)) > 0.0
        ==> SomePositive(cs)
    {
      ReadyAreCandidates(s.active, s.members, m);
      var c :| c in cs && c.member == m;
      CandidatesAreReady(s.active, s.members, c);
    }
  }

  /** The candidates are collected in list order, each ready member with its effective weight. */
  lemma {:induction false} CandidatesInOrder<M>(a: seq<M>, b: seq<M>, members: map<M, Record>, m: M)
    ensures Candidates(a + b, members) == Candidates(a, members) + Candidates(b, members)
    ensures m in members && !(members[m].status == ACTIVE && members[m].online) ==> Candidates([m], members) == []
    ensures m in members && members[m].status == ACTIVE && members[m].online ==>
      var p := members[m].params;
      Candidates([m], members) == [Candidate(m, EffectiveWeight(p.weight, CapUtil(members[m].filtered, p.capacity)))]
    decreases |a|
  {
    assert [m][1..] == [];
    if a == [] {
      assert a + b == b;
    } else {
      assert (a + b)[1..] == a[1..] + b;
      CandidatesInOrder(a[1..], b, members, m);
    }
  }

  /** The total of the brief information reply adds up; a member that has not reported counts as nothing. */
  lemma {:induction false} SumSessionsAddsUp<M>(a: seq<M>, b: seq<M>, members: map<M, Record>, m: M)
    ensures SumSessions(a + b, members) == SumSessions(a, members) + SumSessions(b, members)
    ensures m in members && members[m].sessions >= 0 ==> SumSessions([m], members) == members[m].sessions
    ensures m in members && members[m].sessions < 0 ==> SumSessions([m], members) == 0
    decreases |a|
  {
    assert [m][1..] == [];
    if a == [] {
      assert a + b == b;
    } else {
      assert (a + b)[1..] == a[1..] + b;
      SumSessionsAddsUp(a[1..], b, members, m);
    }
  }

  lemma {:induction false} AllOnline<M>(list: seq<M>, members: map<M, Record>)
    requires forall m :: m in list ==> m in members && members[m].online
    ensures OnlineOf(list, members) == list
  {
    if list != [] {
      assert forall m :: m in list[1..] ==> m in list;
      AllOnline(list[1..], members);
    }
  }

  /** One more member of a broadcast, or its end. */
  lemma PartsFrom<M>(parts: seq<(M, Cmd)>, list: seq<M>, i: nat, members: map<M, Record>, cmd: Cmd, reparses: bool)
    requires i < |list| && list[i] in members
    ensures var part := OnePart(list[i], members[list[i]], cmd, reparses);
      parts + SessionParts(list[i..], members, cmd, reparses) ==
        if part == [] then parts else (parts + part) + SessionParts(list[i + 1..], members, cmd, reparses)
  {
    assert list[i..][0] == list[i] && list[i..][1..] == list[i + 1..];
  }

  lemma {:induction false} PartsLength<M>(list: seq<M>, members: map<M, Record>, cmd: Cmd, reparses: bool)
    requires forall m :: m in list ==> m in members
    ensures |SessionParts(list, members, cmd, reparses)| <= |list|
    ensures |SessionParts(list, members, cmd, reparses)| == |list| <==>
      reparses || forall m :: m in list ==> !NeedsReparse(members[m], cmd)
  {
    if list != [] {
      assert forall m :: m in list[1..] ==> m in list;
      assert forall m :: m in list ==> m == list[0] || m in list[1..];
      PartsLength(list[1..], members, cmd, reparses);
    }
  }

  lemma {:induction false} StatsPartsLength<M>(list: seq<M>, cmd: Cmd)
    ensures |StatsParts(list, cmd)| == |list|
  {
    if list != [] {
      StatsPartsLength(list[1..], cmd);
    }
  }

  lemma SpreadParts<M>(s: State<M>, cmd: Cmd, reparses: bool)
    requires Partition(s)
    ensures RouteUnknown(s, cmd, reparses).of == |s.active| >= |RouteUnknown(s, cmd, reparses).parts|
    ensures |RouteUnknown(s, cmd, reparses).parts| == |s.active| <==>
      reparses || forall m :: m in s.active ==> !NeedsReparse(s.members[m], cmd)
    ensures RouteStats(s, cmd).of == |s.active| == |RouteStats(s, cmd).parts|
  {
    AllOnline(s.active, s.members);
    PartsLength(s.active, s.members, cmd, reparses);
    StatsPartsLength(s.active, cmd);
  }

  lemma SpreadComesFrom<M>(s: State<M>, cmd: Cmd, reparses: bool, draw: Draw)
    requires Partition(s) && Route(s, cmd, reparses, draw).1.Spread?
    ensures s.active != []
    ensures var o := Route(s, cmd, reparses, draw).1; o == RouteUnknown(s, cmd, reparses) || o == RouteStats(s, cmd)
  {
    if s.active != [] && IsSession(cmd) {
      TargetIsListed(s, cmd);
      PickIsListed(s, draw);
    }
  }

  /** A broadcast is never empty: it waits for every active member, of which there is at least one. */
  lemma BroadcastReachesEveryActive<M>(s: State<M>, cmd: Cmd, reparses: bool, draw: Draw)
    requires Partition(s) && Route(s, cmd, reparses, draw).1.Spread?
    ensures var o := Route(s, cmd, reparses, draw).1;
      && o.of == |s.active| > 0
      && |o.parts| <= o.of
      && (|o.parts| == o.of <==> o.stats || reparses || forall m :: m in s.active ==> !NeedsReparse(s.members[m], cmd))
  {
    SpreadComesFrom(s, cmd, reparses, draw);
    SpreadParts(s, cmd, reparses);
  }

  /** The error that makes a delivery fail, readable before the command is sent. */
  predicate DeliveryFails(r: Record, relay: Option<Relay>, cmd: Cmd, reparses: bool) {
    || (IsUL(cmd.kind) && cmd.notifySocket != "" && r.wdnt && !r.isLocal && relay.Some?
        && Notify.HasPrefix(cmd.notifySocket, relay.value.prefix) && Notify.QueryUnescape(cmd.notifyTag).None?)
    || (NeedsReparse(r, cmd) && !reparses)
  }

  lemma DeliverDropsExactly<M>(r: Record, m: M, relay: Option<Relay>, cmd: Cmd, reparses: bool)
    ensures Deliver(r, m, relay, cmd, reparses).Dropped? <==> DeliveryFails(r, relay, cmd, reparses)
    ensures Deliver(r, m, relay, cmd, reparses).Dropped? || Deliver(r, m, relay, cmd, reparses).Forwarded?
  {
  }

  /** What is sent does not depend on the call maps. */
  lemma DeliverIgnoresCalls<M>(r: Record, calls: CallMaps, m: M, relay: Option<Relay>, cmd: Cmd, reparses: bool)
    ensures Deliver(r.(calls := calls), m, relay, cmd, reparses) == Deliver(r, m, relay, cmd, reparses)
  {
  }

  lemma WithCallsTwice<M>(s: State<M>, m: M, a: CallMaps, b: CallMaps)
    requires m in s.members
    ensures WithCalls(WithCalls(s, m, a), m, b) == WithCalls(s, m, b)
  {
  }

  /** The media addresses of a command for a member: a LAN address replaces the local one and clears the destination. */
  ghost predicate Addressed(r: Record, cmd: Cmd, out: Cmd) {
    if (cmd.kind == 'U' || cmd.kind == 'L') && r.params.lan != ""
    then out.localIP == r.params.lan && out.destIP == ""
    else out.localIP == cmd.localIP && out.destIP == cmd.destIP
  }

  /** The notification fields of a command for a member. */
  ghost predicate Notifying(r: Record, relay: Option<Relay>, cmd: Cmd, out: Cmd) {
    if (cmd.kind == 'U' || cmd.kind == 'L') && cmd.notifySocket != "" && !r.isLocal then
      if r.wdnt && relay.Some? && relay.value.prefix <= cmd.notifySocket then
        && out.notifySocket == "tcp:%%CC_SELF%%:" + relay.value.port
        && Notify.QueryUnescape(cmd.notifyTag).Some?
        && Notify.QueryUnescape(out.notifyTag) ==
             Some(cmd.notifySocket[|relay.value.prefix|..] + " " + Notify.QueryUnescape(cmd.notifyTag).value)
      else out.notifySocket == "" && out.notifyTag == ""
    else out.notifySocket == cmd.notifySocket && out.notifyTag == cmd.notifyTag
  }

  /** What is delivered to one member: the addresses and the notification as they have to be, all else as it came. */
  ghost predicate DeliveredAs(r: Record, relay: Option<Relay>, cmd: Cmd, out: Cmd) {
    && out.kind == cmd.kind && out.callId == cmd.callId && out.toTag == cmd.toTag && out.opts == cmd.opts
    && Addressed(r, cmd, out) && Notifying(r, relay, cmd, out)
  }

  lemma DeliveredCommand<M>(r: Record, m: M, relay: Option<Relay>, cmd: Cmd, reparses: bool)
    requires Deliver(r, m, relay, cmd, reparses).Forwarded?
    ensures var o := Deliver(r, m, relay, cmd, reparses);
      o.to == m && !o.early && DeliveredAs(r, relay, cmd, o.out)
  {
    if Notify.QueryUnescape(cmd.notifyTag).Some? && relay.Some? && relay.value.prefix <= cmd.notifySocket {
      var t := Notify.QueryUnescape(cmd.notifyTag).value;
      Notify.EscapeRoundTrip(cmd.notifySocket[|relay.value.prefix|..] + " " + t);
    }
  }

  /** A part of a session broadcast: a forced lookup for a 'U', addressed to its member, all else as it came. */
  ghost predicate AskedAs(r: Record, cmd: Cmd, out: Cmd) {
    && out.kind == (if cmd.kind == 'U' then 'L' else cmd.kind)
    && out.callId == cmd.callId && out.toTag == cmd.toTag && out.opts == cmd.opts
    && out.notifySocket == cmd.notifySocket && out.notifyTag == cmd.notifyTag
    && Addressed(r, cmd, out)
  }

  lemma {:induction false} SessionPartAt<M>(list: seq<M>, members: map<M, Record>, cmd: Cmd, reparses: bool, i: nat)
    requires i < |SessionParts(list, members, cmd, reparses)|
    ensures i < |list| && list[i] in members
    ensures var part := SessionParts(list, members, cmd, reparses)[i];
      part.0 == list[i] && AskedAs(members[list[i]], cmd, part.1)
  {
    if i > 0 {
      SessionPartAt(list[1..], members, cmd, reparses, i - 1);
    }
  }

  lemma {:induction false} StatsPartAt<M>(list: seq<M>, cmd: Cmd, i: nat)
    requires i < |list|
    ensures |StatsParts(list, cmd)| == |list|
    ensures StatsParts(list, cmd)[i] ==
      (list[i], cmd.(opts := if cmd.opts == "v" || cmd.opts == "V" then "" else cmd.opts))
  {
    StatsPartsLength(list, cmd);
    if i > 0 {
      StatsPartAt(list[1..], cmd, i - 1);
    }
  }

  lemma StatsGoToActive<M>(s: State<M>, cmd: Cmd, i: nat)
    requires Partition(s) && i < |RouteStats(s, cmd).parts|
    ensures i < |s.active| && RouteStats(s, cmd).parts[i] ==
      (s.active[i], cmd.(opts := if cmd.opts == "v" || cmd.opts == "V" then "" else cmd.opts))
  {
    AllOnline(s.active, s.members);
    StatsPartsLength(s.active, cmd);
    StatsPartAt(s.active, cmd, i);
  }

  lemma QuestionGoesToActive<M>(s: State<M>, cmd: Cmd, reparses: bool, i: nat)
    requires Partition(s) && i < |RouteUnknown(s, cmd, reparses).parts|
    ensures var part := RouteUnknown(s, cmd, reparses).parts[i];
      i < |s.active| && part.0 == s.active[i] && AskedAs(s.members[s.active[i]], cmd, part.1)
  {
    AllOnline(s.active, s.members);
    SessionPartAt(s.active, s.members, cmd, reparses, i);
  }

  lemma SpreadIs<M>(s: State<M>, cmd: Cmd, reparses: bool, draw: Draw)
    requires Partition(s) && Route(s, cmd, reparses, draw).1.Spread?
    ensures Route(s, cmd, reparses, draw).1 ==
      if cmd.kind == 'G' then RouteStats(s, cmd) else RouteUnknown(s, cmd, reparses)
  {
    TargetIsListed(s, cmd);
    PickIsListed(s, draw);
  }

  /** Part i of a broadcast goes to the active member i, with the command in the form that is due to it. */
  lemma BroadcastGoesToActive<M>(s: State<M>, cmd: Cmd, reparses: bool, draw: Draw, i: nat)
    requires Partition(s) && Route(s, cmd, reparses, draw).1.Spread? && i < |Route(s, cmd, reparses, draw).1.parts|
    ensures var o := Route(s, cmd, reparses, draw).1;
      && i < |s.active| && o.parts[i].0 == s.active[i]
      && (o.stats <==> cmd.kind == 'G')
      && (o.stats ==> o.parts[i].1 == cmd.(opts := if cmd.opts == "v" || cmd.opts == "V" then "" else cmd.opts))
      && (!o.stats ==> AskedAs(s.members[s.active[i]], cmd, o.parts[i].1))
  {
    SpreadIs(s, cmd, reparses, draw);
    if cmd.kind == 'G' {
      StatsGoToActive(s, cmd, i);
    } else {
      QuestionGoesToActive(s, cmd, reparses, i);
    }
  }

  /** When a broadcast is made: for statistics, and for a call that no member knows unless it opens a new session. */
  lemma BroadcastExactly<M>(s: State<M>, cmd: Cmd, reparses: bool, draw: Draw)
    requires Partition(s)
    ensures Route(s, cmd, reparses, draw).1.Spread? <==>
      s.active != [] && (cmd.kind == 'G' || (cmd.kind in "ULDPSRCQ" && !(cmd.kind == 'U' && cmd.toTag == "")
        && forall m :: m in s.active || m in s.pending ==> !KnownBy(s.members, m, cmd.callId)))
  {
    TargetIsListed(s, cmd);
    PickIsListed(s, draw);
    OwnerIsFirst(s.active, s.members, cmd.callId);
    OwnerIsFirst(s.pending, s.members, cmd.callId);
  }

  /** The commands that are answered at once, and those that are no session commands. */
  lemma AtOnceExactly<M>(s: State<M>, cmd: Cmd, reparses: bool, draw: Draw)
    requires Partition(s)
    ensures var o := Route(s, cmd, reparses, draw).1;
      && (s.active == [] ==> o == Answered(Word("E999")))
      && (s.active != [] && cmd.kind == 'U' && cmd.toTag == "" && PickProxy(s, draw).None? ==>
            (forall m :: m in s.active ==> !KnownBy(s.members, m, cmd.callId)) ==> o == Answered(Word("E998")))
      && (s.active != [] && cmd.kind == 'I' && cmd.opts == "b" ==>
            o == Answered(Totals(SumSessions(s.active, s.members))))
      && (s.active != [] && cmd.kind !in "ULDPSRCQG" && !(cmd.kind == 'I' && cmd.opts == "b") ==>
            o == Forwarded(s.active[0], cmd, false))
  {
    TargetIsListed(s, cmd);
    PickIsListed(s, draw);
    OwnerIsFirst(s.active, s.members, cmd.callId);
    AllOnline(s.active, s.members);
  }

  /** A new session that no online member knows goes to the member that is picked, and is bound to it. */
  lemma NewSessionGoesToPick<M>(s: State<M>, cmd: Cmd, reparses: bool, draw: Draw, m: M)
    requires Partition(s) && PickProxy(s, draw) == Some(m)
    requires cmd.kind == 'U' && cmd.toTag == "" && forall x :: x in s.active ==> !KnownBy(s.members, x, cmd.callId)
    ensures m in s.active && m in s.members
    ensures var (t, o) := Route(s, cmd, reparses, draw);
      && KnownBy(t.members, m, cmd.callId)
      && if DeliveryFails(s.members[m], s.relay, cmd, reparses) then o.Dropped?
         else o.Forwarded? && o.to == m && !o.early && DeliveredAs(s.members[m], s.relay, cmd, o.out)
  {
    PickIsListed(s, draw);
    OwnerIsFirst(s.active, s.members, cmd.callId);
    DeliverDropsExactly(s.members[m], m, s.relay, cmd, reparses);
    if !DeliveryFails(s.members[m], s.relay, cmd, reparses) {
      DeliveredCommand(s.members[m], m, s.relay, cmd, reparses);
    }
  }

  /** The member picked for a new session is the one that the draw selects among those with room. */
  lemma PickedByDraw<M>(s: State<M>, draw: Draw, m: M)
    requires Positive(Candidates(s.active, s.members)) != []
    ensures var a := Positive(Candidates(s.active, s.members));
      PickProxy(s, draw) == Some(m) <==> exists k :: Draws(a, k, draw) && a[k].member == m
  {
    var cs := Candidates(s.active, s.members);
    DrawDecides(cs, s.soft, draw, PickProxy(s, draw));
    var a := Positive(cs);
    if exists k :: Draws(a, k, draw) && a[k].member == m {
      var k :| Draws(a, k, draw) && a[k].member == m;
      DrawDecides(cs, s.soft, draw, Some(m));
      PicksUnique(cs, s.soft, draw, Some(m), PickProxy(s, draw));
    }
  }

  /** A forwarded session command can be turned back by the relay, for every socket without a space after the prefix. */
  lemma ForwardedNotifyIsTransparent<M>(r: Record, m: M, relay: Relay, cmd: Cmd, reparses: bool)
    requires Deliver(r, m, Some(relay), cmd, reparses).Forwarded?
    requires IsUL(cmd.kind) && cmd.notifySocket != "" && r.wdnt && !r.isLocal
    requires Notify.HasPrefix(cmd.notifySocket, relay.prefix)
    ensures var out := Deliver(r, m, Some(relay), cmd, reparses).out;
      && out.notifySocket == OwnSocket(relay)
      && Notify.QueryUnescape(out.notifyTag).Some?
      && (Notify.Receive(relay.prefix, Notify.QueryUnescape(out.notifyTag).value)
            == Some(Notify.Delivery(cmd.notifySocket, Notify.QueryUnescape(cmd.notifyTag).value))
          <==> ' ' !in cmd.notifySocket[|relay.prefix|..])
  {
    Notify.RewriteIsTransparent(relay.prefix, cmd.notifySocket, cmd.notifyTag);
  }

  ghost predicate SameButCalls<M>(s: State<M>, t: State<M>) {
    && t == s.(members := t.members)
    && t.members.Keys == s.members.Keys
    && forall m :: m in s.members ==> t.members[m] == s.members[m].(calls := t.members[m].calls)
  }

  lemma CallsChange<M>(s: State<M>, m: M, calls: CallMaps)
    requires m in s.members
    ensures SameButCalls(s, WithCalls(s, m, calls))
  {
  }

  /** A command changes nothing but the call map of one member. */
  lemma RouteChangesOnlyCalls<M>(s: State<M>, cmd: Cmd, draw: Draw)
    requires Partition(s)
    ensures SameButCalls(s, RouteState(s, cmd, draw))
  {
    if s.active != [] && IsSession(cmd) {
      TargetIsListed(s, cmd);
      PickIsListed(s, draw);
      var target, pick := Target(s, cmd), PickProxy(s, draw);
      if target.Some? {
        CallsChange(s, target.value, OwnedCalls(s.members[target.value].calls, cmd));
      } else if pick.Some? {
        CallsChange(s, pick.value, Bind(s.members[pick.value].calls, cmd.callId, cmd.kind));
      }
    }
  }

  lemma RouteKeepsPartition<M>(s: State<M>, cmd: Cmd, draw: Draw)
    requires Partition(s)
    ensures Partition(RouteState(s, cmd, draw))
  {
    RouteChangesOnlyCalls(s, cmd, draw);
  }

  /** The state is the same whatever happens to the text that is sent out. */
  lemma RouteHasState<M>(s: State<M>, cmd: Cmd, reparses: bool, draw: Draw)
    requires Partition(s)
    ensures Route(s, cmd, reparses, draw).0 == RouteState(s, cmd, draw)
  {
    if s.active != [] && IsSession(cmd) {
      TargetIsListed(s, cmd);
      PickIsListed(s, draw);
    }
  }
}
