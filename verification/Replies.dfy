/**
  Reply accounting: every accepted command is answered once.

  A client connection is named by a number and carries one command. Sending a
  command to a member leaves a callback outstanding; the client library runs
  each callback once, in any order. The ledger keeps the outstanding callbacks,
  the boards of the broadcasts and the replies that were sent.
*/
module Replies {
  import opened Common
  import opened Scheduler
  import opened Membership
  import opened Routing
  import opened Runs
  import opened Ownership
  import Broadcast
  import Notify

  datatype Job =
    | Relaying(clim: nat)                // down_command with the member's reply
    | Ignoring(clim: nat)                // ignore_response
    | Merging(clim: nat, stats: bool)    // merge_results or merge_stats_results

  datatype Payload = AtOnce(answer: Answer) | FromMember(text: string) | Merged(final: Broadcast.Final)

  datatype Sent = Sent(clim: nat, payload: Payload)

  datatype Ledger = Ledger(
    jobs: multiset<Job>,
    boards: map<nat, Broadcast.Board>,
    sent: seq<Sent>,
    accepted: set<nat>,
    lost: set<nat>)            // commands given up after an error

  const Empty := Ledger(multiset{}, map[], [], {}, {})

  function Send(l: Ledger, clim: nat, p: Payload): Ledger {
    l.(sent := l.sent + [Sent(clim, p)])
  }

  function GiveUp(l: Ledger, clim: nat): Ledger {
    l.(lost := l.lost + {clim})
  }

  function AddJobs(l: Ledger, job: Job, n: nat): Ledger {
    l.(jobs := l.jobs[job := l.jobs[job] + n])
  }

  /** The commands up_command issues for one accepted command. */
  function Issue<M>(l: Ledger, clim: nat, kind: char, o: Outcome<M>): Ledger {
    var l1 := l.(accepted := l.accepted + {clim});
    match o
    case Answered(a) => Send(l1, clim, AtOnce(a))
    case Forwarded(_, _, early) =>
      if early then AddJobs(Send(l1, clim, AtOnce(Word("0"))), Ignoring(clim), 1)
      else AddJobs(l1, Relaying(clim), 1)
    case Spread(parts, of, stats) =>
      var l2 := l1.(boards := l1.boards[clim := Broadcast.NewBoard(kind, of, Broadcast.CodedResults())]);
      var l3 := AddJobs(l2, Merging(clim, stats), |parts|);
      if |parts| < of then GiveUp(l3, clim) else l3
    case Dropped => GiveUp(l1, clim)
  }

  function MergeReply(parses: string -> bool, b: Broadcast.Board, stats: bool, reply: Broadcast.StatsReply)
    : (r: (Broadcast.Board, Option<Broadcast.Final>))
    ensures r.0.bcount == b.bcount - 1
    ensures r.1.Some? <==> r.0.bcount <= 0
  {
    if stats then Broadcast.MergeStats(parses, b, reply) else Broadcast.Merge(b, reply.text)
  }

  /** One callback runs. */
  function Settle(parses: string -> bool, l: Ledger, job: Job, reply: Broadcast.StatsReply): Ledger {
    if job !in l.jobs then l
    else
      var l1 := l.(jobs := l.jobs[job := l.jobs[job] - 1]);
      match job
      case Relaying(clim) => Send(l1, clim, FromMember(reply.text))
      case Ignoring(_) => l1
      case Merging(clim, stats) =>
        if clim !in l.boards then l1
        else
          var (b, f) := MergeReply(parses, l.boards[clim], stats, reply);
          var l2 := l1.(boards := l1.boards[clim := b]);
          if f.Some? then Send(l2, clim, Merged(f.value)) else l2
  }

  function Sends(sent: seq<Sent>, clim: nat): nat {
    if sent == [] then 0
    else Sends(sent[..|sent| - 1], clim) + if sent[|sent| - 1].clim == clim then 1 else 0
  }

  function Parts(l: Ledger, c: nat): nat {
    l.jobs[Merging(c, true)] + l.jobs[Merging(c, false)]
  }

  /** What the ledger says about command c: replies sent, callbacks by kind, and the count of its board. */
  datatype Tally = Tally(accepted: bool, lost: bool, sends: nat, relaying: nat, ignoring: nat, parts: nat,
    board: Option<int>)

  function TallyOf(l: Ledger, c: nat): Tally {
    Tally(c in l.accepted, c in l.lost, Sends(l.sent, c), l.jobs[Relaying(c)], l.jobs[Ignoring(c)], Parts(l, c),
          if c in l.boards then Some(l.boards[c].bcount) else None)
  }

  /** Replies sent, plus the reply still owed by a callback or a board, make one; a lost command never gets one. */
  predicate Even(t: Tally) {
    && (t.lost ==> t.accepted)
    && (!t.accepted ==> t.sends == 0 && t.relaying == 0 && t.ignoring == 0 && t.parts == 0 && t.board.None?)
    && (t.board.None? ==> t.parts == 0)
    && (t.accepted && !t.lost ==>
          t.sends + t.relaying + (if t.parts > 0 then 1 else 0) == 1 && (t.board.Some? ==> t.board.value == t.parts))
    && (t.lost ==> t.sends == 0 && t.relaying == 0 && (t.board.Some? ==> t.board.value > t.parts))
  }

  predicate Balanced(l: Ledger, c: nat) {
    Even(TallyOf(l, c))
  }

  lemma SendCounts(l: Ledger, clim: nat, p: Payload, c: nat)
    ensures Sends(Send(l, clim, p).sent, c) == Sends(l.sent, c) + if c == clim then 1 else 0
  {
    assert Send(l, clim, p).sent[..|l.sent|] == l.sent;
  }

  lemma OtherTally<M>(l: Ledger, clim: nat, kind: char, o: Outcome<M>, c: nat)
    requires c != clim
    ensures TallyOf(Issue(l, clim, kind, o), c) == TallyOf(l, c)
  {
    match o
    case Answered(a) => SendCounts(l.(accepted := l.accepted + {clim}), clim, AtOnce(a), c);
    case Forwarded(_, _, _) => SendCounts(l.(accepted := l.accepted + {clim}), clim, AtOnce(Word("0")), c);
    case Spread(_, _, _) => OtherSpreadTally(l, clim, kind, o, c);
    case Dropped =>
  }

  lemma OtherSpreadTally<M>(l: Ledger, clim: nat, kind: char, o: Outcome<M>, c: nat)
    requires c != clim && o.Spread?
    ensures TallyOf(Issue(l, clim, kind, o), c) == TallyOf(l, c)
  {
  }

  /** What the dispatcher owes right after a command has been taken. */
  function Owed<M>(o: Outcome<M>): Tally {
    match o
    case Answered(_) => Tally(true, false, 1, 0, 0, 0, None)
    case Forwarded(_, _, early) => if early then Tally(true, false, 1, 0, 1, 0, None)
      else Tally(true, false, 0, 1, 0, 0, None)
    case Spread(parts, of, _) => Tally(true, |parts| < of, 0, 0, 0, |parts|, Some(of))
    case Dropped => Tally(true, true, 0, 0, 0, 0, None)
  }

  lemma IssueTally<M>(l: Ledger, clim: nat, kind: char, o: Outcome<M>)
    requires TallyOf(l, clim) == Tally(false, false, 0, 0, 0, 0, None)
    ensures TallyOf(Issue(l, clim, kind, o), clim) == Owed(o)
  {
    match o
    case Answered(a) => SendCounts(l.(accepted := l.accepted + {clim}), clim, AtOnce(a), clim);
    case Forwarded(_, _, _) => ForwardTally(l, clim, kind, o);
    case Spread(_, _, _) => SpreadTally(l, clim, kind, o);
    case Dropped =>
  }

  lemma ForwardTally<M>(l: Ledger, clim: nat, kind: char, o: Outcome<M>)
    requires TallyOf(l, clim) == Tally(false, false, 0, 0, 0, 0, None) && o.Forwarded?
    ensures TallyOf(Issue(l, clim, kind, o), clim) == Owed(o)
  {
    SendCounts(l.(accepted := l.accepted + {clim}), clim, AtOnce(Word("0")), clim);
  }

  lemma SpreadTally<M>(l: Ledger, clim: nat, kind: char, o: Outcome<M>)
    requires TallyOf(l, clim) == Tally(false, false, 0, 0, 0, 0, None) && o.Spread?
    ensures TallyOf(Issue(l, clim, kind, o), clim) == Owed(o)
  {
  }

  lemma IssueKeepsBalance<M>(l: Ledger, clim: nat, kind: char, o: Outcome<M>, c: nat)
    requires Balanced(l, c) && clim !in l.accepted
    requires o.Spread? ==> 0 < o.of && |o.parts| <= o.of
    ensures Balanced(Issue(l, clim, kind, o), c)
  {
    if c == clim {
      IssueTally(l, clim, kind, o);
    } else {
      OtherTally(l, clim, kind, o, c);
    }
  }

  lemma RelayTally(parses: string -> bool, l: Ledger, clim: nat, reply: Broadcast.StatsReply, c: nat)
    requires Relaying(clim) in l.jobs
    ensures var t := TallyOf(l, c);
      TallyOf(Settle(parses, l, Relaying(clim), reply), c) ==
        if c == clim then t.(sends := t.sends + 1, relaying := t.relaying - 1) else t
  {
    var l1 := l.(jobs := l.jobs[Relaying(clim) := l.jobs[Relaying(clim)] - 1]);
    SendCounts(l1, clim, FromMember(reply.text), c);
  }

  lemma IgnoreTally(parses: string -> bool, l: Ledger, clim: nat, reply: Broadcast.StatsReply, c: nat)
    requires Ignoring(clim) in l.jobs
    ensures var t := TallyOf(l, c);
      TallyOf(Settle(parses, l, Ignoring(clim), reply), c) == if c == clim then t.(ignoring := t.ignoring - 1) else t
  {
  }

  lemma MergeTally(parses: string -> bool, l: Ledger, clim: nat, stats: bool, reply: Broadcast.StatsReply, c: nat)
    requires Merging(clim, stats) in l.jobs && clim in l.boards
    ensures var t := TallyOf(l, c);
      var left := l.boards[clim].bcount - 1;
      TallyOf(Settle(parses, l, Merging(clim, stats), reply), c) ==
        if c != clim then t
        else t.(parts := t.parts - 1, board := Some(left), sends := if left <= 0 then t.sends + 1 else t.sends)
  {
    var job := Merging(clim, stats);
    var (b, f) := MergeReply(parses, l.boards[clim], stats, reply);
    var l2 := l.(jobs := l.jobs[job := l.jobs[job] - 1], boards := l.boards[clim := b]);
    if f.Some? {
      SendCounts(l2, clim, Merged(f.value), c);
    }
  }

  lemma SettleKeepsBalance(parses: string -> bool, l: Ledger, job: Job, reply: Broadcast.StatsReply, c: nat)
    requires Balanced(l, c)
    ensures Balanced(Settle(parses, l, job, reply), c)
  {
    if job in l.jobs {
      match job
      case Relaying(clim) => RelayTally(parses, l, clim, reply, c);
      case Ignoring(clim) => IgnoreTally(parses, l, clim, reply, c);
      case Merging(clim, stats) => if clim in l.boards { MergeTally(parses, l, clim, stats, reply, c); }
    }
  }

  // ---------------------------------------------------------------- system

  datatype System<M> = System(cluster: State<M>, ledger: Ledger)

  datatype Action<M> =
    | Change(e: Event<M>)                                                    // anything but a command
    | Accept(clim: nat, text: Option<Cmd>, reparses: bool, draw: Draw)       // None: the text does not parse
    | Callback(job: Job, reply: Broadcast.StatsReply)

  ghost function Next<M>(parses: string -> bool, s: System<M>, a: Action<M>): System<M>
    requires Partition(s.cluster)
  {
    match a
    case Change(e) => if e.Command? then s else System(Step(s.cluster, e), s.ledger)
    case Accept(clim, text, reparses, draw) =>
      if clim in s.ledger.accepted then s
      else (match text
        case None => System(s.cluster, GiveUp(s.ledger.(accepted := s.ledger.accepted + {clim}), clim))
        case Some(cmd) =>
          var (t, o) := Route(s.cluster, cmd, reparses, draw);
          System(t, Issue(s.ledger, clim, cmd.kind, o)))
    case Callback(job, reply) => System(s.cluster, Settle(parses, s.ledger, job, reply))
  }

  lemma NextKeepsPartition<M>(parses: string -> bool, s: System<M>, a: Action<M>)
    requires Partition(s.cluster)
    ensures Partition(Next(parses, s, a).cluster)
  {
    match a
    case Change(e) => StepKeepsPartition(s.cluster, e);
    case Accept(clim, text, reparses, draw) =>
      if text.Some? {
        RouteKeepsPartition(s.cluster, text.value, draw);
        RouteHasState(s.cluster, text.value, reparses, draw);
      }
    case Callback(_, _) =>
  }

  ghost function Execute<M>(parses: string -> bool, acts: seq<Action<M>>): (s: System<M>)
    ensures Partition(s.cluster)
  {
    if acts == [] then System(Fresh(), Empty)
    else
      var before := Execute(parses, acts[..|acts| - 1]);
      NextKeepsPartition(parses, before, acts[|acts| - 1]);
      Next(parses, before, acts[|acts| - 1])
  }

  lemma NextKeepsBalance<M>(parses: string -> bool, s: System<M>, a: Action<M>, c: nat)
    requires Partition(s.cluster) && Balanced(s.ledger, c)
    ensures Balanced(Next(parses, s, a).ledger, c)
  {
    match a
    case Change(_) =>
    case Callback(job, reply) => SettleKeepsBalance(parses, s.ledger, job, reply, c);
    case Accept(clim, text, reparses, draw) =>
      if text.Some? && clim !in s.ledger.accepted {
        var o := Route(s.cluster, text.value, reparses, draw).1;
        if o.Spread? {
          BroadcastReachesEveryActive(s.cluster, text.value, reparses, draw);
        }
        IssueKeepsBalance(s.ledger, clim, text.value.kind, o, c);
      }
  }

  lemma {:induction false} BalancedAlways<M>(parses: string -> bool, acts: seq<Action<M>>, c: nat)
    ensures Balanced(Execute(parses, acts).ledger, c)
  {
    if acts != [] {
      var before, a := acts[..|acts| - 1], acts[|acts| - 1];
      BalancedAlways(parses, before, c);
      NextKeepsBalance(parses, Execute(parses, before), a, c);
    }
  }

  /**
    Whatever the order of replies, a command is never answered twice, and once its callbacks have run it has
    been answered once unless it was given up.
  */
  lemma {:induction false} ExactlyOneReply<M>(parses: string -> bool, acts: seq<Action<M>>, c: nat)
    ensures var l := Execute(parses, acts).ledger;
      && Sends(l.sent, c) <= 1
      && (c in l.accepted && l.jobs[Relaying(c)] == 0 && Parts(l, c) == 0 ==>
          Sends(l.sent, c) == if c in l.lost then 0 else 1)
  {
    BalancedAlways(parses, acts, c);
  }

  /** The errors after which a parsed command gets no reply, readable when it arrives. */
  ghost predicate GivenUp<M>(s: State<M>, cmd: Cmd, reparses: bool, draw: Draw)
    requires Partition(s)
  {
    && s.active != [] && IsSession(cmd)
    && match Target(s, cmd)
       case Some(m) => cmd.kind != 'D' && m in s.members && DeliveryFails(s.members[m], s.relay, cmd, reparses)
       case None =>
         if IsNew(cmd) then
           match PickProxy(s, draw)
           case None => false
           case Some(m) => m in s.members && DeliveryFails(s.members[m], s.relay, cmd, reparses)
         else !reparses && exists m :: m in s.active && NeedsReparse(s.members[m], cmd)
  }

  lemma GivenUpSession<M>(s: State<M>, cmd: Cmd, reparses: bool, draw: Draw)
    requires Partition(s) && s.active != [] && IsSession(cmd)
    ensures var o := RouteSession(s, cmd, reparses, draw).1;
      GivenUp(s, cmd, reparses, draw) <==> o.Dropped? || (o.Spread? && |o.parts| < o.of)
  {
    TargetIsListed(s, cmd);
    PickIsListed(s, draw);
    match Target(s, cmd)
    case Some(m) => DeliverDropsExactly(s.members[m], m, s.relay, cmd, reparses);
    case None =>
      if IsNew(cmd) {
        if PickProxy(s, draw).Some? {
          var m := PickProxy(s, draw).value;
          DeliverDropsExactly(s.members[m], m, s.relay, cmd, reparses);
        }
      } else {
        SpreadParts(s, cmd, reparses);
      }
  }

  /** A command is lost exactly when its text does not parse or one of these errors occurs. */
  lemma LostExactly<M>(parses: string -> bool, s: System<M>, clim: nat, text: Option<Cmd>, reparses: bool, draw: Draw)
    requires Partition(s.cluster) && Balanced(s.ledger, clim) && clim !in s.ledger.accepted
    ensures clim in Next(parses, s, Accept(clim, text, reparses, draw)).ledger.lost <==>
      text.None? || GivenUp(s.cluster, text.value, reparses, draw)
  {
    if text.Some? {
      var cmd := text.value;
      if s.cluster.active != [] && IsSession(cmd) {
        GivenUpSession(s.cluster, cmd, reparses, draw);
      } else {
        SpreadParts(s.cluster, cmd, reparses);
      }
    }
  }

  /** Callbacks and other events lose nothing. */
  lemma OnlyAcceptLoses<M>(parses: string -> bool, s: System<M>, a: Action<M>)
    requires Partition(s.cluster) && !a.Accept?
    ensures Next(parses, s, a).ledger.lost == s.ledger.lost && Next(parses, s, a).ledger.accepted == s.ledger.accepted
  {
  }

  /** Once a command has been accepted, whether it is lost is settled. */
  lemma LossIsSettled<M>(parses: string -> bool, s: System<M>, a: Action<M>, c: nat)
    requires Partition(s.cluster) && c in s.ledger.accepted
    ensures c in Next(parses, s, a).ledger.accepted
    ensures c in Next(parses, s, a).ledger.lost <==> c in s.ledger.lost
  {
    if !a.Accept? {
      OnlyAcceptLoses(parses, s, a);
    }
  }

  lemma ExecuteStep<M>(parses: string -> bool, acts: seq<Action<M>>, i: nat)
    requires i < |acts|
    ensures Execute(parses, acts[..i + 1]) == Next(parses, Execute(parses, acts[..i]), acts[i])
  {
    assert acts[..i + 1][..i] == acts[..i];
  }

  lemma {:induction false} LossStaysSettled<M>(parses: string -> bool, acts: seq<Action<M>>, c: nat, i: nat)
    requires i <= |acts| && c in Execute(parses, acts[..i]).ledger.accepted
    ensures c in Execute(parses, acts).ledger.accepted
    ensures c in Execute(parses, acts).ledger.lost <==> c in Execute(parses, acts[..i]).ledger.lost
    decreases |acts| - i
  {
    if i == |acts| {
      assert acts[..i] == acts;
    } else {
      ExecuteStep(parses, acts, i);
      LossIsSettled(parses, Execute(parses, acts[..i]), acts[i], c);
      LossStaysSettled(parses, acts, c, i + 1);
    }
  }

  /** The command accepted at position i did not parse, or ran into one of the errors when it arrived. */
  ghost predicate GivenUpAt<M>(parses: string -> bool, acts: seq<Action<M>>, i: nat)
    requires i < |acts| && acts[i].Accept?
  {
    var a := acts[i];
    a.text.None? || GivenUp(Execute(parses, acts[..i]).cluster, a.text.value, a.reparses, a.draw)
  }

  lemma LostAtArrival<M>(parses: string -> bool, acts: seq<Action<M>>, i: nat)
    requires i < |acts| && acts[i].Accept? && acts[i].clim !in Execute(parses, acts[..i]).ledger.accepted
    ensures var l := Execute(parses, acts[..i + 1]).ledger;
      acts[i].clim in l.accepted && (acts[i].clim in l.lost <==> GivenUpAt(parses, acts, i))
  {
    var a, s := acts[i], Execute(parses, acts[..i]);
    BalancedAlways(parses, acts[..i], a.clim);
    LostExactly(parses, s, a.clim, a.text, a.reparses, a.draw);
    ExecuteStep(parses, acts, i);
    AcceptAccepts(parses, s, a);
  }

  lemma AcceptAccepts<M>(parses: string -> bool, s: System<M>, a: Action<M>)
    requires Partition(s.cluster) && a.Accept?
    ensures a.clim in Next(parses, s, a).ledger.accepted
  {
  }

  /**
    Over every run: once the callbacks of a command have run, it has been answered once, or not at all exactly
    when it was given up on arrival.
  */
  lemma {:induction false} AnsweredExactly<M>(parses: string -> bool, acts: seq<Action<M>>, i: nat)
    requires i < |acts| && acts[i].Accept? && acts[i].clim !in Execute(parses, acts[..i]).ledger.accepted
    ensures var l, c := Execute(parses, acts).ledger, acts[i].clim;
      l.jobs[Relaying(c)] == 0 && Parts(l, c) == 0 ==> Sends(l.sent, c) == if GivenUpAt(parses, acts, i) then 0 else 1
  {
    LostAtArrival(parses, acts, i);
    LossStaysSettled(parses, acts, acts[i].clim, i + 1);
    ExactlyOneReply(parses, acts, acts[i].clim);
  }

  // ------------------------------------------------- a command given up

  /** A cluster with a relay and one member, which supports notifications. */
  function RelayedSolo<M>(m: M, r: Record, relay: Relay): State<M> {
    State([m], [], map[m := r.(wdnt := true)], false, Some(relay))
  }

  function SettingUp<M>(m: M, r: Record, relay: Relay): seq<Action<M>> {
    [Change(Join(m, r)), Change(Detected(m, true)), Change(Relayed(Some(relay)))]
  }

  lemma DetectedThenRelayed<M>(m: M, r: Record, relay: Relay)
    requires r.online && !r.down
    ensures var s := Solo(m, r); var t := Step(s, Detected(m, true));
      Partition(s) && Partition(t) && Step(t, Relayed(Some(relay))) == RelayedSolo(m, r, relay)
  {
    assert Solo(m, r).members[m := r.(wdnt := true)] == map[m := r.(wdnt := true)];
  }

  lemma SetUp<M>(parses: string -> bool, m: M, r: Record, relay: Relay)
    requires ReadyToServe(r)
    ensures Execute(parses, SettingUp(m, r, relay)) == System(RelayedSolo(m, r, relay), Empty)
  {
    var acts := SettingUp(m, r, relay);
    assert acts[..3] == acts;
    ExecuteStep(parses, acts, 0);
    ExecuteStep(parses, acts, 1);
    ExecuteStep(parses, acts, 2);
    JoinEmpty(m, r);
    DetectedThenRelayed(m, r, relay);
  }

  lemma BareSignIsGivenUp<M>(m: M, r: Record, relay: Relay, cmd: Cmd, draw: Draw)
    requires ReadyToServe(r) && !r.isLocal
    requires IsNew(cmd) && cmd.notifyTag == "%" && cmd.notifySocket != ""
      && Notify.HasPrefix(cmd.notifySocket, relay.prefix)
    ensures Partition(RelayedSolo(m, r, relay)) && GivenUp(RelayedSolo(m, r, relay), cmd, true, draw)
  {
    var s := RelayedSolo(m, r, relay);
    OwnerIsFirst(s.active, s.members, cmd.callId);
    SoleReadyIsPicked(s, m, draw);
    assert Notify.QueryUnescape("%").None?;
  }

  lemma GivenUpLast<M>(parses: string -> bool, acts: seq<Action<M>>, i: nat)
    requires i + 1 == |acts| && acts[i].Accept? && acts[i].text.Some?
    requires var s := Execute(parses, acts[..i]);
      s.ledger == Empty && GivenUp(s.cluster, acts[i].text.value, acts[i].reparses, acts[i].draw)
    ensures GivenUpAt(parses, acts, i) && acts[i].clim in Execute(parses, acts).ledger.lost
  {
    assert acts[..i + 1] == acts;
    LostAtArrival(parses, acts, i);
  }

  /** Such errors do occur: a new session whose notify tag is a bare percent sign is given up. */
  lemma UndecodableTagIsGivenUp<M>(parses: string -> bool, m: M, r: Record, relay: Relay, clim: nat, cmd: Cmd,
                                   draw: Draw)
    requires ReadyToServe(r) && !r.isLocal
    requires IsNew(cmd) && cmd.notifyTag == "%" && cmd.notifySocket != ""
      && Notify.HasPrefix(cmd.notifySocket, relay.prefix)
    ensures var acts := SettingUp(m, r, relay) + [Accept(clim, Some(cmd), true, draw)];
      GivenUpAt(parses, acts, 3) && clim in Execute(parses, acts).ledger.lost
  {
    var acts := SettingUp(m, r, relay) + [Accept(clim, Some(cmd), true, draw)];
    assert acts[..3] == SettingUp(m, r, relay);
    SetUp(parses, m, r, relay);
    BareSignIsGivenUp(m, r, relay, cmd, draw);
    GivenUpLast(parses, acts, 3);
  }
}
