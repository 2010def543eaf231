/**
  What the one reply to a command says, over every run: the answer given at
  once, the text of the member that got the command, or the verdict over the
  replies to its own broadcast. Replies to other commands do not enter.
*/
module ReplyTexts {
  import opened Common
  import opened Scheduler
  import opened Membership
  import opened Routing
  import opened Runs
  import opened Replies
  import opened Broadcast

  /** The replies sent to command c, in order. */
  function Payloads(sent: seq<Sent>, c: nat): seq<Payload> {
    if sent == [] then []
    else
      var last := sent[|sent| - 1];
      Payloads(sent[..|sent| - 1], c) + if last.clim == c then [last.payload] else []
  }

  lemma PayloadsAfter(sent: seq<Sent>, x: Sent, c: nat)
    ensures Payloads(sent + [x], c) == Payloads(sent, c) + if x.clim == c then [x.payload] else []
  {
    assert (sent + [x])[..|sent|] == sent;
  }

  lemma {:induction false} PayloadsCounted(sent: seq<Sent>, c: nat)
    ensures |Payloads(sent, c)| == Sends(sent, c)
  {
    if sent != [] {
      PayloadsCounted(sent[..|sent| - 1], c);
    }
  }

  /** What the replies of the members to one callback of command c were, in order. */
  function Replied<M>(acts: seq<Action<M>>, job: Job): seq<StatsReply> {
    if acts == [] then []
    else
      var a := acts[|acts| - 1];
      Replied(acts[..|acts| - 1], job) + if a.Callback? && a.job == job then [a.reply] else []
  }

  lemma RepliedAfter<M>(acts: seq<Action<M>>, a: Action<M>, job: Job)
    ensures Replied(acts + [a], job) ==
      if a.Callback? && a.job == job then Replied(acts, job) + [a.reply] else Replied(acts, job)
  {
    assert (acts + [a])[..|acts|] == acts;
    assert Replied(acts, job) + [] == Replied(acts, job);
  }

  function Texts(rs: seq<StatsReply>): seq<string> {
    seq(|rs|, i requires 0 <= i < |rs| => rs[i].text)
  }

  // ----------------------------------------------- one command's own part

  /** The part of the ledger that belongs to one command. */
  datatype Own = Own(relaying: nat, asked: nat, counted: nat, board: Option<Board>, sent: seq<Payload>)

  function OwnOf(l: Ledger, c: nat): Own {
    Own(l.jobs[Relaying(c)], l.jobs[Merging(c, false)], l.jobs[Merging(c, true)],
        if c in l.boards then Some(l.boards[c]) else None, Payloads(l.sent, c))
  }

  const Nothing := Own(0, 0, 0, None, [])

  function SentOn(own: Own, f: Option<Final>): seq<Payload> {
    own.sent + match f case None => [] case Some(v) => [Merged(v)]
  }

  lemma SendOwn(l: Ledger, clim: nat, p: Payload, c: nat)
    ensures OwnOf(Send(l, clim, p), c) ==
      OwnOf(l, c).(sent := OwnOf(l, c).sent + if clim == c then [p] else [])
  {
    PayloadsAfter(l.sent, Sent(clim, p), c);
  }

  lemma OtherIssueOwn<M>(l: Ledger, clim: nat, kind: char, o: Outcome<M>, c: nat)
    requires c != clim
    ensures OwnOf(Issue(l, clim, kind, o), c) == OwnOf(l, c)
  {
    var l1 := l.(accepted := l.accepted + {clim});
    match o
    case Answered(a) => SendOwn(l1, clim, AtOnce(a), c);
    case Forwarded(_, _, _) => SendOwn(l1, clim, AtOnce(Word("0")), c);
    case Spread(_, _, _) =>
    case Dropped =>
  }

  lemma IssueOwn<M>(l: Ledger, c: nat, kind: char, o: Outcome<M>)
    requires OwnOf(l, c) == Nothing
    ensures OwnOf(Issue(l, c, kind, o), c) ==
      match o
      case Answered(a) => Nothing.(sent := [AtOnce(a)])
      case Forwarded(_, _, early) => if early then Nothing.(sent := [AtOnce(Word("0"))]) else Nothing.(relaying := 1)
      case Spread(parts, of, stats) =>
        Own(0, if stats then 0 else |parts|, if stats then |parts| else 0,
            Some(NewBoard(kind, of, CodedResults())), [])
      case Dropped => Nothing
  {
    var l1 := l.(accepted := l.accepted + {c});
    match o
    case Answered(a) => SendOwn(l1, c, AtOnce(a), c);
    case Forwarded(_, _, _) => SendOwn(l1, c, AtOnce(Word("0")), c);
    case Spread(_, _, _) =>
    case Dropped =>
  }

  lemma OtherRelayOwn(parses: string -> bool, l: Ledger, clim: nat, reply: StatsReply, c: nat)
    requires clim != c && Relaying(clim) in l.jobs
    ensures OwnOf(Settle(parses, l, Relaying(clim), reply), c) == OwnOf(l, c)
  {
    SendOwn(l.(jobs := l.jobs[Relaying(clim) := l.jobs[Relaying(clim)] - 1]), clim, FromMember(reply.text), c);
  }

  lemma OtherMergeOwn(parses: string -> bool, l: Ledger, clim: nat, stats: bool, reply: StatsReply, c: nat)
    requires clim != c && Merging(clim, stats) in l.jobs && clim in l.boards
    ensures OwnOf(Settle(parses, l, Merging(clim, stats), reply), c) == OwnOf(l, c)
  {
    var job := Merging(clim, stats);
    var (b, f) := MergeReply(parses, l.boards[clim], stats, reply);
    if f.Some? {
      SendOwn(l.(jobs := l.jobs[job := l.jobs[job] - 1], boards := l.boards[clim := b]), clim, Merged(f.value), c);
    }
  }

  lemma OtherSettleOwn(parses: string -> bool, l: Ledger, job: Job, reply: StatsReply, c: nat)
    requires job.clim != c
    ensures OwnOf(Settle(parses, l, job, reply), c) == OwnOf(l, c)
  {
    if job in l.jobs {
      match job
      case Relaying(clim) => OtherRelayOwn(parses, l, clim, reply, c);
      case Ignoring(_) =>
      case Merging(clim, stats) => if clim in l.boards { OtherMergeOwn(parses, l, clim, stats, reply, c); }
    }
  }

  /** The text of the member is passed on as it is. */
  lemma RelayOwn(parses: string -> bool, l: Ledger, c: nat, reply: StatsReply)
    ensures var own := OwnOf(l, c);
      OwnOf(Settle(parses, l, Relaying(c), reply), c) ==
        if own.relaying == 0 then own
        else own.(relaying := own.relaying - 1, sent := own.sent + [FromMember(reply.text)])
  {
    if Relaying(c) in l.jobs {
      var l1 := l.(jobs := l.jobs[Relaying(c) := l.jobs[Relaying(c)] - 1]);
      SendOwn(l1, c, FromMember(reply.text), c);
    }
  }

  /** The ledger after a reply to a broadcast, once it has been merged. */
  function AfterMerge(l: Ledger, c: nat, stats: bool, b: Board, f: Option<Final>): Ledger
    requires Merging(c, stats) in l.jobs
  {
    var job := Merging(c, stats);
    var l2 := l.(jobs := l.jobs[job := l.jobs[job] - 1], boards := l.boards[c := b]);
    if f.Some? then Send(l2, c, Merged(f.value)) else l2
  }

  lemma SettleMerges(parses: string -> bool, l: Ledger, c: nat, stats: bool, reply: StatsReply)
    requires Merging(c, stats) in l.jobs && c in l.boards
    ensures var (b, f) := MergeReply(parses, l.boards[c], stats, reply);
      Settle(parses, l, Merging(c, stats), reply) == AfterMerge(l, c, stats, b, f)
  {
  }

  lemma AfterMergeOwn(l: Ledger, c: nat, stats: bool, b: Board, f: Option<Final>)
    requires Merging(c, stats) in l.jobs
    ensures var own := OwnOf(l, c);
      OwnOf(AfterMerge(l, c, stats, b, f), c) ==
        Own(own.relaying, if stats then own.asked else own.asked - 1, if stats then own.counted - 1 else own.counted,
            Some(b), SentOn(own, f))
  {
    if f.Some? {
      var job := Merging(c, stats);
      SendOwn(l.(jobs := l.jobs[job := l.jobs[job] - 1], boards := l.boards[c := b]), c, Merged(f.value), c);
    }
  }

  lemma AskOwn(parses: string -> bool, l: Ledger, c: nat, reply: StatsReply)
    requires OwnOf(l, c).board.Some?
    ensures var own := OwnOf(l, c);
      var (b, f) := Merge(own.board.value, reply.text);
      OwnOf(Settle(parses, l, Merging(c, false), reply), c) ==
        if own.asked == 0 then own else own.(asked := own.asked - 1, board := Some(b), sent := SentOn(own, f))
  {
    if Merging(c, false) in l.jobs {
      var (b, f) := Merge(l.boards[c], reply.text);
      SettleMerges(parses, l, c, false, reply);
      AfterMergeOwn(l, c, false, b, f);
    }
  }

  lemma CountOwn(parses: string -> bool, l: Ledger, c: nat, reply: StatsReply)
    requires OwnOf(l, c).board.Some?
    ensures var own := OwnOf(l, c);
      var (b, f) := MergeStats(parses, own.board.value, reply);
      OwnOf(Settle(parses, l, Merging(c, true), reply), c) ==
        if own.counted == 0 then own else own.(counted := own.counted - 1, board := Some(b), sent := SentOn(own, f))
  {
    if Merging(c, true) in l.jobs {
      var (b, f) := MergeStats(parses, l.boards[c], reply);
      SettleMerges(parses, l, c, true, reply);
      AfterMergeOwn(l, c, true, b, f);
    }
  }

  // ---------------------------------------------------------------- merges

  lemma Regroup(a: seq<Final>, b: seq<Final>, f: Option<Final>)
    ensures var c := match f case None => [] case Some(v) => [v];
      a + (b + c) == (a + b) + c && c + [] == c && [] + c == c && (if f.Some? then [f.value] else []) == c
  {
  }

  lemma {:induction false} MergeOneMore(b: Board, rs: seq<string>, r: string)
    ensures var (b1, fs) := MergeAll(b, rs);
      var (b2, f) := Merge(b1, r);
      MergeAll(b, rs + [r]) == (b2, fs + match f case None => [] case Some(v) => [v])
    decreases |rs|
  {
    if rs == [] {
      assert rs + [r] == [r] && [r][1..] == [];
      Regroup([], [], Merge(b, r).1);
    } else {
      assert (rs + [r])[1..] == rs[1..] + [r];
      var (b0, f0) := Merge(b, rs[0]);
      MergeOneMore(b0, rs[1..], r);
      var (b1, fs) := MergeAll(b0, rs[1..]);
      Regroup(if f0.Some? then [f0.value] else [], fs, Merge(b1, r).1);
    }
  }

  lemma {:induction false} MergeOneMoreStats(parses: string -> bool, b: Board, rs: seq<StatsReply>, r: StatsReply)
    ensures var (b1, fs) := MergeAllStats(parses, b, rs);
      var (b2, f) := MergeStats(parses, b1, r);
      MergeAllStats(parses, b, rs + [r]) == (b2, fs + match f case None => [] case Some(v) => [v])
    decreases |rs|
  {
    if rs == [] {
      assert rs + [r] == [r] && [r][1..] == [];
      Regroup([], [], MergeStats(parses, b, r).1);
    } else {
      assert (rs + [r])[1..] == rs[1..] + [r];
      var (b0, f0) := MergeStats(parses, b, rs[0]);
      MergeOneMoreStats(parses, b0, rs[1..], r);
      var (b1, fs) := MergeAllStats(parses, b0, rs[1..]);
      Regroup(if f0.Some? then [f0.value] else [], fs, MergeStats(parses, b1, r).1);
    }
  }

  /** Before the last reply nothing is sent. */
  lemma {:induction false} NoAnswerYet(b: Board, rs: seq<string>)
    requires |rs| < b.bcount
    ensures MergeAll(b, rs).1 == []
    decreases |rs|
  {
    if rs != [] {
      NoAnswerYet(Merge(b, rs[0]).0, rs[1..]);
    }
  }

  lemma {:induction false} NoAnswerYetStats(parses: string -> bool, b: Board, rs: seq<StatsReply>)
    requires |rs| < b.bcount
    ensures MergeAllStats(parses, b, rs).1 == []
    decreases |rs|
  {
    if rs != [] {
      NoAnswerYetStats(parses, MergeStats(parses, b, rs[0]).0, rs[1..]);
    }
  }

  // ------------------------------------------------------------- histories

  function MergedAll(fs: seq<Final>): seq<Payload> {
    seq(|fs|, i requires 0 <= i < |fs| => Merged(fs[i]))
  }

  function Min(a: nat, b: nat): nat {
    if a < b then a else b
  }

  /** The part of command c after it was accepted with outcome o, and the actions `later` came after that. */
  ghost predicate Tells<M>(parses: string -> bool, own: Own, c: nat, kind: char, o: Outcome<M>, later: seq<Action<M>>) {
    match o
    case Answered(a) => own == Nothing.(sent := [AtOnce(a)])
    case Dropped => own == Nothing
    case Forwarded(_, _, early) =>
      var r := Replied(later, Relaying(c));
      own == if early then Nothing.(sent := [AtOnce(Word("0"))])
             else if r == [] then Nothing.(relaying := 1)
             else Nothing.(sent := [FromMember(r[0].text)])
    case Spread(parts, of, stats) =>
      var b := NewBoard(kind, of, CodedResults());
      var all := Replied(later, Merging(c, stats));
      var n := Min(|all|, |parts|);
      var merged := if stats then MergeAllStats(parses, b, all[..n]) else MergeAll(b, Texts(all[..n]));
      var (asked, counted) := if stats then (0, |parts| - n) else (|parts| - n, 0);
      own == Own(0, asked, counted, Some(merged.0), MergedAll(merged.1))
  }

  /** An action that is none of the callbacks of c changes nothing for c. */
  ghost predicate Concerns<M>(a: Action<M>, c: nat) {
    a.Callback? && a.job.clim == c
  }

  lemma OtherActionOwn<M>(parses: string -> bool, s: System<M>, a: Action<M>, c: nat)
    requires Partition(s.cluster) && c in s.ledger.accepted && !Concerns(a, c)
    ensures OwnOf(Next(parses, s, a).ledger, c) == OwnOf(s.ledger, c)
  {
    match a
    case Change(_) =>
    case Callback(job, reply) => OtherSettleOwn(parses, s.ledger, job, reply, c);
    case Accept(clim, text, reparses, draw) =>
      if clim != c && text.Some? && clim !in s.ledger.accepted {
        OtherIssueOwn(s.ledger, clim, text.value.kind, Route(s.cluster, text.value, reparses, draw).1, c);
      }
  }

  lemma OtherActionTells<M>(parses: string -> bool, own: Own, c: nat, kind: char, o: Outcome<M>,
                            later: seq<Action<M>>, a: Action<M>)
    requires Tells(parses, own, c, kind, o, later) && !Concerns(a, c)
    ensures Tells(parses, own, c, kind, o, later + [a])
  {
    RepliedAfter(later, a, Relaying(c));
    RepliedAfter(later, a, Merging(c, true));
    RepliedAfter(later, a, Merging(c, false));
  }

  lemma RelayTells<M>(parses: string -> bool, l: Ledger, c: nat, kind: char, o: Outcome<M>,
                      later: seq<Action<M>>, reply: StatsReply)
    requires Tells(parses, OwnOf(l, c), c, kind, o, later)
    ensures Tells(parses, OwnOf(Settle(parses, l, Relaying(c), reply), c), c, kind, o,
                  later + [Callback(Relaying(c), reply)])
  {
    var a: Action<M> := Callback(Relaying(c), reply);
    RelayOwn(parses, l, c, reply);
    RepliedAfter(later, a, Relaying(c));
    RepliedAfter(later, a, Merging(c, true));
    RepliedAfter(later, a, Merging(c, false));
  }

  lemma IgnoreTells<M>(parses: string -> bool, l: Ledger, c: nat, kind: char, o: Outcome<M>,
                       later: seq<Action<M>>, reply: StatsReply)
    requires Tells(parses, OwnOf(l, c), c, kind, o, later)
    ensures Tells(parses, OwnOf(Settle(parses, l, Ignoring(c), reply), c), c, kind, o,
                  later + [Callback(Ignoring(c), reply)])
  {
    var a: Action<M> := Callback(Ignoring(c), reply);
    RepliedAfter(later, a, Relaying(c));
    RepliedAfter(later, a, Merging(c, true));
    RepliedAfter(later, a, Merging(c, false));
  }

  lemma MergedAllAfter(own: Own, fs: seq<Final>, f: Option<Final>)
    requires own.sent == MergedAll(fs)
    ensures SentOn(own, f) == MergedAll(fs + match f case None => [] case Some(v) => [v])
  {
    var c := match f case None => [] case Some(v) => [v];
    assert f.None? ==> fs + c == fs && own.sent + [] == own.sent;
  }

  /** The first n of the replies, after one more has come. */
  lemma TakenAfter(all: seq<StatsReply>, reply: StatsReply, parts: nat)
    ensures |all| < parts ==>
      && (all + [reply])[..Min(|all| + 1, parts)] == all + [reply]
      && all[..Min(|all|, parts)] == all
      && Texts(all + [reply]) == Texts(all) + [reply.text]
    ensures |all| >= parts ==> (all + [reply])[..Min(|all| + 1, parts)] == all[..Min(|all|, parts)]
  {
  }

  /** One more reply to a session broadcast. */
  lemma AskTells<M>(parses: string -> bool, l: Ledger, c: nat, kind: char, o: Outcome<M>,
                    later: seq<Action<M>>, reply: StatsReply)
    requires Tells(parses, OwnOf(l, c), c, kind, o, later) && o.Spread? && !o.stats
    ensures Tells(parses, OwnOf(Settle(parses, l, Merging(c, false), reply), c), c, kind, o,
                  later + [Callback(Merging(c, false), reply)])
  {
    var job, all := Merging(c, false), Replied(later, Merging(c, false));
    RepliedAfter(later, Callback(job, reply), job);
    AskOwn(parses, l, c, reply);
    TakenAfter(all, reply, |o.parts|);
    if |all| < |o.parts| {
      var b := NewBoard(kind, o.of, CodedResults());
      var (b1, fs) := MergeAll(b, Texts(all));
      MergeOneMore(b, Texts(all), reply.text);
      MergedAllAfter(OwnOf(l, c), fs, Merge(b1, reply.text).1);
    }
  }

  /** One more reply to a statistics broadcast. */
  lemma CountTells<M>(parses: string -> bool, l: Ledger, c: nat, kind: char, o: Outcome<M>,
                      later: seq<Action<M>>, reply: StatsReply)
    requires Tells(parses, OwnOf(l, c), c, kind, o, later) && o.Spread? && o.stats
    ensures Tells(parses, OwnOf(Settle(parses, l, Merging(c, true), reply), c), c, kind, o,
                  later + [Callback(Merging(c, true), reply)])
  {
    var job, all := Merging(c, true), Replied(later, Merging(c, true));
    RepliedAfter(later, Callback(job, reply), job);
    CountOwn(parses, l, c, reply);
    TakenAfter(all, reply, |o.parts|);
    if |all| < |o.parts| {
      var b := NewBoard(kind, o.of, CodedResults());
      var (b1, fs) := MergeAllStats(parses, b, all);
      MergeOneMoreStats(parses, b, all, reply);
      MergedAllAfter(OwnOf(l, c), fs, MergeStats(parses, b1, reply).1);
    }
  }

  /** A callback of the other kind of broadcast finds nothing to do. */
  lemma StrayMergeTells<M>(parses: string -> bool, l: Ledger, c: nat, kind: char, o: Outcome<M>,
                           later: seq<Action<M>>, stats: bool, reply: StatsReply)
    requires Tells(parses, OwnOf(l, c), c, kind, o, later) && !(o.Spread? && o.stats == stats)
    ensures Tells(parses, OwnOf(Settle(parses, l, Merging(c, stats), reply), c), c, kind, o,
                  later + [Callback(Merging(c, stats), reply)])
  {
    var a: Action<M> := Callback(Merging(c, stats), reply);
    assert Merging(c, stats) !in l.jobs;
    RepliedAfter(later, a, Relaying(c));
    RepliedAfter(later, a, Merging(c, true));
    RepliedAfter(later, a, Merging(c, false));
  }

  lemma OwnCallbackTells<M>(parses: string -> bool, l: Ledger, c: nat, kind: char, o: Outcome<M>,
                            later: seq<Action<M>>, job: Job, reply: StatsReply)
    requires Tells(parses, OwnOf(l, c), c, kind, o, later) && job.clim == c
    ensures Tells(parses, OwnOf(Settle(parses, l, job, reply), c), c, kind, o, later + [Callback(job, reply)])
  {
    match job
    case Relaying(_) => RelayTells(parses, l, c, kind, o, later, reply);
    case Ignoring(_) => IgnoreTells(parses, l, c, kind, o, later, reply);
    case Merging(_, stats) =>
      if !(o.Spread? && o.stats == stats) {
        StrayMergeTells(parses, l, c, kind, o, later, stats, reply);
      } else if stats {
        CountTells(parses, l, c, kind, o, later, reply);
      } else {
        AskTells(parses, l, c, kind, o, later, reply);
      }
  }

  lemma ActionTells<M>(parses: string -> bool, s: System<M>, a: Action<M>, c: nat, kind: char, o: Outcome<M>,
                       later: seq<Action<M>>)
    requires Partition(s.cluster) && c in s.ledger.accepted && Tells(parses, OwnOf(s.ledger, c), c, kind, o, later)
    ensures Tells(parses, OwnOf(Next(parses, s, a).ledger, c), c, kind, o, later + [a])
  {
    if Concerns(a, c) {
      OwnCallbackTells(parses, s.ledger, c, kind, o, later, a.job, a.reply);
    } else {
      OtherActionOwn(parses, s, a, c);
      OtherActionTells(parses, OwnOf(s.ledger, c), c, kind, o, later, a);
    }
  }

  lemma AcceptTells<M>(parses: string -> bool, s: System<M>, a: Action<M>)
    requires Partition(s.cluster) && a.Accept? && a.text.Some?
    requires Balanced(s.ledger, a.clim) && a.clim !in s.ledger.accepted
    ensures var o := Route(s.cluster, a.text.value, a.reparses, a.draw).1;
      Tells(parses, OwnOf(Next(parses, s, a).ledger, a.clim), a.clim, a.text.value.kind, o, [])
  {
    PayloadsCounted(s.ledger.sent, a.clim);
    var o := Route(s.cluster, a.text.value, a.reparses, a.draw).1;
    IssueOwn(s.ledger, a.clim, a.text.value.kind, o);
    assert Texts([]) == [];
    assert MergedAll([]) == [];
  }

  /** What was decided about the command that position i accepts. */
  ghost function OutcomeAt<M>(parses: string -> bool, acts: seq<Action<M>>, i: nat): Outcome<M>
    requires i < |acts| && acts[i].Accept? && acts[i].text.Some?
  {
    var a := acts[i];
    Route(Execute(parses, acts[..i]).cluster, a.text.value, a.reparses, a.draw).1
  }

  lemma FirstTells<M>(parses: string -> bool, acts: seq<Action<M>>, i: nat)
    requires i < |acts| && acts[i].Accept? && acts[i].text.Some?
    requires acts[i].clim !in Execute(parses, acts[..i]).ledger.accepted
    ensures var l, c := Execute(parses, acts[..i + 1]).ledger, acts[i].clim;
      c in l.accepted && Tells(parses, OwnOf(l, c), c, acts[i].text.value.kind, OutcomeAt(parses, acts, i), [])
  {
    ExecuteStep(parses, acts, i);
    BalancedAlways(parses, acts[..i], acts[i].clim);
    AcceptTells(parses, Execute(parses, acts[..i]), acts[i]);
    AcceptAccepts(parses, Execute(parses, acts[..i]), acts[i]);
  }

  lemma NextTells<M>(parses: string -> bool, acts: seq<Action<M>>, c: nat, kind: char, o: Outcome<M>,
                     later: seq<Action<M>>, k: nat)
    requires k < |acts|
    requires var l := Execute(parses, acts[..k]).ledger;
      c in l.accepted && Tells(parses, OwnOf(l, c), c, kind, o, later)
    ensures var l := Execute(parses, acts[..k + 1]).ledger;
      c in l.accepted && Tells(parses, OwnOf(l, c), c, kind, o, later + [acts[k]])
  {
    ExecuteStep(parses, acts, k);
    LossIsSettled(parses, Execute(parses, acts[..k]), acts[k], c);
    ActionTells(parses, Execute(parses, acts[..k]), acts[k], c, kind, o, later);
  }

  /** Command c, accepted with outcome o before position i, is told about right after the first k actions. */
  ghost predicate ToldAt<M>(parses: string -> bool, acts: seq<Action<M>>, c: nat, kind: char, o: Outcome<M>,
                            i: nat, k: nat)
    requires i <= k <= |acts|
  {
    var l := Execute(parses, acts[..k]).ledger;
    c in l.accepted && Tells(parses, OwnOf(l, c), c, kind, o, acts[i..k])
  }

  lemma ToldNext<M>(parses: string -> bool, acts: seq<Action<M>>, c: nat, kind: char, o: Outcome<M>, i: nat, k: nat)
    requires i <= k < |acts| && ToldAt(parses, acts, c, kind, o, i, k)
    ensures ToldAt(parses, acts, c, kind, o, i, k + 1)
  {
    assert acts[i..k] + [acts[k]] == acts[i..k + 1];
    NextTells(parses, acts, c, kind, o, acts[i..k], k);
  }

  lemma ToldFirst<M>(parses: string -> bool, acts: seq<Action<M>>, i: nat)
    requires i < |acts| && acts[i].Accept? && acts[i].text.Some?
    requires acts[i].clim !in Execute(parses, acts[..i]).ledger.accepted
    ensures ToldAt(parses, acts, acts[i].clim, acts[i].text.value.kind, OutcomeAt(parses, acts, i), i + 1, i + 1)
  {
    assert acts[i + 1..i + 1] == [];
    FirstTells(parses, acts, i);
  }

  lemma {:induction false} ToldAlways<M>(parses: string -> bool, acts: seq<Action<M>>, c: nat, kind: char,
                                         o: Outcome<M>, i: nat, k: nat)
    requires i <= k <= |acts| && ToldAt(parses, acts, c, kind, o, i, k)
    ensures ToldAt(parses, acts, c, kind, o, i, |acts|)
    decreases |acts| - k
  {
    if k < |acts| {
      ToldNext(parses, acts, c, kind, o, i, k);
      ToldAlways(parses, acts, c, kind, o, i, k + 1);
    }
  }

  // --------------------------------------------------------------- replies

  /** The reply that is due for a command with outcome o, once its own callbacks have brought these replies. */
  ghost predicate IsDue<M>(parses: string -> bool, got: seq<Payload>, c: nat, kind: char, o: Outcome<M>,
                           later: seq<Action<M>>) {
    match o
    case Answered(a) => got == [AtOnce(a)]
    case Dropped => got == []
    case Forwarded(_, _, early) =>
      var r := Replied(later, Relaying(c));
      got == if early then [AtOnce(Word("0"))] else if r == [] then [] else [FromMember(r[0].text)]
    case Spread(parts, of, stats) =>
      var r := Replied(later, Merging(c, stats));
      if |parts| < of || |r| < of then got == []
      else if !stats then got == [Merged(Text(if kind == 'U' || kind == 'L' then "0" else "E995"))]
      else
        var all := UsableTexts(parses, r[..of]);
        got == [Merged(if all == multiset{} then Text("E993") else Stats(all))]
  }

  lemma AskedIsDue<M>(parses: string -> bool, own: Own, c: nat, kind: char, o: Outcome<M>, later: seq<Action<M>>)
    requires Tells(parses, own, c, kind, o, later) && o.Spread? && !o.stats && 0 < o.of && |o.parts| <= o.of
    ensures IsDue(parses, own.sent, c, kind, o, later)
  {
    var b := NewBoard(kind, o.of, CodedResults());
    var r := Replied(later, Merging(c, false));
    var texts := Texts(r[..Min(|r|, |o.parts|)]);
    if |o.parts| < o.of || |r| < o.of {
      NoAnswerYet(b, texts);
    } else {
      CodedAnswer(kind, texts);
    }
  }

  lemma CountedIsDue<M>(parses: string -> bool, own: Own, c: nat, kind: char, o: Outcome<M>, later: seq<Action<M>>)
    requires Tells(parses, own, c, kind, o, later) && o.Spread? && o.stats && 0 < o.of && |o.parts| <= o.of
    ensures IsDue(parses, own.sent, c, kind, o, later)
  {
    var b := NewBoard(kind, o.of, CodedResults());
    var r := Replied(later, Merging(c, true));
    var taken := r[..Min(|r|, |o.parts|)];
    if |o.parts| < o.of || |r| < o.of {
      NoAnswerYetStats(parses, b, taken);
    } else {
      StatsMergeAnswersOnce(parses, b, taken);
      assert multiset{} + UsableTexts(parses, taken) == UsableTexts(parses, taken);
    }
  }

  /**
    Over every run, the reply to a command is exactly what is due: the answer given at once, "0" for an early
    one, the text of the member it was forwarded to, or the verdict over the replies to its own broadcast.
  */
  lemma {:induction false} ReplyIsDue<M>(parses: string -> bool, acts: seq<Action<M>>, i: nat)
    requires i < |acts| && acts[i].Accept? && acts[i].text.Some?
    requires acts[i].clim !in Execute(parses, acts[..i]).ledger.accepted
    ensures IsDue(parses, Payloads(Execute(parses, acts).ledger.sent, acts[i].clim), acts[i].clim,
                  acts[i].text.value.kind, OutcomeAt(parses, acts, i), acts[i + 1..])
  {
    var a, o := acts[i], OutcomeAt(parses, acts, i);
    assert acts[..|acts|] == acts && acts[i + 1..|acts|] == acts[i + 1..];
    ToldFirst(parses, acts, i);
    ToldAlways(parses, acts, a.clim, a.text.value.kind, o, i + 1, i + 1);
    var own := OwnOf(Execute(parses, acts).ledger, a.clim);
    if o.Spread? {
      BroadcastReachesEveryActive(Execute(parses, acts[..i]).cluster, a.text.value, a.reparses, a.draw);
      if o.stats {
        CountedIsDue(parses, own, a.clim, a.text.value.kind, o, acts[i + 1..]);
      } else {
        AskedIsDue(parses, own, a.clim, a.text.value.kind, o, acts[i + 1..]);
      }
    }
  }
}
