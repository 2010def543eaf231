/**
  The UDP front end with the dispatcher behind it: the retransmission caches
  and the reply accounting as one system. Here down_command is one step: when a
  reply to a command with a cookie is sent, its mark is dropped and the
  response is stored.
*/
module FrontEnd {
  import opened Common
  import opened Scheduler
  import opened Membership
  import opened Routing
  import opened Runs
  import opened Replies
  import opened ReplyTexts
  import Broadcast
  import R = Retransmission

  /** What is sent back for datagrams: the reply to a command, or a cached text for a copy. */
  datatype Wire = Live(clim: nat, k: R.Cookie, text: R.Response) | Replay(k: R.Cookie, text: R.Response)

  /**
    cookies: the cookie of each command that came as a datagram; wire: everything sent back for datagrams, in
    order.
  */
  datatype Front<M> = Front(caches: R.Caches, sys: System<M>, cookies: map<nat, R.Cookie>, wire: seq<Wire>)

  datatype Input<M> =
    | Datagram(k: R.Cookie, clim: nat, text: Option<Cmd>, reparses: bool, draw: Draw)
    | Stream(clim: nat, text: Option<Cmd>, reparses: bool, draw: Draw)
    | Reply(job: Job, reply: Broadcast.StatsReply)
    | Inside(e: Event<M>)
    | Purge

  /** The reply to a command with a cookie that has just been sent, if there is one. */
  function JustAnswered(cookies: map<nat, R.Cookie>, before: seq<Sent>, after: seq<Sent>): (r: Option<Sent>)
    ensures r.Some? ==> r.value.clim in cookies
  {
    if |after| > |before| && after[|after| - 1].clim in cookies then Some(after[|after| - 1]) else None
  }

  /** What the reply that has just been sent, if any, does to the caches. */
  function Answered(c: R.Caches, cookies: map<nat, R.Cookie>, before: seq<Sent>, after: seq<Sent>,
                    render: Sent -> R.Response): R.Caches {
    match JustAnswered(cookies, before, after)
    case None => c
    case Some(x) => R.Store(R.Unmark(c, cookies[x.clim]), cookies[x.clim], render(x))
  }

  function WireAfter(wire: seq<Wire>, cookies: map<nat, R.Cookie>, before: seq<Sent>, after: seq<Sent>,
                     render: Sent -> R.Response): seq<Wire> {
    match JustAnswered(cookies, before, after)
    case None => wire
    case Some(x) => wire + [Live(x.clim, cookies[x.clim], render(x))]
  }

  ghost function Act<M>(parses: string -> bool, render: Sent -> R.Response, f: Front<M>, a: Action<M>): Front<M>
    requires Partition(f.sys.cluster)
  {
    var next := Next(parses, f.sys, a);
    Front(Answered(f.caches, f.cookies, f.sys.ledger.sent, next.ledger.sent, render), next, f.cookies,
          WireAfter(f.wire, f.cookies, f.sys.ledger.sent, next.ledger.sent, render))
  }

  /** A command number that is in use does not come again. */
  ghost function Step<M>(parses: string -> bool, render: Sent -> R.Response, f: Front<M>, i: Input<M>): Front<M>
    requires Partition(f.sys.cluster)
  {
    match i
    case Datagram(k, clim, text, reparses, draw) =>
      (match R.Arrive(f.caches, k).1
       case Ignored => f
       case FromCache(cached) => f.(wire := f.wire + [Replay(k, cached)])
       case Executed =>
         if clim in f.sys.ledger.accepted then f
         else Act(parses, render, f.(caches := R.Arrive(f.caches, k).0, cookies := f.cookies[clim := k]),
                  Accept(clim, text, reparses, draw)))
    case Stream(clim, text, reparses, draw) =>
      if clim in f.sys.ledger.accepted then f else Act(parses, render, f, Accept(clim, text, reparses, draw))
    case Reply(job, reply) => Act(parses, render, f, Callback(job, reply))
    case Inside(e) => f.(sys := Next(parses, f.sys, Change(e)))
    case Purge => f.(caches := R.Purge(f.caches))
  }

  // --------------------------------------------------------------- marks

  /** c came with cookie k and has no reply yet. */
  predicate Unanswered(cookies: map<nat, R.Cookie>, sent: seq<Sent>, c: nat, k: R.Cookie) {
    c in cookies && cookies[c] == k && Sends(sent, c) == 0
  }

  /** The marks are the cookies of the unanswered commands, one command for each. */
  ghost predicate Marks(inflight: set<R.Cookie>, cookies: map<nat, R.Cookie>, sent: seq<Sent>) {
    && (forall k :: k in inflight <==> exists c :: Unanswered(cookies, sent, c, k))
    && (forall c, d, k :: Unanswered(cookies, sent, c, k) && Unanswered(cookies, sent, d, k) ==> c == d)
  }

  lemma MarksArrive(inflight: set<R.Cookie>, cookies: map<nat, R.Cookie>, sent: seq<Sent>, clim: nat, k: R.Cookie)
    requires Marks(inflight, cookies, sent) && k !in inflight && clim !in cookies && Sends(sent, clim) == 0
    ensures Marks(inflight + {k}, cookies[clim := k], sent)
  {
    var next := cookies[clim := k];
    assert Unanswered(next, sent, clim, k);
    forall j ensures j in inflight + {k} <==> exists c :: Unanswered(next, sent, c, j) {
      if j in inflight {
        var c :| Unanswered(cookies, sent, c, j);
        assert Unanswered(next, sent, c, j);
      }
      if exists c :: Unanswered(next, sent, c, j) && c != clim {
        var c :| Unanswered(next, sent, c, j) && c != clim;
        assert Unanswered(cookies, sent, c, j);
      }
    }
    forall c, d, j | Unanswered(next, sent, c, j) && Unanswered(next, sent, d, j) ensures c == d {
      assert c != clim ==> Unanswered(cookies, sent, c, j);
      assert d != clim ==> Unanswered(cookies, sent, d, j);
    }
  }

  lemma SendsAfter(sent: seq<Sent>, x: Sent, c: nat)
    ensures Sends(sent + [x], c) == Sends(sent, c) + if x.clim == c then 1 else 0
  {
    assert (sent + [x])[..|sent|] == sent;
  }

  lemma UnansweredAfter(cookies: map<nat, R.Cookie>, sent: seq<Sent>, x: Sent, c: nat, k: R.Cookie)
    ensures Unanswered(cookies, sent + [x], c, k) <==> Unanswered(cookies, sent, c, k) && c != x.clim
  {
    SendsAfter(sent, x, c);
  }

  lemma MarksSend(inflight: set<R.Cookie>, cookies: map<nat, R.Cookie>, sent: seq<Sent>, x: Sent)
    requires Marks(inflight, cookies, sent) && Sends(sent, x.clim) == 0
    ensures Marks(if x.clim in cookies then inflight - {cookies[x.clim]} else inflight, cookies, sent + [x])
  {
    var after := if x.clim in cookies then inflight - {cookies[x.clim]} else inflight;
    forall c, k ensures Unanswered(cookies, sent + [x], c, k) <==> Unanswered(cookies, sent, c, k) && c != x.clim {
      UnansweredAfter(cookies, sent, x, c, k);
    }
    forall k ensures k in after <==> exists c :: Unanswered(cookies, sent + [x], c, k) {
      if k in after {
        var c :| Unanswered(cookies, sent, c, k);
        assert Unanswered(cookies, sent + [x], c, k);
      }
      if exists c :: Unanswered(cookies, sent + [x], c, k) {
        var c :| Unanswered(cookies, sent + [x], c, k);
        assert Unanswered(cookies, sent, c, k);
        assert x.clim in cookies && cookies[x.clim] == k ==> Unanswered(cookies, sent, x.clim, k);
      }
    }
  }

  // ---------------------------------------------------------------- runs

  /** Every step of the dispatcher sends one reply or none. */
  ghost predicate SendsOneMore(before: seq<Sent>, after: seq<Sent>) {
    after == before || (|after| == |before| + 1 && after == before + [after[|before|]])
  }

  lemma IssueSendsOneMore<M>(l: Ledger, clim: nat, kind: char, o: Outcome<M>)
    ensures SendsOneMore(l.sent, Issue(l, clim, kind, o).sent)
  {
  }

  lemma SettleSendsOneMore(parses: string -> bool, l: Ledger, job: Job, reply: Broadcast.StatsReply)
    ensures SendsOneMore(l.sent, Settle(parses, l, job, reply).sent)
  {
  }

  lemma NextSendsOneMore<M>(parses: string -> bool, s: System<M>, a: Action<M>)
    requires Partition(s.cluster)
    ensures SendsOneMore(s.ledger.sent, Next(parses, s, a).ledger.sent)
  {
    match a
    case Change(_) =>
    case Callback(job, reply) => SettleSendsOneMore(parses, s.ledger, job, reply);
    case Accept(clim, text, reparses, draw) =>
      if text.Some? {
        IssueSendsOneMore(s.ledger, clim, text.value.kind, Route(s.cluster, text.value, reparses, draw).1);
      }
  }

  ghost predicate Consistent<M>(f: Front<M>) {
    && Partition(f.sys.cluster)
    && (forall c :: Balanced(f.sys.ledger, c))
    && f.cookies.Keys <= f.sys.ledger.accepted
    && Marks(f.caches.inflight, f.cookies, f.sys.ledger.sent)
  }

  lemma BalancedSends(l: Ledger, c: nat)
    requires Balanced(l, c)
    ensures Sends(l.sent, c) <= 1 && (c !in l.accepted || c in l.lost ==> Sends(l.sent, c) == 0)
  {
  }

  lemma AcceptedGrows<M>(parses: string -> bool, s: System<M>, a: Action<M>, c: nat)
    requires Partition(s.cluster) && c in s.ledger.accepted
    ensures c in Next(parses, s, a).ledger.accepted
  {
    LossIsSettled(parses, s, a, c);
  }

  lemma AnsweredMarks(c: R.Caches, cookies: map<nat, R.Cookie>, before: seq<Sent>, after: seq<Sent>,
                      render: Sent -> R.Response)
    requires Marks(c.inflight, cookies, before) && SendsOneMore(before, after)
    requires forall x :: Sends(after, x) <= 1
    ensures Marks(Answered(c, cookies, before, after, render).inflight, cookies, after)
  {
    if after != before {
      var x := after[|before|];
      SendsAfter(before, x, x.clim);
      MarksSend(c.inflight, cookies, before, x);
    }
  }

  /** A step of the dispatcher, with the marks in order and the cookie of the command already noted. */
  lemma ActKeepsConsistent<M>(parses: string -> bool, render: Sent -> R.Response, f: Front<M>, a: Action<M>)
    requires Partition(f.sys.cluster) && (forall c :: Balanced(f.sys.ledger, c))
    requires forall c :: c in f.cookies ==> c in Next(parses, f.sys, a).ledger.accepted
    requires Marks(f.caches.inflight, f.cookies, f.sys.ledger.sent)
    ensures Consistent(Act(parses, render, f, a))
  {
    var next := Next(parses, f.sys, a);
    NextKeepsPartition(parses, f.sys, a);
    NextSendsOneMore(parses, f.sys, a);
    forall c ensures Balanced(next.ledger, c) && Sends(next.ledger.sent, c) <= 1 {
      NextKeepsBalance(parses, f.sys, a, c);
      BalancedSends(next.ledger, c);
    }
    AnsweredMarks(f.caches, f.cookies, f.sys.ledger.sent, next.ledger.sent, render);
  }

  lemma DatagramKeepsConsistent<M>(parses: string -> bool, render: Sent -> R.Response, f: Front<M>, i: Input<M>)
    requires Consistent(f) && i.Datagram?
    ensures Consistent(Step(parses, render, f, i))
  {
    var clim, k := i.clim, i.k;
    if clim !in f.sys.ledger.accepted && R.Arrive(f.caches, k).1 == R.Executed {
      var g := f.(caches := R.Arrive(f.caches, k).0, cookies := f.cookies[clim := k]);
      var a := Accept(clim, i.text, i.reparses, i.draw);
      BalancedSends(f.sys.ledger, clim);
      MarksArrive(f.caches.inflight, f.cookies, f.sys.ledger.sent, clim, k);
      forall c | c in g.cookies ensures c in Next(parses, g.sys, a).ledger.accepted {
        if c == clim {
          AcceptAccepts(parses, g.sys, a);
        } else {
          AcceptedGrows(parses, g.sys, a, c);
        }
      }
      ActKeepsConsistent(parses, render, g, a);
    }
  }

  lemma PlainActKeepsConsistent<M>(parses: string -> bool, render: Sent -> R.Response, f: Front<M>, a: Action<M>)
    requires Consistent(f)
    ensures Consistent(Act(parses, render, f, a))
  {
    forall c | c in f.cookies ensures c in Next(parses, f.sys, a).ledger.accepted {
      AcceptedGrows(parses, f.sys, a, c);
    }
    ActKeepsConsistent(parses, render, f, a);
  }

  lemma StepKeepsConsistent<M>(parses: string -> bool, render: Sent -> R.Response, f: Front<M>, i: Input<M>)
    requires Consistent(f)
    ensures Consistent(Step(parses, render, f, i))
  {
    match i
    case Datagram(_, _, _, _, _) => DatagramKeepsConsistent(parses, render, f, i);
    case Stream(clim, text, reparses, draw) =>
      PlainActKeepsConsistent(parses, render, f, Accept(clim, text, reparses, draw));
    case Reply(job, reply) => PlainActKeepsConsistent(parses, render, f, Callback(job, reply));
    case Inside(e) => NextKeepsPartition(parses, f.sys, Change(e));
    case Purge =>
  }

  /** The front end after a sequence of inputs. */
  ghost function RunFront<M>(parses: string -> bool, render: Sent -> R.Response, inputs: seq<Input<M>>): (f: Front<M>)
    ensures Consistent(f)
  {
    if inputs == [] then Front(R.Initial.caches, System(Fresh(), Empty), map[], [])
    else
      var before := RunFront(parses, render, inputs[..|inputs| - 1]);
      StepKeepsConsistent(parses, render, before, inputs[|inputs| - 1]);
      Step(parses, render, before, inputs[|inputs| - 1])
  }

  /** After every run a cookie is in flight exactly when a command that came with it has no reply yet. */
  lemma MarksAreUnanswered<M>(parses: string -> bool, render: Sent -> R.Response, inputs: seq<Input<M>>, k: R.Cookie)
    ensures var f := RunFront(parses, render, inputs);
      k in f.caches.inflight <==> exists c :: Unanswered(f.cookies, f.sys.ledger.sent, c, k)
  {
    assert Consistent(RunFront(parses, render, inputs));
  }

  /** A command that was given up at some point: it stays given up, under its cookie. */
  lemma GivenUpStays<M>(parses: string -> bool, render: Sent -> R.Response, f: Front<M>, i: Input<M>, c: nat)
    requires Consistent(f) && c in f.cookies && c in f.sys.ledger.lost
    ensures var g := Step(parses, render, f, i);
      c in g.cookies && g.cookies[c] == f.cookies[c] && c in g.sys.ledger.lost
  {
    match i
    case Datagram(k, clim, text, reparses, draw) =>
      LossIsSettled(parses, f.sys, Accept(clim, text, reparses, draw), c);
    case Stream(clim, text, reparses, draw) =>
      LossIsSettled(parses, f.sys, Accept(clim, text, reparses, draw), c);
    case Reply(job, reply) => LossIsSettled(parses, f.sys, Callback(job, reply), c);
    case Inside(e) => LossIsSettled(parses, f.sys, Change(e), c);
    case Purge =>
  }

  lemma {:induction false} GivenUpForEver<M>(parses: string -> bool, render: Sent -> R.Response,
                                             inputs: seq<Input<M>>, i: nat, c: nat)
    requires i <= |inputs|
    requires var f := RunFront(parses, render, inputs[..i]); c in f.cookies && c in f.sys.ledger.lost
    ensures var f, g := RunFront(parses, render, inputs[..i]), RunFront(parses, render, inputs);
      c in g.cookies && g.cookies[c] == f.cookies[c] && c in g.sys.ledger.lost
    decreases |inputs| - i
  {
    if i == |inputs| {
      assert inputs[..i] == inputs;
    } else {
      assert inputs[..i + 1][..i] == inputs[..i];
      GivenUpStays(parses, render, RunFront(parses, render, inputs[..i]), inputs[i], c);
      GivenUpForEver(parses, render, inputs, i + 1, c);
    }
  }

  /**
    Once a command that came with a cookie has been given up, the cookie stays in flight, and every later copy
    is ignored.
  */
  lemma GivenUpCookieIsStuck<M>(parses: string -> bool, render: Sent -> R.Response, inputs: seq<Input<M>>, i: nat,
                                c: nat)
    requires i <= |inputs|
    requires var f := RunFront(parses, render, inputs[..i]); c in f.cookies && c in f.sys.ledger.lost
    ensures var k := RunFront(parses, render, inputs[..i]).cookies[c];
      var g := RunFront(parses, render, inputs);
      k in g.caches.inflight && R.Arrive(g.caches, k) == (g.caches, R.Ignored)
  {
    GivenUpForEver(parses, render, inputs, i, c);
    var g := RunFront(parses, render, inputs);
    BalancedSends(g.sys.ledger, c);
    assert Unanswered(g.cookies, g.sys.ledger.sent, c, g.cookies[c]);
  }

  // -------------------------------------------------------------- replays

  /** The last reply sent under a cookie. */
  function LastReply(wire: seq<Wire>, k: R.Cookie): (r: Option<Wire>)
    ensures r.Some? ==> r.value in wire && r.value.Live? && r.value.k == k
  {
    if wire == [] then None
    else
      var w := wire[|wire| - 1];
      if w.Live? && w.k == k then Some(w) else LastReply(wire[..|wire| - 1], k)
  }

  /** The reply with this text is the last one under the cookie. */
  ghost predicate IsLast(wire: seq<Wire>, k: R.Cookie, text: R.Response) {
    LastReply(wire, k).Some? && LastReply(wire, k).value.text == text
  }

  /** Every cached text is the last reply under its cookie, and so was every text sent for a copy. */
  ghost predicate Traced(c: R.Caches, wire: seq<Wire>) {
    && (forall k :: k in c.l1 ==> IsLast(wire, k, c.l1[k]))
    && (forall k :: k in c.l2 && k !in c.l1 ==> IsLast(wire, k, c.l2[k]))
    && (forall i :: 0 <= i < |wire| && wire[i].Replay? ==> IsLast(wire[..i], wire[i].k, wire[i].text))
  }

  /** The first reply to command c says this. */
  ghost predicate SaidTo(render: Sent -> R.Response, sent: seq<Sent>, c: nat, text: R.Response) {
    Payloads(sent, c) != [] && text == render(Sent(c, Payloads(sent, c)[0]))
  }

  /** Every reply on the wire is the reply to a command that came with its cookie. */
  ghost predicate Attributed(render: Sent -> R.Response, cookies: map<nat, R.Cookie>, sent: seq<Sent>,
                             wire: seq<Wire>) {
    forall i :: 0 <= i < |wire| && wire[i].Live? ==>
      wire[i].clim in cookies && cookies[wire[i].clim] == wire[i].k && SaidTo(render, sent, wire[i].clim, wire[i].text)
  }

  lemma LastReplyAfter(wire: seq<Wire>, w: Wire, k: R.Cookie)
    ensures LastReply(wire + [w], k) == if w.Live? && w.k == k then Some(w) else LastReply(wire, k)
  {
    assert (wire + [w])[..|wire|] == wire;
  }

  lemma ReplaysAfter(wire: seq<Wire>, w: Wire)
    requires forall i :: 0 <= i < |wire| && wire[i].Replay? ==> IsLast(wire[..i], wire[i].k, wire[i].text)
    requires w.Replay? ==> IsLast(wire, w.k, w.text)
    ensures var n := wire + [w];
      forall i :: 0 <= i < |n| && n[i].Replay? ==> IsLast(n[..i], n[i].k, n[i].text)
  {
    var n := wire + [w];
    forall i | 0 <= i < |n| && n[i].Replay? ensures IsLast(n[..i], n[i].k, n[i].text) {
      assert n[..i] == if i < |wire| then wire[..i] else wire;
    }
  }

  lemma TracedLive(c: R.Caches, wire: seq<Wire>, clim: nat, k: R.Cookie, text: R.Response)
    requires Traced(c, wire)
    ensures Traced(R.Store(R.Unmark(c, k), k, text), wire + [Live(clim, k, text)])
  {
    ReplaysAfter(wire, Live(clim, k, text));
    forall j {
      LastReplyAfter(wire, Live(clim, k, text), j);
    }
  }

  lemma TracedReplay(c: R.Caches, wire: seq<Wire>, k: R.Cookie)
    requires Traced(c, wire) && R.Arrive(c, k).1.FromCache?
    ensures Traced(c, wire + [Replay(k, R.Arrive(c, k).1.text)])
  {
    var w := Replay(k, R.Arrive(c, k).1.text);
    ReplaysAfter(wire, w);
    forall j {
      LastReplyAfter(wire, w, j);
    }
  }

  lemma ActKeepsTraced<M>(parses: string -> bool, render: Sent -> R.Response, f: Front<M>, a: Action<M>)
    requires Partition(f.sys.cluster) && Traced(f.caches, f.wire)
    ensures var g := Act(parses, render, f, a); Traced(g.caches, g.wire)
  {
    var next := Next(parses, f.sys, a);
    var c := JustAnswered(f.cookies, f.sys.ledger.sent, next.ledger.sent);
    if c.Some? {
      TracedLive(f.caches, f.wire, c.value.clim, f.cookies[c.value.clim], render(c.value));
    }
  }

  lemma StepKeepsTraced<M>(parses: string -> bool, render: Sent -> R.Response, f: Front<M>, i: Input<M>)
    requires Consistent(f) && Traced(f.caches, f.wire)
    ensures var g := Step(parses, render, f, i); Traced(g.caches, g.wire)
  {
    match i
    case Datagram(k, clim, text, reparses, draw) =>
      var v := R.Arrive(f.caches, k);
      if v.1.FromCache? {
        TracedReplay(f.caches, f.wire, k);
      } else if v.1.Executed? {
        var g := f.(caches := v.0, cookies := f.cookies[clim := k]);
        ActKeepsTraced(parses, render, g, Accept(clim, text, reparses, draw));
      }
    case Stream(clim, text, reparses, draw) =>
      ActKeepsTraced(parses, render, f, Accept(clim, text, reparses, draw));
    case Reply(job, reply) => ActKeepsTraced(parses, render, f, Callback(job, reply));
    case Inside(_) =>
    case Purge =>
  }

  lemma SaidAfter(render: Sent -> R.Response, sent: seq<Sent>, x: Sent, c: nat, text: R.Response)
    ensures SaidTo(render, sent, c, text) ==> SaidTo(render, sent + [x], c, text)
    ensures Sends(sent + [x], x.clim) <= 1 ==> SaidTo(render, sent + [x], x.clim, render(x))
  {
    PayloadsAfter(sent, x, c);
    PayloadsAfter(sent, x, x.clim);
    PayloadsCounted(sent + [x], x.clim);
  }

  lemma AttributedAfter(render: Sent -> R.Response, cookies: map<nat, R.Cookie>, before: seq<Sent>,
                        after: seq<Sent>, wire: seq<Wire>)
    requires Attributed(render, cookies, before, wire) && SendsOneMore(before, after)
    requires forall x :: Sends(after, x) <= 1
    ensures Attributed(render, cookies, after, WireAfter(wire, cookies, before, after, render))
  {
    if after != before {
      var x := after[|before|];
      forall c, text {
        SaidAfter(render, before, x, c, text);
      }
    }
  }

  /** A step of the dispatcher after which the marks are in order. */
  lemma ActKeepsAttributed<M>(parses: string -> bool, render: Sent -> R.Response, f: Front<M>, a: Action<M>)
    requires Partition(f.sys.cluster) && Consistent(Act(parses, render, f, a))
    requires Attributed(render, f.cookies, f.sys.ledger.sent, f.wire)
    ensures var g := Act(parses, render, f, a); Attributed(render, g.cookies, g.sys.ledger.sent, g.wire)
  {
    var next := Next(parses, f.sys, a);
    NextSendsOneMore(parses, f.sys, a);
    forall c ensures Sends(next.ledger.sent, c) <= 1 {
      BalancedSends(next.ledger, c);
    }
    AttributedAfter(render, f.cookies, f.sys.ledger.sent, next.ledger.sent, f.wire);
  }

  lemma StepKeepsAttributed<M>(parses: string -> bool, render: Sent -> R.Response, f: Front<M>, i: Input<M>)
    requires Consistent(f) && Attributed(render, f.cookies, f.sys.ledger.sent, f.wire)
    ensures var g := Step(parses, render, f, i); Attributed(render, g.cookies, g.sys.ledger.sent, g.wire)
  {
    StepKeepsConsistent(parses, render, f, i);
    match i
    case Datagram(k, clim, text, reparses, draw) =>
      if R.Arrive(f.caches, k).1.Executed? && clim !in f.sys.ledger.accepted {
        var g := f.(caches := R.Arrive(f.caches, k).0, cookies := f.cookies[clim := k]);
        ActKeepsAttributed(parses, render, g, Accept(clim, text, reparses, draw));
      }
    case Stream(clim, text, reparses, draw) =>
      if clim !in f.sys.ledger.accepted {
        ActKeepsAttributed(parses, render, f, Accept(clim, text, reparses, draw));
      }
    case Reply(job, reply) => ActKeepsAttributed(parses, render, f, Callback(job, reply));
    case Inside(_) =>
    case Purge =>
  }

  lemma {:induction false} TracedAlways<M>(parses: string -> bool, render: Sent -> R.Response, inputs: seq<Input<M>>)
    ensures var f := RunFront(parses, render, inputs);
      Traced(f.caches, f.wire) && Attributed(render, f.cookies, f.sys.ledger.sent, f.wire)
  {
    if inputs != [] {
      var before, i := inputs[..|inputs| - 1], inputs[|inputs| - 1];
      TracedAlways(parses, render, before);
      StepKeepsTraced(parses, render, RunFront(parses, render, before), i);
      StepKeepsAttributed(parses, render, RunFront(parses, render, before), i);
    }
  }

  // --------------------------------------------- the dispatcher of a run

  /** What an input makes the dispatcher do. */
  function Acts<M>(f: Front<M>, i: Input<M>): seq<Action<M>> {
    match i
    case Datagram(k, clim, text, reparses, draw) =>
      if R.Arrive(f.caches, k).1.Executed? then [Accept(clim, text, reparses, draw)] else []
    case Stream(clim, text, reparses, draw) => [Accept(clim, text, reparses, draw)]
    case Reply(job, reply) => [Callback(job, reply)]
    case Inside(e) => [Change(e)]
    case Purge => []
  }

  /** The actions of the dispatcher in a run of the front end. */
  ghost function Trace<M>(parses: string -> bool, render: Sent -> R.Response, inputs: seq<Input<M>>): seq<Action<M>> {
    if inputs == [] then []
    else
      var before := inputs[..|inputs| - 1];
      Trace(parses, render, before) + Acts(RunFront(parses, render, before), inputs[|inputs| - 1])
  }

  lemma ExecuteAfter<M>(parses: string -> bool, acts: seq<Action<M>>, a: Action<M>)
    ensures Execute(parses, acts + [a]) == Next(parses, Execute(parses, acts), a)
  {
    assert (acts + [a])[..|acts|] == acts;
  }

  lemma StepActs<M>(parses: string -> bool, render: Sent -> R.Response, f: Front<M>, i: Input<M>,
                    acts: seq<Action<M>>)
    requires Partition(f.sys.cluster) && f.sys == Execute(parses, acts)
    ensures Step(parses, render, f, i).sys == Execute(parses, acts + Acts(f, i))
  {
    if Acts(f, i) == [] {
      assert acts + Acts(f, i) == acts;
    } else {
      ExecuteAfter(parses, acts, Acts(f, i)[0]);
    }
  }

  /** Behind the front end the dispatcher runs as it does alone. */
  lemma {:induction false} FrontRunsDispatcher<M>(parses: string -> bool, render: Sent -> R.Response,
                                                  inputs: seq<Input<M>>)
    ensures RunFront(parses, render, inputs).sys == Execute(parses, Trace(parses, render, inputs))
  {
    if inputs != [] {
      var before, i := inputs[..|inputs| - 1], inputs[|inputs| - 1];
      FrontRunsDispatcher(parses, render, before);
      StepActs(parses, render, RunFront(parses, render, before), i, Trace(parses, render, before));
    }
  }

  /** Position j is the arrival of command c. */
  ghost predicate Arrives<M>(parses: string -> bool, acts: seq<Action<M>>, j: nat, c: nat) {
    && j < |acts| && acts[j].Accept? && acts[j].clim == c
    && c !in Execute(parses, acts[..j]).ledger.accepted
  }

  lemma OnlyArrivalAccepts<M>(parses: string -> bool, s: System<M>, a: Action<M>, c: nat)
    requires Partition(s.cluster) && c !in s.ledger.accepted && c in Next(parses, s, a).ledger.accepted
    ensures a.Accept? && a.clim == c
  {
    if !a.Accept? {
      OnlyAcceptLoses(parses, s, a);
    }
  }

  lemma ArrivalEarlier<M>(parses: string -> bool, acts: seq<Action<M>>, k: nat, j: nat, c: nat)
    requires k <= |acts| && Arrives(parses, acts[..k], j, c)
    ensures Arrives(parses, acts, j, c)
  {
    assert acts[..k][..j] == acts[..j];
  }

  lemma {:induction false} Arrival<M>(parses: string -> bool, acts: seq<Action<M>>, c: nat) returns (j: nat)
    requires c in Execute(parses, acts).ledger.accepted
    ensures Arrives(parses, acts, j, c)
  {
    var n := |acts| - 1;
    if c in Execute(parses, acts[..n]).ledger.accepted {
      j := Arrival(parses, acts[..n], c);
      ArrivalEarlier(parses, acts, n, j, c);
    } else {
      OnlyArrivalAccepts(parses, Execute(parses, acts[..n]), acts[n], c);
      j := n;
    }
  }

  /** The reply p to command c is what is due in a run of the dispatcher. */
  ghost predicate IsItsReply<M>(parses: string -> bool, acts: seq<Action<M>>, j: nat, c: nat, p: Payload) {
    && Arrives(parses, acts, j, c) && acts[j].text.Some?
    && IsDue(parses, [p], c, acts[j].text.value.kind, OutcomeAt(parses, acts, j), acts[j + 1..])
  }

  lemma OneReplyIsDue<M>(parses: string -> bool, acts: seq<Action<M>>, c: nat) returns (j: nat)
    requires var l := Execute(parses, acts).ledger; c in l.accepted && Payloads(l.sent, c) != []
    ensures var ps := Payloads(Execute(parses, acts).ledger.sent, c);
      |ps| == 1 && IsItsReply(parses, acts, j, c, ps[0])
  {
    var l := Execute(parses, acts).ledger;
    PayloadsCounted(l.sent, c);
    ExactlyOneReply(parses, acts, c);
    j := Arrival(parses, acts, c);
    BalancedAlways(parses, acts, c);
    BalancedSends(l, c);
    LostAtArrival(parses, acts, j);
    LossStaysSettled(parses, acts, c, j + 1);
    ReplyIsDue(parses, acts, j);
    assert Payloads(l.sent, c) == [Payloads(l.sent, c)[0]];
  }

  /**
    The text is the last one sent under the cookie. It renders the only reply to a command that came with the
    cookie, and this reply is what was due for the command.
  */
  ghost predicate RepliesFor<M>(parses: string -> bool, render: Sent -> R.Response, f: Front<M>,
                                acts: seq<Action<M>>, wire: seq<Wire>, k: R.Cookie, text: R.Response) {
    && IsLast(wire, k, text)
    && var c := LastReply(wire, k).value.clim;
       var ps := Payloads(f.sys.ledger.sent, c);
       && c in f.cookies && f.cookies[c] == k
       && |ps| == 1 && text == render(Sent(c, ps[0]))
       && exists j :: IsItsReply(parses, acts, j, c, ps[0])
  }

  lemma LastIsOwn<M>(parses: string -> bool, render: Sent -> R.Response, f: Front<M>, acts: seq<Action<M>>,
                     wire: seq<Wire>, k: R.Cookie, text: R.Response)
    requires Consistent(f) && f.sys == Execute(parses, acts)
    requires Attributed(render, f.cookies, f.sys.ledger.sent, wire) && IsLast(wire, k, text)
    ensures RepliesFor(parses, render, f, acts, wire, k, text)
  {
    var j := OneReplyIsDue(parses, acts, LastReply(wire, k).value.clim);
  }

  /**
    After every run, a copy that is answered from the cache gets the one reply to the last command answered
    under its cookie, and it says what was due for that command.
  */
  lemma {:induction false} CopyGetsOwnReply<M>(parses: string -> bool, render: Sent -> R.Response,
                                               inputs: seq<Input<M>>, k: R.Cookie)
    ensures var f := RunFront(parses, render, inputs);
      var v := R.Arrive(f.caches, k).1;
      v.FromCache? ==> RepliesFor(parses, render, f, Trace(parses, render, inputs), f.wire, k, v.text)
  {
    TracedAlways(parses, render, inputs);
    FrontRunsDispatcher(parses, render, inputs);
    var f := RunFront(parses, render, inputs);
    var v := R.Arrive(f.caches, k).1;
    if v.FromCache? {
      LastIsOwn(parses, render, f, Trace(parses, render, inputs), f.wire, k, v.text);
    }
  }

  /** Over every run, each text sent for a copy was that reply when it was sent. */
  lemma {:induction false} EveryReplayIsOwnReply<M>(parses: string -> bool, render: Sent -> R.Response,
                                                    inputs: seq<Input<M>>, i: nat)
    requires i < |RunFront(parses, render, inputs).wire| && RunFront(parses, render, inputs).wire[i].Replay?
    ensures var f := RunFront(parses, render, inputs);
      RepliesFor(parses, render, f, Trace(parses, render, inputs), f.wire[..i], f.wire[i].k, f.wire[i].text)
  {
    TracedAlways(parses, render, inputs);
    FrontRunsDispatcher(parses, render, inputs);
    var f := RunFront(parses, render, inputs);
    var w := f.wire[i];
    LastIsOwn(parses, render, f, Trace(parses, render, inputs), f.wire[..i], w.k, w.text);
  }
}
