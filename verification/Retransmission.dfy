/**
  Retransmission handling of the UDP front end.

  A command arrives with a cookie. The dispatcher keeps the cookies being
  executed (commands_inflight) and the responses of the last two purge periods
  (l1rcache, l2rcache). The code takes the lock three times for one command:
  when it arrives, when its mark is dropped, and when its response is stored.
  Each of these sections is one step here, so every interleaving of them is a
  run. The reference model is a log of the stored responses, each stamped with
  the number of purges that had happened.
*/
module Retransmission {
  import opened Common

  type Cookie = string

  /** A response always ends with a newline, so it is never the empty string. */
  type Response = t: string | t != "" witness "\n"

  datatype Caches = Caches(
    inflight: set<Cookie>,
    l1: map<Cookie, Response>,
    l2: map<Cookie, Response>)

  datatype Verdict = Ignored | FromCache(text: Response) | Executed

  /** First lock section: what happens to one arriving datagram. */
  function Arrive(c: Caches, k: Cookie): (r: (Caches, Verdict)) {
    if k in c.inflight then (c, Ignored)
    else if k in c.l1 then (c, FromCache(c.l1[k]))
    else if k in c.l2 then (c, FromCache(c.l2[k]))
    else (c.(inflight := c.inflight + {k}), Executed)
  }

  /** Second lock section: the reply has come, the mark is dropped. */
  function Unmark(c: Caches, k: Cookie): Caches {
    c.(inflight := c.inflight - {k})
  }

  /** Third lock section: the response that was sent is remembered. */
  function Store(c: Caches, k: Cookie, text: Response): Caches {
    c.(l1 := c.l1[k := text])
  }

  function Purge(c: Caches): Caches {
    c.(l2 := c.l1, l1 := map[])
  }

  // ---------------------------------------------------------------- runs

  datatype Entry = Entry(cookie: Cookie, text: Response, epoch: nat)

  datatype Output = Live(cookie: Cookie, text: Response) | Replay(cookie: Cookie, text: Response)

  /** The caches together with the history that explains them. */
  datatype System = System(
    caches: Caches,
    executions: multiset<Cookie>,           // admissions to up_command
    answers: multiset<Cookie>,              // down_command calls that passed the second section
    storing: multiset<(Cookie, Response)>,  // replies between the second and the third section
    log: seq<Entry>,
    epoch: nat,
    outputs: seq<Output>)

  datatype Step =
    | Arrival(k: Cookie)
    | Unmarking(k: Cookie, text: Response)
    | Storing(k: Cookie, text: Response)
    | Purging

  const Initial := System(Caches({}, map[], map[]), multiset{}, multiset{}, multiset{}, [], 0, [])

  /** One step; a reply step needs an execution that has not been answered. */
  function Next(s: System, step: Step): System {
    match step
    case Arrival(k) =>
      var (c, v) := Arrive(s.caches, k);
      (match v
       case Ignored => s
       case FromCache(text) => s.(outputs := s.outputs + [Replay(k, text)])
       case Executed => s.(caches := c, executions := s.executions + multiset{k}))
    case Unmarking(k, text) =>
      if s.answers[k] < s.executions[k]
      then s.(caches := Unmark(s.caches, k), answers := s.answers + multiset{k},
              storing := s.storing + multiset{(k, text)}, outputs := s.outputs + [Live(k, text)])
      else s
    case Storing(k, text) =>
      if (k, text) in s.storing
      then s.(caches := Store(s.caches, k, text), storing := s.storing - multiset{(k, text)},
              log := s.log + [Entry(k, text, s.epoch)])
      else s
    case Purging => s.(caches := Purge(s.caches), epoch := s.epoch + 1)
  }

  function Run(steps: seq<Step>): System {
    if steps == [] then Initial else Next(Run(steps[..|steps| - 1]), steps[|steps| - 1])
  }

  function LastStored(log: seq<Entry>, k: Cookie): Option<Entry> {
    if log == [] then None
    else if log[|log| - 1].cookie == k then Some(log[|log| - 1])
    else LastStored(log[..|log| - 1], k)
  }

  /** What the log says a retransmission should get: the last response, if no older than the previous period. */
  function Recent(s: System, k: Cookie): Option<Response> {
    match LastStored(s.log, k)
    case None => None
    case Some(e) => if s.epoch <= e.epoch + 1 then Some(e.text) else None
  }

  /** The verdict as the log gives it; the two cache generations do not appear. */
  function LogVerdict(s: System, k: Cookie): Verdict {
    if k in s.caches.inflight then Ignored
    else match Recent(s, k) case Some(text) => FromCache(text) case None => Executed
  }

  ghost predicate RefinesLog(s: System) {
    && (forall k :: LastStored(s.log, k).Some? ==> LastStored(s.log, k).value.epoch <= s.epoch)
    && (forall k :: k in s.caches.l1 <==> LastStored(s.log, k).Some? && LastStored(s.log, k).value.epoch == s.epoch)
    && (forall k :: k in s.caches.l1 ==> s.caches.l1[k] == LastStored(s.log, k).value.text)
    && (forall k :: k !in s.caches.l1 ==>
        (k in s.caches.l2 <==> LastStored(s.log, k).Some? && LastStored(s.log, k).value.epoch + 1 == s.epoch))
    && (forall k :: k !in s.caches.l1 && k in s.caches.l2 ==> s.caches.l2[k] == LastStored(s.log, k).value.text)
  }

  lemma LastStoredAfter(log: seq<Entry>, e: Entry, k: Cookie)
    ensures LastStored(log + [e], k) == if e.cookie == k then Some(e) else LastStored(log, k)
  {
    assert (log + [e])[..|log|] == log;
  }

  lemma RefinesLogStep(s: System, step: Step)
    requires RefinesLog(s)
    ensures RefinesLog(Next(s, step))
  {
    match step
    case Storing(k, text) => RefinesLogStoring(s, k, text);
    case Arrival(_) =>
    case Unmarking(_, _) =>
    case Purging =>
  }

  lemma RefinesLogStoring(s: System, k: Cookie, text: Response)
    requires RefinesLog(s)
    ensures RefinesLog(Next(s, Storing(k, text)))
  {
    var e := Entry(k, text, s.epoch);
    forall j ensures LastStored(s.log + [e], j) == if k == j then Some(e) else LastStored(s.log, j) {
      LastStoredAfter(s.log, e, j);
    }
  }

  lemma {:induction false} RefinesLogAlways(steps: seq<Step>)
    ensures RefinesLog(Run(steps))
  {
    if steps != [] {
      RefinesLogAlways(steps[..|steps| - 1]);
      RefinesLogStep(Run(steps[..|steps| - 1]), steps[|steps| - 1]);
    }
  }

  /** After every interleaving, an arriving copy gets exactly what the stamped log says. */
  lemma {:induction false} CacheRefinesLog(steps: seq<Step>, k: Cookie)
    ensures Arrive(Run(steps).caches, k).1 == LogVerdict(Run(steps), k)
  {
    RefinesLogAlways(steps);
  }

  ghost predicate InReplyWindow(s: System, k: Cookie) {
    exists text :: (k, text) in s.storing
  }

  ghost predicate Remembered(s: System) {
    forall k :: k in s.executions ==>
      k in s.caches.inflight || InReplyWindow(s, k) || LastStored(s.log, k).Some?
  }

  lemma RememberedUnmarking(s: System, k: Cookie, text: Response)
    requires Remembered(s)
    ensures Remembered(Next(s, Unmarking(k, text)))
  {
    var n := Next(s, Unmarking(k, text));
    forall j | j in n.executions
      ensures j in n.caches.inflight || InReplyWindow(n, j) || LastStored(n.log, j).Some?
    {
      if InReplyWindow(s, j) {
        var t :| (j, t) in s.storing;
        assert (j, t) in n.storing;
      } else if n != s && j == k {
        assert (j, text) in n.storing;
      }
    }
  }

  lemma RememberedStoring(s: System, k: Cookie, text: Response)
    requires Remembered(s)
    ensures Remembered(Next(s, Storing(k, text)))
  {
    var n := Next(s, Storing(k, text));
    forall j | j in n.executions
      ensures j in n.caches.inflight || InReplyWindow(n, j) || LastStored(n.log, j).Some?
    {
      if n != s {
        LastStoredAfter(s.log, Entry(k, text, s.epoch), j);
        if InReplyWindow(s, j) && j != k {
          var t :| (j, t) in s.storing;
          assert (j, t) in n.storing;
        }
      }
    }
  }

  lemma RememberedStep(s: System, step: Step)
    requires Remembered(s)
    ensures Remembered(Next(s, step))
  {
    match step
    case Arrival(_) => assert forall k :: InReplyWindow(s, k) ==> InReplyWindow(Next(s, step), k);
    case Unmarking(k, text) => RememberedUnmarking(s, k, text);
    case Storing(k, text) => RememberedStoring(s, k, text);
    case Purging => assert forall k :: InReplyWindow(s, k) ==> InReplyWindow(Next(s, step), k);
  }

  lemma {:induction false} RememberedAlways(steps: seq<Step>)
    ensures Remembered(Run(steps))
  {
    if steps != [] {
      RememberedAlways(steps[..|steps| - 1]);
      RememberedStep(Run(steps[..|steps| - 1]), steps[|steps| - 1]);
    }
  }

  /** An admitted cookie runs a second time only inside its reply window or two purges after its last response. */
  lemma {:induction false} ReexecutionNeedsWindowOrAge(steps: seq<Step>, k: Cookie)
    requires k in Run(steps).executions
    requires Arrive(Run(steps).caches, k).1 == Executed
    ensures var s := Run(steps);
      InReplyWindow(s, k) || (LastStored(s.log, k).Some? && LastStored(s.log, k).value.epoch + 2 <= s.epoch)
  {
    RememberedAlways(steps);
    CacheRefinesLog(steps, k);
  }

  /** Each execution is answered, or it is the one that the mark stands for. */
  ghost predicate MarksExact(s: System) {
    forall k :: s.executions[k] == s.answers[k] + if k in s.caches.inflight then 1 else 0
  }

  lemma MarksExactStep(s: System, step: Step)
    requires MarksExact(s)
    ensures MarksExact(Next(s, step))
  {
    match step
    case Arrival(_) =>
    case Unmarking(k, _) => assert s.answers[k] < s.executions[k] ==> k in s.caches.inflight;
    case Storing(_, _) =>
    case Purging =>
  }

  lemma {:induction false} MarksExactAlways(steps: seq<Step>)
    ensures MarksExact(Run(steps))
  {
    if steps != [] {
      MarksExactAlways(steps[..|steps| - 1]);
      MarksExactStep(Run(steps[..|steps| - 1]), steps[|steps| - 1]);
    }
  }

  /** Over every interleaving the marks are exactly the unanswered executions, at most one for each cookie. */
  lemma {:induction false} MarksAreUnanswered(steps: seq<Step>, k: Cookie)
    ensures var s := Run(steps);
      && s.answers[k] <= s.executions[k] <= s.answers[k] + 1
      && (k in s.caches.inflight <==> s.answers[k] < s.executions[k])
  {
    MarksExactAlways(steps);
  }

  /**
    An admitted cookie runs again exactly when all its executions are answered and its last response is not
    stored yet or two purges old.
  */
  lemma {:induction false} ReexecutionExactly(steps: seq<Step>, k: Cookie)
    requires k in Run(steps).executions
    ensures var s := Run(steps);
      Arrive(s.caches, k).1 == Executed <==>
        && s.answers[k] == s.executions[k]
        && (LastStored(s.log, k).None? || LastStored(s.log, k).value.epoch + 2 <= s.epoch)
  {
    MarksAreUnanswered(steps, k);
    CacheRefinesLog(steps, k);
  }

  /** The window is real: a copy that slips between the second and the third section is executed again. */
  lemma ReexecutionInsideWindow(k: Cookie, text: Response)
    ensures var s := Run([Arrival(k), Unmarking(k, text)]);
      s.executions[k] == 1 && Arrive(s.caches, k).1 == Executed
  {
    var a, u := Arrival(k), Unmarking(k, text);
    assert [a, u][..1] == [a];
    assert [a][..0] == [];
    assert Run([a]) == Next(Initial, a);
    assert Run([a, u]) == Next(Run([a]), u);
  }

  // ------------------------------------------------------ replay fidelity

  ghost predicate Faithful(s: System) {
    && (forall k, text :: (k, text) in s.storing ==> Live(k, text) in s.outputs)
    && (forall e :: e in s.log ==> Live(e.cookie, e.text) in s.outputs)
    && (forall i :: 0 <= i < |s.outputs| && s.outputs[i].Replay? ==>
          Live(s.outputs[i].cookie, s.outputs[i].text) in s.outputs[..i])
  }

  lemma LastStoredIsLogged(log: seq<Entry>, k: Cookie)
    ensures LastStored(log, k).Some? ==> LastStored(log, k).value in log && LastStored(log, k).value.cookie == k
  {
  }

  /** One more output keeps fidelity when a replay repeats a live reply. */
  lemma FaithfulOutput(outputs: seq<Output>, o: Output)
    requires forall i :: 0 <= i < |outputs| && outputs[i].Replay? ==>
      Live(outputs[i].cookie, outputs[i].text) in outputs[..i]
    requires o.Replay? ==> Live(o.cookie, o.text) in outputs
    ensures var n := outputs + [o];
      forall i :: 0 <= i < |n| && n[i].Replay? ==> Live(n[i].cookie, n[i].text) in n[..i]
  {
    var n := outputs + [o];
    forall i | 0 <= i < |n| && n[i].Replay? ensures Live(n[i].cookie, n[i].text) in n[..i] {
      assert n[..i] == if i < |outputs| then outputs[..i] else outputs;
    }
  }

  lemma FaithfulArrival(s: System, k: Cookie)
    requires RefinesLog(s) && Faithful(s)
    ensures Faithful(Next(s, Arrival(k)))
  {
    LastStoredIsLogged(s.log, k);
    var v := Arrive(s.caches, k).1;
    if v.FromCache? {
      assert Live(k, v.text) in s.outputs;
      FaithfulOutput(s.outputs, Replay(k, v.text));
    }
  }

  lemma FaithfulUnmarking(s: System, k: Cookie, text: Response)
    requires Faithful(s)
    ensures Faithful(Next(s, Unmarking(k, text)))
  {
    FaithfulOutput(s.outputs, Live(k, text));
  }

  lemma FaithfulStep(s: System, step: Step)
    requires RefinesLog(s) && Faithful(s)
    ensures Faithful(Next(s, step))
  {
    match step
    case Arrival(k) => FaithfulArrival(s, k);
    case Unmarking(k, text) => FaithfulUnmarking(s, k, text);
    case Storing(_, _) =>
    case Purging =>
  }

  lemma {:induction false} FaithfulAlways(steps: seq<Step>)
    ensures Faithful(Run(steps))
  {
    if steps != [] {
      FaithfulAlways(steps[..|steps| - 1]);
      RefinesLogAlways(steps[..|steps| - 1]);
      FaithfulStep(Run(steps[..|steps| - 1]), steps[|steps| - 1]);
    }
  }

  /** Whatever the interleaving, a replayed text was sent before as a live reply to the same cookie. */
  lemma {:induction false} ReplaysWereSentBefore(steps: seq<Step>, i: nat)
    requires i < |Run(steps).outputs| && Run(steps).outputs[i].Replay?
    ensures var o := Run(steps).outputs; Live(o[i].cookie, o[i].text) in o[..i]
  {
    FaithfulAlways(steps);
  }

  // -------------------------------------------------- atomic down_command

  datatype AtomicStep = Copy(k: Cookie) | Reply(k: Cookie, text: Response) | Tick

  /** The lock-level steps one atomic step stands for. */
  function Expand(a: AtomicStep): seq<Step> {
    match a
    case Copy(k) => [Arrival(k)]
    case Reply(k, text) => [Unmarking(k, text), Storing(k, text)]
    case Tick => [Purging]
  }

  function ExpandAll(run: seq<AtomicStep>): seq<Step> {
    if run == [] then [] else ExpandAll(run[..|run| - 1]) + Expand(run[|run| - 1])
  }

  function NextAtomic(s: System, a: AtomicStep): System {
    match a
    case Copy(k) => Next(s, Arrival(k))
    case Reply(k, text) => Next(Next(s, Unmarking(k, text)), Storing(k, text))
    case Tick => Next(s, Purging)
  }

  lemma RunExpand(steps: seq<Step>, a: AtomicStep)
    ensures Run(steps + Expand(a)) == NextAtomic(Run(steps), a)
  {
    var e := Expand(a);
    if a.Reply? {
      assert (steps + e)[..|steps| + 1] == steps + [e[0]];
      assert (steps + [e[0]])[..|steps|] == steps;
    } else {
      assert (steps + e)[..|steps|] == steps;
    }
  }

  function LastLive(outputs: seq<Output>, k: Cookie): Option<Response> {
    if outputs == [] then None
    else
      var o := outputs[|outputs| - 1];
      if o.Live? && o.cookie == k then Some(o.text) else LastLive(outputs[..|outputs| - 1], k)
  }

  /** Between atomic replies no window is open, the stores are disjoint and the marks exact. */
  ghost predicate StoresSettled(s: System) {
    && s.storing == multiset{}
    && MarksExact(s)
    && s.caches.inflight !! s.caches.l1.Keys
    && s.caches.inflight !! s.caches.l2.Keys
    && s.caches.l1.Keys !! s.caches.l2.Keys
    && (forall k :: s.answers[k] > 0 <==> LastStored(s.log, k).Some?)
  }

  /** The log holds the latest live text of each cookie, and each replay repeats the latest before it. */
  ghost predicate OutputsSettled(s: System) {
    && (forall k :: LastStored(s.log, k).Some? ==> LastLive(s.outputs, k) == Some(LastStored(s.log, k).value.text))
    && (forall i :: 0 <= i < |s.outputs| && s.outputs[i].Replay? ==>
          LastLive(s.outputs[..i], s.outputs[i].cookie) == Some(s.outputs[i].text))
  }

  ghost predicate Settled(s: System) {
    StoresSettled(s) && OutputsSettled(s)
  }

  lemma LastLiveAfter(outputs: seq<Output>, o: Output, k: Cookie)
    ensures LastLive(outputs + [o], k) == if o.Live? && o.cookie == k then Some(o.text) else LastLive(outputs, k)
  {
    assert (outputs + [o])[..|outputs|] == outputs;
  }

  /** Appending one output keeps the replay clause when a replay repeats the last live text. */
  lemma ReplayClauseAfter(outputs: seq<Output>, o: Output)
    requires forall i :: 0 <= i < |outputs| && outputs[i].Replay? ==>
               LastLive(outputs[..i], outputs[i].cookie) == Some(outputs[i].text)
    requires o.Replay? ==> LastLive(outputs, o.cookie) == Some(o.text)
    ensures var n := outputs + [o]; forall i :: 0 <= i < |n| && n[i].Replay? ==>
               LastLive(n[..i], n[i].cookie) == Some(n[i].text)
    ensures forall k :: LastLive(outputs + [o], k) == if o.Live? && o.cookie == k then Some(o.text)
      else LastLive(outputs, k)
  {
    var n := outputs + [o];
    forall i | 0 <= i < |n| && n[i].Replay?
      ensures LastLive(n[..i], n[i].cookie) == Some(n[i].text)
    {
      assert n[..i] == if i < |outputs| then outputs[..i] else outputs;
    }
    forall k { LastLiveAfter(outputs, o, k); }
  }

  lemma SettledCopy(s: System, k: Cookie)
    requires RefinesLog(s) && Settled(s)
    ensures Settled(Next(s, Arrival(k)))
  {
    match Arrive(s.caches, k).1
    case Ignored =>
    case Executed =>
    case FromCache(text) =>
      ReplayClauseAfter(s.outputs, Replay(k, text));
  }

  /** What an atomic reply does when nothing is being stored. */
  lemma ReplyEffect(s: System, k: Cookie, text: Response)
    requires s.storing == multiset{} && s.answers[k] < s.executions[k]
    ensures NextAtomic(s, Reply(k, text)) == s.(
      caches := Store(Unmark(s.caches, k), k, text), answers := s.answers + multiset{k},
      log := s.log + [Entry(k, text, s.epoch)], outputs := s.outputs + [Live(k, text)])
  {
    assert s.storing + multiset{(k, text)} - multiset{(k, text)} == s.storing;
  }

  lemma StoresSettledReply(s: System, k: Cookie, text: Response)
    requires RefinesLog(s) && StoresSettled(s)
    ensures StoresSettled(NextAtomic(s, Reply(k, text)))
  {
    if s.answers[k] < s.executions[k] {
      ReplyEffect(s, k, text);
      forall j { LastStoredAfter(s.log, Entry(k, text, s.epoch), j); }
      assert k in s.caches.inflight;
    }
  }

  lemma OutputsSettledReply(s: System, k: Cookie, text: Response)
    requires s.storing == multiset{} && OutputsSettled(s)
    ensures OutputsSettled(NextAtomic(s, Reply(k, text)))
  {
    if s.answers[k] < s.executions[k] {
      ReplyEffect(s, k, text);
      ReplayClauseAfter(s.outputs, Live(k, text));
      forall j { LastStoredAfter(s.log, Entry(k, text, s.epoch), j); }
    }
  }

  lemma SettledReply(s: System, k: Cookie, text: Response)
    requires RefinesLog(s) && Settled(s)
    ensures Settled(NextAtomic(s, Reply(k, text)))
  {
    StoresSettledReply(s, k, text);
    OutputsSettledReply(s, k, text);
  }

  lemma SettledStep(s: System, a: AtomicStep)
    requires RefinesLog(s) && Settled(s)
    ensures Settled(NextAtomic(s, a))
  {
    match a
    case Copy(k) => SettledCopy(s, k);
    case Reply(k, text) => SettledReply(s, k, text);
    case Tick =>
  }

  lemma {:induction false} SettledAlways(run: seq<AtomicStep>)
    ensures Settled(Run(ExpandAll(run)))
  {
    if run != [] {
      var before, a := run[..|run| - 1], run[|run| - 1];
      SettledAlways(before);
      RefinesLogAlways(ExpandAll(before));
      RunExpand(ExpandAll(before), a);
      SettledStep(Run(ExpandAll(before)), a);
    }
  }

  /** With down_command atomic the three stores never overlap and the marks are exactly the unanswered executions. */
  lemma {:induction false} AtomicStoresDisjoint(run: seq<AtomicStep>, k: Cookie)
    ensures var s := Run(ExpandAll(run));
      && s.caches.inflight !! s.caches.l1.Keys && s.caches.inflight !! s.caches.l2.Keys
      && s.caches.l1.Keys !! s.caches.l2.Keys
      && (k in s.caches.inflight <==> s.answers[k] < s.executions[k])
      && s.executions[k] <= s.answers[k] + 1
  {
    SettledAlways(run);
  }

  /** With down_command atomic a replay is byte-identical to the latest live reply to that cookie. */
  lemma {:induction false} AtomicReplayIsLastReply(run: seq<AtomicStep>, i: nat)
    requires i < |Run(ExpandAll(run)).outputs| && Run(ExpandAll(run)).outputs[i].Replay?
    ensures var o := Run(ExpandAll(run)).outputs; LastLive(o[..i], o[i].cookie) == Some(o[i].text)
  {
    SettledAlways(run);
  }

  /**
    With down_command atomic an arriving copy is executed exactly when the cookie is new or its answer is two
    purges old.
  */
  lemma {:induction false} AtomicExecutionExact(run: seq<AtomicStep>, k: Cookie)
    ensures var s := Run(ExpandAll(run));
      Arrive(s.caches, k).1 == Executed <==>
        s.executions[k] == 0 ||
        (s.answers[k] == s.executions[k] && LastStored(s.log, k).Some?
          && LastStored(s.log, k).value.epoch + 2 <= s.epoch)
  {
    SettledAlways(run);
    CacheRefinesLog(ExpandAll(run), k);
    RefinesLogAlways(ExpandAll(run));
  }

  // --------------------------------------------------- the dispatcher object

  /** The part of the cluster object that the three lock sections work on. */
  class ResponseCache {
    var commands_inflight: set<Cookie>
    var l1rcache: map<Cookie, Response>
    var l2rcache: map<Cookie, Response>

    function View(): Caches
      reads this
    {
      Caches(commands_inflight, l1rcache, l2rcache)
    }

    constructor ()
      ensures View() == Initial.caches
    {
      commands_inflight, l1rcache, l2rcache := {}, map[], map[];
    }

    /** First section: the cached text is taken with "" standing for none, as in the code. */
    method UpCommandUdp(cookie: Cookie) returns (v: Verdict)
      modifies this
      ensures (View(), v) == Arrive(old(View()), cookie)
    {
      if cookie in commands_inflight {
        return Ignored;
      }
      var cresp: string := "";
      if cookie in l1rcache {
        cresp := l1rcache[cookie];
      } else if cookie in l2rcache {
        cresp := l2rcache[cookie];
      }
      if cresp != "" {
        return FromCache(cresp);
      }
      commands_inflight := commands_inflight + {cookie};
      v := Executed;
    }

    /** Second section. */
    method DropMark(cookie: Cookie)
      modifies this`commands_inflight
      ensures View() == Unmark(old(View()), cookie)
    {
      if cookie in commands_inflight {
        commands_inflight := commands_inflight - {cookie};
      }
    }

    /** Third section. */
    method StoreResponse(cookie: Cookie, response: Response)
      modifies this`l1rcache
      ensures View() == Store(old(View()), cookie, response)
    {
      l1rcache := l1rcache[cookie := response];
    }

    method RCachePurge()
      modifies this`l1rcache, this`l2rcache
      ensures View() == Purge(old(View()))
    {
      l2rcache := l1rcache;
      l1rcache := map[];
    }
  }
}
