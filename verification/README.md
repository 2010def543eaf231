# RTP cluster dispatcher: a model and its proofs

The dispatcher stands between a signalling server and a set of RTP proxies. It
takes commands (over UDP with a cookie, or over a stream), decides which proxy
serves a call, forwards or broadcasts the command, and answers the client once.
Meanwhile proxies go online and offline, report their load, are drained,
reconfigured and removed, and the maps that tie calls to proxies age.

The project has two layers.

* **Step functions and runs.** The state of each part is a datatype, each
  operation of the code is a function on it, and a run is any sequence of
  steps. The main results are about all runs.
* **Objects.** `Objects`, `Retransmission.ResponseCache`,
  `Broadcast.Broadcaster`, `Notify.DNRelay` and `ConfigObjects` hold the classes
  whose methods update fields in place, with the loops of the code. Each method
  is proved to take its object from one abstract state to the one the step
  function gives, so the results about runs are about these methods.

| module | subject |
|---|---|
| `FrontEnd` | retransmission and reply accounting as one system |
| `Retransmission` | cookies in flight and the two-generation response cache, at lock granularity |
| `Sessions`, `Affinity` | the two generations of call-ids of a member, and how routing drives them |
| `Scheduler`, `Load` | weighted choice of a proxy, and the load estimate over all runs |
| `Membership`, `Runs` | the lists of online and offline members, every event of a cluster, all runs |
| `Routing`, `Ownership` | routing of one command, and the single owner of a call |
| `Draining` | graceful removal |
| `Broadcast`, `Replies`, `ReplyTexts` | merging replies, the accounting of one reply for each command, and what this reply says |
| `Addresses` | the text that the client gets for a reply |
| `Notify` | rewriting of disconnect notifications and the relay that undoes it |
| `Sweep`, `Reload`, `Cli` | reload of a cluster and of the whole dispatcher, and `modify` |
| `Startup` | the start of the dispatcher |
| `AdminRuns` | sequences of `modify`, `reload` and cluster events over the whole dispatcher |
| `Config`, `ConfigTree`, `ConfigDocument`, `ConfigContext`, `ConfigNames`, `ConfigRoundTrip`, `ConfigObjects` | the configuration reader and writer |
| `Objects` | the cluster and member objects |
| `Common`, `Lists`, `Text` | helpers |

`dafny verify dfyconfig.toml` checks everything.

## Where the code does not do what it is meant to

Each of these is a theorem with the exact condition.

* **Broadcast results.** `newBroadcaster` makes a slice of length 1000
  (rtp_cluster.go:62), so the test for exactly one result (rtp_cluster.go:675)
  never succeeds and a sole positive answer is never relayed. The merge lemmas
  hold for any initial slice; `Broadcast.CodedMergeDiffersOnSoleAnswer` compares
  the two, and `Replies` uses the coded one.
* **Reload on a shared array.** `all_members` (rtp_cluster.go:659-661) may share
  the array of `active`, which `bring_down` shifts during the loop. `Sweep`
  follows the code; list lengths and capacity decide about sharing.
  `Sweep.SharedSweepExactly` says which members are missed, and
  `Reload.ReloadReconcilesExactly` gives the condition on the initial lists and
  the configuration.
* **Retransmissions** can be executed again in the window between dropping the
  mark and storing the response (`Retransmission.ReexecutionExactly`, with a run
  in `Retransmission.ReexecutionInsideWindow`).
* **Second owner.** A new session with the call-id of an offline member's call
  gets a second owner (`Ownership.OneOwnerStepExactly`, with a run in
  `Ownership.ReuseHappens`).
* **Nobody online.** With no member online every command is answered E999, also
  for calls that an offline member owns and would otherwise get
  (`Ownership.OwnedCallGoesToOwner`, with a run in
  `Ownership.OwnedCallIsRefused`).
* **No reply.** After a parse failure, an undecodable notify tag or a failure to
  parse the rebuilt text, no reply is ever sent (`Replies.LostExactly`, with a
  run in `Replies.UndecodableTagIsGivenUp`), and the cookie of such a command
  blocks all its copies (`FrontEnd.GivenUpCookieIsStuck`).
* **Cluster names.** Two clusters with the same new name (the reader lets empty
  names repeat) both stay (`AdminRuns.ReloadNamesExactly`, with an input in
  `AdminRuns.TwoUnnamedClusters`).
* **Stopped reloads.** The reader keeps a protocol it calls wrong
  (rtp_cluster_config.go:208-210, 273), and one such proxy stops a reload half
  way: later clusters are not loaded and dropped ones keep running
  (`Cli.ReloadRunsThroughExactly`, `Cli.StoppedReloadExactly`).
* **Starting with repeated names.** The loop of main.go takes a repeated proxy
  name twice (`Startup.StartNamesExactly`).
* **Notification sockets with a space** after the prefix are not recovered
  (`Notify.RewriteIsTransparent`), and a notification without any space ends the
  process (dnrelay.go:178, `Notify.DNRelay.RecvDnotify`).
* **Configuration writer.** Its capacity limit line is not a start tag of
  XML 1.0 (section 3.1), so reading stops there
  (`ConfigRoundTrip.CodedRoundTripExactly`).
* **Configuration reader.** Text before the root element indexes an empty stack
  (`ConfigDocument.DocumentMeaning`).

The documents of the repository differ from the code in two places, and the
model follows the code: the DTD gives `capacity_limit` the default type "soft",
while the reader leaves the limit hard when the attribute is missing; the user
documentation calls the CLI action `suspend`, while the code accepts `pause`.

## Modelling choices

* One command, one callback, one timer or one CLI command is one step, except
  in `Retransmission`, where each lock section is a step.
* Whether a text parses, whether a rebuilt text parses again, whether a member's
  client is online after its start, and the random draw in [0, 1) are inputs of
  the step and take any value.
* `FrontEnd` holds for every rendering of a reply as text. For the reply of a
  member, `Addresses.Response` is what `down_command` makes of it, with the
  addresses of the member at that moment.
* A parsed command is a record with the fields routing reads. The client
  library runs each callback once, in any order.
* Runs of commands begin with the empty dispatcher. `Startup.StartIsFirstReload`
  says when the start of main.go is a reload of it.
* The relay of a configured cluster is what `update_dnrelay` leaves: none if the
  configured one cannot be started (rtp_cluster.go:180-184).
* The capacity of `active` when the last loop of a reload starts is an input; it
  is 1000 as long as `active` has never held more.
* A member is identified by its object. Its record stays in the state after
  removal, so that late callbacks can be described.
* Weights, load and draws are real numbers.

## Model

| member | source | states |
|---|---|---|
| `Retransmission.CacheRefinesLog` | rtp_cluster.go:330-353 | after every interleaving of arrivals, mark drops, stores and purges, an arriving copy is ignored, replayed or executed exactly as a log of stored responses stamped with purge epochs says; the two cache generations answer for the current and the previous epoch |
| `Retransmission.ReexecutionNeedsWindowOrAge` | rtp_cluster.go:541-573 | over every interleaving, a cookie already admitted is executed again only while one of its replies is between dropping the mark and being stored, or when its last stored response is at least two purges old |
| `Retransmission.MarksAreUnanswered` | rtp_cluster.go:330-353 | over every interleaving, the marks are exactly the executions not yet answered, at most one for each cookie |
| `Retransmission.ReexecutionExactly` | rtp_cluster.go:331-352 | over every interleaving, an admitted cookie is executed again if and only if all its executions are answered and its last response is not stored yet or is two purges old |
| `Retransmission.ReexecutionInsideWindow` | rtp_cluster.go:543-571 | the window exists: a concrete run in which a copy arriving between the two sections is executed a second time |
| `Retransmission.ReplaysWereSentBefore` | rtp_cluster.go:335-350 | over every interleaving, a replayed text was sent earlier as a live reply to the same cookie |
| `Retransmission.AtomicStoresDisjoint` | rtp_cluster.go:330-353 | when down_command is atomic, commands_inflight, l1rcache and l2rcache are pairwise disjoint in every reachable state, and the marks are exactly the executions not yet answered, one per cookie |
| `Retransmission.AtomicReplayIsLastReply` | rtp_cluster.go:565-571 | when down_command is atomic, each replay is identical to the latest live reply to that cookie |
| `Retransmission.AtomicExecutionExact` | rtp_cluster.go:331-352 | when down_command is atomic, a copy is executed if and only if its cookie was never executed, or is fully answered with its last response two or more purges old |
| `Retransmission.ResponseCache.UpCommandUdp` | rtp_cluster.go:330-353 | the first lock section on the real maps, with "" standing for a cache miss, decides as the arrival step of the protocol and leaves the state of that step |
| `Retransmission.ResponseCache.DropMark` | rtp_cluster.go:542-548 | the second lock section is the unmark step |
| `Retransmission.ResponseCache.StoreResponse` | rtp_cluster.go:567-571 | the third lock section is the store step |
| `Retransmission.ResponseCache.RCachePurge` | rtp_cluster.go:534-539 | the purge shifts the generations |
| `Replies.AnsweredExactly` | rtp_cluster.go:358-532 | over every run of accepts, callbacks in any order and cluster events: once the callbacks of a command have run, exactly one reply has been sent for it, or none exactly when the text did not parse or a delivery error, readable on arrival, occurred |
| `Replies.ExactlyOneReply` | rtp_cluster.go:541-573 | over every run no command is ever answered twice; a settled command has one reply, a given-up one has none |
| `ReplyTexts.ReplyIsDue` | rtp_cluster.go:358-577 | over every run of accepts, callbacks in any order and cluster events, what has been replied to a command is exactly what is due: the answer of its routing if there was one at once, "0" for a delete at an offline owner, the text of the first reply to its own forwarding, or, once as many members have replied to its own broadcast as it waits for, "0" or E995 for a session command and E993 or all usable answers added up for statistics; nothing before that, and nothing for a given-up one |
| `Replies.LostExactly` | rtp_cluster.go:360-364 | a command is given up if and only if its text does not parse, its notify tag does not decode where it is rewritten, or the text for a member with a LAN address does not parse again (for one member or for any member of a broadcast) |
| `Replies.UndecodableTagIsGivenUp` | rtp_cluster.go:419-426 | giving up occurs: a run from the fresh cluster in which a new session with a bare percent sign as notify tag is lost |
| `FrontEnd.MarksAreUnanswered` | rtp_cluster.go:323-356 | with down_command as one step, over every run of datagrams, stream commands, callbacks, events and purges, a cookie is in flight if and only if a command that came with it has no reply yet |
| `FrontEnd.GivenUpCookieIsStuck` | rtp_cluster.go:330-364 | once a command that came with a cookie is given up, the cookie stays in flight and every later copy is ignored, in every continuation |
| `FrontEnd.CopyGetsOwnReply` | rtp_cluster.go:335-350 | over every run and for every rendering of replies as text, a copy that is answered from the cache gets the text of the last reply sent under its cookie; that text renders the only reply to a command that came with the cookie, and this reply is what was due for that command |
| `FrontEnd.EveryReplayIsOwnReply` | rtp_cluster.go:335-350 | over every run, each cached text that was sent for a copy was the text of that reply at the time it was sent |
| `FrontEnd.FrontRunsDispatcher` | rtp_cluster.go:323-356 | behind the front end the dispatcher takes the steps of a run of its own, so that all results about runs hold behind it |
| `Addresses.ResponseExactly` | rtp_cluster.go:549-565 | an empty reply becomes E997; the answer to a U or L, if it is no error and the member has a WAN address, becomes its first field with that address if and only if the field is not "0" and the command names no local address, or names a destination and a local address other than that of the member; every other reply goes out as it came; the code fails on a blank one exactly where it looks for the field |
| `Addresses.ResponseIsStable` | rtp_cluster.go:549-565 | a response that is fed to down_command again comes out unchanged |
| `Replies.OnlyAcceptLoses` | rtp_cluster.go:575-577 | callbacks and cluster events lose and accept no command |
| `Routing.BroadcastReachesEveryActive` | rtp_cluster.go:447-468 | a broadcast waits for every active member, of which there is at least one, and is sent to as many if and only if it is for statistics, or every rebuilt text parses, or no member has a LAN address |
| `Routing.BroadcastExactly` | rtp_cluster.go:437-512 | a command is broadcast if and only if some member is online and it asks for statistics, or is a session command that opens no session and whose call no member knows, online or offline |
| `Routing.BroadcastGoesToActive` | rtp_cluster.go:437-512 | part i of a broadcast goes to the i-th active member; statistics go out as they came but for the options "v" and "V", which are cleared; a session command goes out with its addresses replaced for a member with a LAN address, an L in place of a U, and all else as it came |
| `Routing.AtOnceExactly` | rtp_cluster.go:367-516 | E999 with no member online, E998 for a new session when nobody is picked, the total for the brief information command; every other command that is neither for a session nor for statistics goes to the first active member as it came |
| `Routing.SumSessionsAddsUp` | rtp_cluster.go:470-492 | the total of the brief information reply adds up over the list, with each member that has reported counted and each other skipped |
| `Routing.DeliveredCommand` | rtp_cluster.go:419-531 | a forwarded U or L carries the LAN address of the member with the destination cleared if the member has one, and the own TCP socket with a tag that decodes to the rest of the socket, a space and the decoded tag if the notification is taken over, or no notification at all for a remote member that cannot send it; all other fields are as they came |
| `Routing.NewSessionGoesToPick` | rtp_cluster.go:409-436 | a new session that no online member knows becomes a call of the member that is picked, and is delivered to it in the form that is due, or given up if and only if the delivery fails |
| `Routing.DeliverDropsExactly` | rtp_cluster.go:419-436 | delivery to one member gives up if and only if the notify tag fails to decode or the command fails to parse again; otherwise the command is forwarded |
| `Broadcast.SessionMergeAnswersOnce` | rtp_cluster.go:663-687 | for any initial results: exactly one answer, after the last reply, equal to the sole collected positive answer, else "0" for U and L and E995 for other types |
| `Broadcast.CodedAnswer` | rtp_cluster.go:663-687 | as coded, every session broadcast is answered "0" for U and L and E995 for every other type |
| `Broadcast.IntendedAnswer` | rtp_cluster.go:663-687 | with an empty results slice the answer is the sole reply that is not empty, no error, and not "0" for U and L, and those same texts if there is no such reply or more than one |
| `Broadcast.ReplyReading` | rtp_cluster.go:667 | which replies count as positive or usable: both letter cases of E mark an error, and the cached text or E994 stands for an empty reply |
| `Broadcast.SessionMergeOrderFree` | rtp_cluster.go:663-687 | the session answer is the same for every order of the replies |
| `Broadcast.CodedMergeDiffersOnSoleAnswer` | rtp_cluster.go:60-69 | with an empty results slice a sole positive answer is relayed; with the 1000 blank entries of the code it never is, and the two agree if and only if there is not exactly one positive answer |
| `Broadcast.StatsMergeAnswersOnce` | rtp_cluster.go:689-717 | exactly one statistics answer: E993 if and only if no member gave a usable answer, else all usable answers added up |
| `Broadcast.StatsMergeOrderFree` | rtp_cluster.go:689-717 | the statistics answer is the same for every order of the replies |
| `Broadcast.Broadcaster.MergeResults` | rtp_cluster.go:663-687 | the in-place merge of one reply computes the step the order lemmas are about |
| `Broadcast.Broadcaster.MergeStatsResults` | rtp_cluster.go:689-717 | the same for statistics, including the cached text for an empty reply |
| `Ownership.OneOwnerStepExactly` | rtp_cluster.go:372-418 | one event keeps "each call has at most one owner among online and offline members" if and only if it is not a new session that reuses the call-id of an offline member |
| `Ownership.ReuseHappens` | rtp_cluster.go:387-417 | such a reuse occurs: a run from the fresh cluster with two members and the same call-id twice, after which two members own the call |
| `Ownership.OneOwnerAlways` | rtp_cluster.go:372-418 | over every run without such a reuse, each call has at most one owner, across members going offline and returning |
| `Ownership.MapsDisjointAlways` | rtp_cluster_member.go:146-179 | over every run, reuse or not, call_id_map and call_id_map_old of every member are disjoint |
| `Ownership.OwnedCallTarget` | rtp_cluster.go:373-401 | the two search loops, when they are run for an owned call, end at the owner if and only if the owner is online or the command does not open a new session |
| `Ownership.OwnedCallGoesToOwner` | rtp_cluster.go:367-436 | a session command of an owned call is forwarded to the owner if and only if some member is online, it does not open a new session while the owner is offline, and its delivery does not fail; with no member online it is answered E999 and nothing changes; where the owner is reached, a delete goes out as it came, with an early reply exactly at an offline owner, and any other command in the form that is due to the owner |
| `Ownership.OwnedCallIsRefused` | rtp_cluster.go:367-370 | the refusal occurs: a run from the fresh cluster in which the only member opens a call and goes offline, after which the next command of its call is answered E999 |
| `Ownership.SortChangesNoRouting` | rtp_cluster_cli.go:107 | sorting the online members changes neither the search for an owned call nor, unless a new session is opened past an offline owner, the outcome of its commands |
| `Routing.OwnerIsFirst` | rtp_cluster.go:374-382 | the search returns a member that knows the call, and nothing only if no member of the list does |
| `Routing.OwnerPosition` | rtp_cluster.go:374-382 | what the search returns is the first member of the list that knows the call |
| `Routing.RouteChangesOnlyCalls` | rtp_cluster.go:358-532 | routing a command changes call maps and nothing else |
| `Routing.RouteHasState` | rtp_cluster.go:358-532 | the new state does not depend on what happens to the text that is sent out |
| `Routing.ForwardedNotifyIsTransparent` | rtp_cluster.go:419-431 | a forwarded U or L carries the own TCP socket and a tag from which the relay recovers the original socket and tag, if and only if the socket has no space after the prefix |
| `Affinity.CallsFollowOps` | rtp_cluster_member.go:146-179 | over every run of cluster events the call map of a member is the result of the touches, binds, unbinds and ageings that routing and timers meant for it, and of nothing else |
| `Affinity.ServedCallSticks` | rtp_cluster_member.go:146-159 | over every run without a reuse, a call named in every ageing period and never deleted is still owned by its member at the end, and its next command is forwarded there if and only if some member is online, no new session is opened past an offline owner, and its delivery does not fail |
| `Affinity.UntouchedCallIsForgotten` | rtp_cluster_member.go:173-179 | a call in the old generation (just bound, or just deleted) that is not named again is forgotten if and only if the ageing of its member runs |
| `Sessions.AgeingDropsExactlyOld` | rtp_cluster_member.go:216-230 | an ageing forgets exactly the old generation; the young one stays young below 1000 calls and becomes the old one otherwise |
| `Sessions.GenerationsExactly` | rtp_cluster_member.go:146-179 | where a touch, a bind and an unbind leave the call they name; other calls stay where they were |
| `Sessions.TouchedCallSurvives` | rtp_cluster_member.go:146-159 | a known call touched between every two consecutive ageings and never unbound is recognised for ever |
| `Sessions.OldCallLivesUntilAgeing` | rtp_cluster_member.go:216-230 | an old call not named again is known if and only if no ageing has run |
| `Sessions.UnboundOrFreshCallLivesUntilAgeing` | rtp_cluster_member.go:161-179 | the same right after an unbind, and after a bind of an unknown call with a type other than D |
| `Sessions.GenerationsStayDisjoint` | rtp_cluster_member.go:146-179 | the generations stay disjoint under every sequence that binds only unknown calls |
| `Runs.Run` | rtp_cluster.go:190-259 | in every reachable state active and pending have no duplicates, active holds exactly the members that are online and not shut down, and pending exactly the offline ones |
| `Runs.RemovedNeverReturns` | rtp_cluster.go:281-321 | a member that was shut down is in neither list ever after, whatever its client or the operator does |
| `Membership.LateCallbacksDoNotReturn` | rtp_cluster_member.go:181-214 | GoOnline, GoOffline and UpdateActive of a removed member leave both lists as they are |
| `Membership.MovesExactly` | rtp_cluster.go:215-237 | a member that comes online moves from pending to the end of active, and one that goes offline the other way; a repeated change moves nobody |
| `Membership.ReportExactly` | rtp_cluster_member.go:208-214 | a report moves the load estimate half way to the count and stores the count; the member leaves the lists and is shut down if and only if the count is new, the member is draining and watched, and its call_id_map is empty or the count is not positive |
| `Lists.SpliceIsRemoveFirst` | rtp_cluster.go:218-224 | the splice at the first occurrence removes that occurrence only |
| `Lists.RemoveFirstMembers` | rtp_cluster.go:239-259 | from a duplicate-free list the splice takes out that member and no other, and leaves no duplicates |
| `Lists.RemoveFirstKeepsOrder` | rtp_cluster.go:239-259 | the splice keeps the order of the members that remain |
| `Draining.BringDownExactly` | rtp_cluster.go:289-310 | bring_down removes and shuts down a member that is offline, has no young calls or reports no session, and starts draining any other without moving it |
| `Draining.DrainStepExactly` | rtp_cluster.go:297-320 | a draining member goes on draining through an event if and only if it is not one of the ending events; unless the operator changed its status it is then out of the lists and shut down |
| `Draining.FirstEmptyReportRemoves` | rtp_cluster.go:312-321 | the first report of zero sessions or less removes a draining member |
| `Draining.DrainsUntilEnd` | rtp_cluster.go:297-320 | over every run, draining lasts until one of the ending events: a changed report that is empty or finds call_id_map empty, another removal that finds it offline or without young calls, a status change, the shutdown of the cluster |
| `Draining.DrainingServesOnlyItsCalls` | rtp_cluster.go:367-436 | a draining member is never picked for a new session; with single owners, a session command is forwarded to it if and only if it owns the call, some member is online, no new session is opened past it while it is offline, and the delivery does not fail |
| `Scheduler.ThresholdHasOneOwner` | rtp_cluster.go:601-608 | the intervals of the available members partition (0, total]: each threshold has one owner and only one |
| `Scheduler.OwnedIntervalLength` | rtp_cluster.go:601-608 | the thresholds that select a member are exactly an interval as long as its effective weight |
| `Scheduler.PicksUnique` | rtp_cluster.go:579-623 | list, limit and draw determine the choice |
| `Scheduler.DrawDecides` | rtp_cluster.go:601-610 | while some weight is positive, the choice is the available member k with sum of the weights before k < (1 - draw) * total <= that sum with k included, and no other |
| `Scheduler.DrawsFormInterval` | rtp_cluster.go:601-610 | the draws that select a member form an interval; in units of the total it is as long as the weight of the member |
| `Scheduler.PicksSoundAndComplete` | rtp_cluster.go:598-622 | a chosen member is in the list, with positive weight if any has; none is chosen if and only if the list is empty, or no weight is positive and the limit is hard |
| `Scheduler.Roulette` | rtp_cluster.go:601-610 | the subtracting loop stops at its break, on the owner of the threshold |
| `Scheduler.Heaviest` | rtp_cluster.go:611-620 | the soft-limit fallback finds the first member of maximal weight |
| `Scheduler.Pick` | rtp_cluster.go:598-623 | both branches together make the specified choice; while some weight is positive it is the member the draw selects |
| `Routing.PickIsListed` | rtp_cluster.go:588-597 | a picked member is active, online and of status ACTIVE |
| `Routing.CandidatesInOrder` | rtp_cluster.go:588-597 | the candidates are the online members of status ACTIVE, in list order, each with its effective weight |
| `Routing.PickedByDraw` | rtp_cluster.go:579-610 | pick_proxy returns a member if and only if it is the one that the draw selects among the candidates of positive weight |
| `Routing.PickFailsExactly` | rtp_cluster.go:585-622 | in every reachable state pick_proxy returns nil if and only if no active member has status ACTIVE, or none of those has positive effective weight and the limit is hard |
| `Scheduler.LoadEstimateBounded` | rtp_cluster_member.go:208-234 | reports between 0 and the capacity keep get_caputil in [0, 1], so a positive weight never becomes a negative effective weight |
| `Scheduler.EffectiveWeightExactly` | rtp_cluster_member.go:232-234 | the effective weight is the configured one times the free part of the capacity, zero at the capacity, and falls strictly as the load grows |
| `Scheduler.FilterIsMidpoint` | rtp_cluster_member.go:209 | a report moves the load estimate to the midpoint of its last value and the count |
| `Load.CandidatesStayPositive` | rtp_cluster.go:588-597 | over every run in which each member keeps a positive capacity and reports between 0 and it, every candidate of pick_proxy with positive configured weight weighs between 0 and that weight |
| `Notify.HexValueExactly` | rtp_cluster.go:422 | decoding reads hexadecimal digits of either letter case and no other character |
| `Notify.EscapeRoundTrip` | rtp_cluster.go:422-428 | percent-decoding undoes percent-encoding (section 2.1 of RFC 3986, with + for a space) on all byte strings |
| `Notify.EscapedIsPlain` | rtp_cluster.go:428 | the encoded text has no space and no byte outside ASCII |
| `Notify.EscapeExactly` | rtp_cluster.go:428 | encoding goes byte by byte: letters, digits and - _ . ~ stay, a space becomes +, and every other byte becomes % with two upper-case hexadecimal digits |
| `Notify.RewriteIsTransparent` | dnrelay.go:176-178 | for every tag and every socket path starting with the prefix, the relay recovers the original path and the decoded tag if and only if the rest of the path has no space |
| `Notify.DNRelay.RecvDnotify` | dnrelay.go:169-194 | each notification with a space is appended to the queue of the single worker of its path, made on first use, and the other queues stay as they are; the process ends on an index failure if and only if there is no space |
| `Notify.QueuesAfterExactly` | dnrelay.go:169-194 | which queues there are afterwards and what each holds |
| `Sweep.SharedSweepExactly` | rtp_cluster_cli.go:341-352 | with the range slice sharing the array of active, a listed member that the loop should bring down is shut down or draining at the end if and only if it was not skipped, or was draining before; skipped means that an odd number of idle unwanted members stands without a gap right before it and it is not the last online member |
| `Sweep.ScannedExactly` | rtp_cluster_cli.go:341-352 | which positions the shifting loop reads: those with an even run of removals right before them |
| `Sweep.SnapshotSweepComplete` | rtp_cluster_cli.go:341-352 | on a snapshot every unwanted member is shut down or draining at the end |
| `Sweep.ThreeIdleMembersLeaveOne` | rtp_cluster.go:659-661 | a concrete cluster in which the shared array makes the loop skip a member that should go |
| `Sweep.SweepEffect` | rtp_cluster_cli.go:341-352 | wanted members are untouched and keep their place; each member the loop reaches is shut down or draining afterwards; the partition holds |
| `Reload.ApplyAllEffect` | rtp_cluster_cli.go:297-339 | after the proxy loop each configured proxy is present with its parameters and with status ACTIVE, DRAINING or SUSPENDED as its word says in upper case, known members keep identity and session maps, names stay unique and unnamed members are as before |
| `Reload.StatusWords` | rtp_cluster_member.go:50-60 | the words for a status, in either letter case; any other word suspends |
| `Reload.ReloadReconcilesExactly` | rtp_cluster_cli.go:296-352 | for distinct names, with the new objects new only where a name is absent, a cluster ends with every configured proxy exactly once and as configured, survivors with identity and session maps, and every other member shut down or draining, if and only if the range slice will be a copy (something is pending or joins offline, and both lists with the new proxies do not fit the capacity of active) or no unwanted member is missed; both are conditions on the initial lists, the configuration and the capacity |
| `Reload.SkippedExactly` | rtp_cluster_cli.go:296-352 | the condition can be read off the initial online list and the configuration: new proxies only matter by whether one of them is online |
| `AdminRuns.ReloadLeads` | rtp_cluster_cli.go:296-352 | the reload of one cluster is a sequence of joins, reconfigurations and removals, also for repeated names, and keeps names unique |
| `Reload.SupportedPrefix` | rtp_cluster_cli.go:297-305 | the proxies are applied up to the first unsupported protocol |
| `Cli.ReloadRunsThroughExactly` | rtp_cluster_cli.go:283-354 | a reload runs through if and only if every configured cluster is there already or its socket opens, and every proxy protocol is supported |
| `Cli.StoppedReloadExactly` | rtp_cluster_cli.go:283-354 | a reload stopped by cluster k leaves the list of clusters as it was, has loaded the clusters before k (and reconciled those that could be), has applied the proxies of k up to the first unsupported protocol without bringing any down, and has changed and closed no other cluster |
| `Cli.ReloadAllReconciles` | rtp_cluster_cli.go:283-367 | over all clusters, when nothing stops the reload: it runs through, each configured cluster keeps its object if there was one of that name, and else starts empty, takes the configured settings and is reconciled; dropped clusters are shut down |
| `AdminRuns.EveryReloadReconciles` | rtp_cluster_cli.go:275-370 | the same after any run of modify, reload (complete or stopped half way) and cluster events, from the empty dispatcher on |
| `AdminRuns.EveryStoppedReload` | rtp_cluster_cli.go:283-354 | what a stopped reload leaves, after any such run |
| `AdminRuns.AnyReloadRunsThroughExactly` | rtp_cluster_cli.go:283-354 | the condition for running through is the same for configurations that repeat a cluster name |
| `AdminRuns.FitForReload` | rtp_cluster_cli.go:178-370 | what a reload needs of the dispatcher holds after every such run in which no reload configures a new cluster name twice |
| `AdminRuns.ReloadNamesExactly` | rtp_cluster_cli.go:283-367 | after a complete reload each name stands for one cluster if and only if no new name is configured twice; a reload that stops half way changes no name |
| `AdminRuns.TwoUnnamedClusters` | rtp_cluster_cli.go:283-367 | the repetition occurs: two unnamed clusters loaded into the empty dispatcher run through and are both taken |
| `Startup.StartNamesExactly` | main.go:156-195 | a start, which adds proxies without looking for their names, keeps the names in a cluster unique if and only if the configuration does not repeat one |
| `Startup.StartIsReloadExactly` | main.go:156-195 | on an empty cluster a start leaves what a reload would if and only if no name is configured twice |
| `Startup.StartIsFirstReload` | main.go:156-195 | when no cluster repeats a proxy name, a start that comes to its end is the reload of the empty dispatcher |
| `AdminRuns.EveryClusterIsARun` | rtp_cluster_cli.go:178-370 | after every such run, each cluster is in the state of some run of cluster events, so that all results about runs apply to it |
| `Cli.ClosedClusterIsEmpty` | rtp_cluster.go:631-648 | a cluster that was shut down has no member left and each of its members is shut down |
| `Cli.ModifyExactly` | rtp_cluster_cli.go:178-261 | modify add succeeds if and only if the name is free and the protocol supported, and adds exactly the described member; remove, pause and resume succeed if and only if the name is taken, and change the member of that name as asked (gone if offline or idle, else draining; or only its status) and no other; a refusal changes nothing |
| `Cli.ModifyKeepsNames` | rtp_cluster_cli.go:178-261 | modify keeps the partition and the uniqueness of names |
| `ConfigDocument.DocumentMeaning` | rtp_cluster_config.go:131-251 | for every document tree of the DTD, with any text between the leaves, folding the handlers yields exactly the meaning of the tree, without a nil object or an empty stack, if and only if no text stands before the root element |
| `ConfigTree.ClusterReadExactly` | rtp_cluster_config.go:72-107 | the meaning of a document, leaf by leaf: each field of each cluster and proxy is its leaf, in lower case for protocol and status, and the default of the constructor where the leaf is empty or no number; the first cluster or proxy with a name keeps it, and later ones have none |
| `ConfigContext.ContextIsSectionPath` | rtp_cluster_config.go:131-178 | for every token stream with matching tags that is read without failing and has not closed the root, the context stack equals the path of open sections |
| `ConfigContext.DocumentContext` | rtp_cluster_config.go:131-178 | at every token of such a document up to the end of the root, reading has not failed, the tags match and the context stack equals the path of the root and the open sections |
| `ConfigTree.GapsAreIgnored` | rtp_cluster_config.go:180-251 | text outside the leaves changes nothing while a section is open |
| `ConfigNames.DuplicateNamesNeverStored` | rtp_cluster_config.go:183-205 | for every token stream with matching tags that is read without failing, non-empty cluster names are distinct, and so are non-empty proxy names within a cluster |
| `ConfigRoundTrip.RoundTripExactly` | rtp_cluster_config.go:299-347 | with the capacity limit in DTD form, writing and reading back gives the same list if and only if it is canonical: trimmed texts, lower-case non-empty protocol and status, non-empty addresses, no duplicate names |
| `ConfigRoundTrip.CodedRoundTripExactly` | rtp_cluster_config.go:319-320 | as coded, where reading stops at the malformed line, a list survives if and only if it is empty or one canonical cluster without proxies and with a hard limit |
| `ConfigRoundTrip.GenClusterConfig` | rtp_cluster_config.go:299-347 | the nested appending loops produce the document the round trip is about |
| `ConfigObjects.ValidateHandler.StartElement` | rtp_cluster_config.go:131-161 | the handler on its fields does the step of the fold and fails exactly where that has no next state |
| `ConfigObjects.ValidateHandler.EndElement` | rtp_cluster_config.go:163-178 | the same for closing tags |
| `ConfigObjects.ValidateHandler.Characters` | rtp_cluster_config.go:180-251 | the same for text, with the loops that look for a duplicate name |
| `ConfigObjects.ReadClusterConfig` | rtp_cluster_config.go:257-297 | the token loop computes the fold |
| `Text.AtoiOfItoa` | rtp_cluster_config.go:327-328 | a printed number is read back as itself over the 64-bit range |
| `Text.TrimSpaceExactly` | rtp_cluster_config.go:304-337 | trimming cuts off white space at both ends, and all of it |
| `Objects.Member.IsYours` | rtp_cluster_member.go:146-159 | answers whether the call is known and moves it to the young generation |
| `Objects.Member.BindSession` | rtp_cluster_member.go:161-171 | the call is added to the generation its command type selects, as coded |
| `Objects.Member.UnbindSession` | rtp_cluster_member.go:173-179 | the call is moved to the old generation |
| `Objects.Member.CallIdMapAging` | rtp_cluster_member.go:216-230 | the in-place ageing is the ageing of the session lemmas; after Shutdown it does nothing |
| `Objects.Member.GoOnline` | rtp_cluster_member.go:181-193 | with its callback into the cluster, GoOnline is the step of the membership system, also for a removed member |
| `Objects.Member.GoOffline` | rtp_cluster_member.go:195-206 | the same for GoOffline |
| `Objects.Member.UpdateActive` | rtp_cluster_member.go:208-214 | the filter, the callback of a draining member and the stored count together are the report step |
| `Objects.Member.BaseDetect` | rtp_cluster.go:420 | what WdntSupported answers may change at any time and changes nothing else: the detection step |
| `Objects.Cluster.AddMember` | rtp_cluster.go:190-201 | the member joins the list its client state selects and reports to this cluster |
| `Objects.Cluster.MoveToActive` | rtp_cluster.go:215-225 | the splice loop moves the member from pending to the end of active, and does nothing for one that is not pending |
| `Objects.Cluster.MoveToPending` | rtp_cluster.go:227-237 | the same in the other direction |
| `Objects.Cluster.RemoveActive` | rtp_cluster.go:250-259 | the splice loop removes the first occurrence |
| `Objects.Cluster.BringDown` | rtp_cluster.go:289-310 | bring_down on the objects is the removal step |
| `Objects.Cluster.RtppActiveChange` | rtp_cluster.go:312-321 | the callback of a draining member removes it exactly under its test |
| `Objects.Cluster.PickProxy` | rtp_cluster.go:579-623 | the three loops pick the member that list, weights, limit and draw determine |
| `Objects.Cluster.FindOwner` | rtp_cluster.go:373-401 | the search finds the first member that knows the call; asking changes only the generation of that call at that member |
| `Objects.Cluster.SendTo` | rtp_cluster.go:419-436 | the notify and LAN rewriting on one command, with its two error exits |
| `Objects.Cluster.UpSessionCommand` | rtp_cluster.go:372-469 | the session branch on the objects is the routing step, in new state and outcome |
| `Objects.Cluster.UpCommand` | rtp_cluster.go:358-532 | all branches of up_command on a parsed command are the routing step, in new state and outcome |
| `Objects.Cluster.LoadProxies` | rtp_cluster_cli.go:297-339 | the proxy loop of a reload on the objects is the one the reconciliation lemmas are about, keeps the partition, and gives what they require of the objects it has made, also when proxies survive |
| `Objects.Cluster.ReloadCluster` | rtp_cluster_cli.go:293-352 | both loops on the objects, with the settings of the cluster before them: for distinct names the cluster is reconciled if and only if the range slice is a copy or nobody is missed |
| `Objects.Cluster.BringDownRest` | rtp_cluster_cli.go:341-352 | the last loop of a reload on the objects is the sweep, on the shared array or on a copy as list lengths and capacity decide |
| `Objects.Cluster.Shutdown` | rtp_cluster.go:631-648 | every listed member is shut down and both lists are emptied |

## Left out

- Float rounding and the quality of the random numbers: weights and draws are reals, so nothing is claimed where rounding would matter.
- A capacity of zero: the division by it in `get_caputil` is not modelled; negative capacities are.
- Data races, such as `add_member` between its test and its append, or `bring_down` reading a call map without its lock: each callback and command is one step.
- Sockets, timers, goroutines, logging, options, daemonising and signals (main.go, main_config.go): timers are steps that may occur at any time.
- The client library (command parsing and printing, heartbeats, statistics objects): `IsLocal` is fixed for each member, support for notifications is learnt at any time by an event of its own, the stored session count changes only in `UpdateActive`, and the statistics object is the multiset of the texts it accepted.
- Which addresses a member has when its reply arrives: reloads may change them, so `FrontEnd` takes the rendering of replies as a parameter, and a blank reply, on which `down_command` fails, does not stop its runs.
- The text of a forced lookup: `Getstr` belongs to the client library, so the model changes the command type and keeps the other fields, and the panic on an error of `Getstr` (rtp_cluster.go:442-444) is not modelled.
- Attribution of a merged answer to a member, and the contents of the statistics cache, since the callbacks share one variable: the cached text is an input of the merge.
- The bind that follows a merge with exactly one positive answer: the code never reaches it.
- The counters of the brief information reply other than active sessions: they are summed in the same way.
- The allow list of the notification relay, and delivery by its workers: the queue of a worker stands for its channel.
- Normalisation of addresses and ports, `Reconnect`, and the conversion of `inbound_address`: parameters are stored as given.
- Text output of `ls` and `help`; the sort in `ls` is an arbitrary rearrangement of the online members.
- Errors in the key-value list of `modify add`, which stop the command before the cluster changes.
- The list of clusters in `Cli` and `AdminRuns` is a numbered table of cluster states, not objects, so in-place update and aliasing between clusters are not captured there; the proxies of one cluster are on objects.
- Positions in the result stand for the object pointers of the configuration handler.
- The array shared by `all_members` and `active`: `Objects.Cluster.BringDownRest` reads the remaining slice again after each splice instead of sharing memory.
- Call maps are sets of call-ids, since the code stores only `true`.
- XML tokenising and escaping; the writer is modelled at the level of elements.
- Characters outside ASCII in case folding and trimming.
