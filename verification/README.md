# Verified models of the sing-box control plane

Qingzhou is a panel that deploys sing-box to many machines, meters their traffic and tells
its users about it. These Dafny models follow the parts of it where correctness depends on
interleavings, failures and arithmetic, and prove what those parts promise.

| module | models |
|---|---|
| Schedule | the rebuild scheduler: one drain goroutine, coalesced requests, revisions of statuses |
| Traffic | traffic collection: lease, persisted reset intent, one-way handover to cumulative reads, and the ledger that bills |
| RestartCircuit | the restart circuit, its use by the controller, and the alert tracker that mirrors it |
| CircuitAndAlert | circuit, message queue, tracker and stored alert as one machine, over losses of the panel |
| LocalApply | installing a configuration on the panel's own machine, and the cache that skips machines |
| RelayRollout | the staged rollout of metered relay links over repeated passes |
| RelayGraph | the relay graph: the check before a save, saves and deletes, the route check, the path shown to users |
| PingPool | the latency probe's worker pool |
| ShellQuote | shell quoting and the acme.sh command lines, against a POSIX tokenizer |
| OciUsage | exact rounding and page-wise sums of a provider's usage report |
| RateLimit | the fixed-window limiter |
| QueueActivations | activation times of queued plans, against the promotion that starts them |
| BackupRetention | backups: one worker at a time, and retention |
| EgressLink | vendors' credential lines |
| NotifyClaims | claims behind traffic reminders |
| Collections, Text, Wrappers | shared helpers |

Protocols are state machines: a step is one critical section, transaction or channel
operation, a step that is not enabled changes nothing, and a theorem quantifies over every
list of steps. Objects updated in place are classes whose methods are proved against
functions on their value; the theorems are about those functions.

## Where the code does not do what one would expect

The models follow the code. Each of these has a concrete input or run in the model, and
beside it the exact condition under which the expected behaviour does hold.

- A full request that lands between the end of a pass and the reading of its outcome leaves
  a subsumed server pending with nothing left to run (`FallbackCanStrand`; exactly then:
  `QuiescentServerStates`).
- The journal transaction of a handover has no deadline. Committed after its lease expired,
  it puts a node in cumulative mode under a successor about to send a reset read
  (`LateHandoverExposesReset`; exactly then: `ResetReadsAreGuarded`). Nothing is billed twice
  even so (`NeverOverbilled`), and no reset read follows an answered cumulative one.
- The comments say that circuit and alert tracker act on the same restart. They do exactly
  for thresholds up to 64 (`TwinsAgreeIff`), and only up to the tracker's whole seconds
  (`TrackerCountsNoLess`).
- A policy that changes can make the circuit miss restarts the newest policy counts, because
  an earlier one has already filtered them out (`ShrunkWindowForgets`; exactly:
  `ChangedPolicyIff`). It never opens early.
- With relay metering on, no server rebuild closes a circuit (`OpenStaysOpen`). The latch of
  an open circuit does not outlive the panel process unless the alert was stored
  (`StepKeepsLatchIff`).
- A configuration write that lands and is reported as failed, a panel restart while a unit
  restart is outstanding, and the loss of the panel between write and restart each let a
  later apply report success for bytes the unit never loaded (`UnconfirmedWriteFoolsNextApply`,
  `PanelRestartForgetsOutstanding`, `KilledApplyFoolsNextApply`; exactly: `StepKeepsInStepIff`,
  `SuccessMeansLoaded`).
- The desired-hash cache can skip a machine whose unit is down, which runs a configuration
  that was applied and could not be acknowledged, or whose file was changed by a write that
  was reported as failed (`SkipHidesOutstandingRestart`, `SkipHidesUnacknowledged`,
  `SkipHidesUnconfirmed`; exactly: `SkipIsTrueIff`).
- The chain check of an inbound runs outside the transaction that stores it, so two saves can
  close a cycle (`OverlappingSavesMakeCycle`; exactly: `SaveKeepsAcyclicIff`). Its depth limit
  counts only what lies below the saved inbound and is exceeded by accepted saves
  (`DepthIsNotBounded`; exactly: `DepthIsKeptIff`).
- The limiter admits 2 max - 1 calls in less than a window of at least two clock units, not
  max (`BoundIsReached`), and never more (`AtMostTwiceLessOne`). Never more than max, exactly
  if max or the window is at most one (`LimitHoldsIff`).
- The time shown for a queued plan is not the latest possible one when a plan without an end
  is ahead of it in the queue, or holds the slot beside one that ends (`CanStartAfter`;
  exactly: `AnswerIsLatestIff`).
- At 100 records, starting a backup forgets one (`StartLosesNoneIff`), and a forgotten
  completed record leaves its object behind (`FullListLeavesOrphan`; exactly:
  `StartKeepsTrackedIff`, and without ties `StartLeavesOrphanIff`).
- Two plain backups begun in the same second name one object, and a retention pass that drops
  one of them deletes the object of the other, although nothing fails
  (`SameSecondLosesBackup`; exactly: `CleanupKeepsStepIff`). For all steps of a run, failing
  updates of a record and misreported requests included: `StepKeepsStepIff`, `RunInStepIff`.
- Of the lines without a scheme, host:port:user:pass is misread, and can be redirected to
  another host, when user or password holds an at sign (`LeadingRedirected`; exactly:
  `LeadingFormIff`); user:pass:host:port is then refused (`AtInTrailingIsRefused`), and also
  misread when its second field could be a port (exactly: `TrailingFormIff`).
- Both reminder claims can be held when clearing one fails (`BothIffSlips`), and Telegram
  repeats a message whose delivery was reported as an error (`TelegramRepeatsLost`; exactly
  then: `RepeatsIff`, `OverBetween`).
- The nested reload command leaves the unit name unquoted (`ReloadCommandSplits`; it restarts
  exactly that unit if and only if `ReloadCallsIff` and, with the trimming,
  `InstalledReloadIff` say so).

## Model

| member | source | states |
|---|---|---|
| Schedule.InSomeOrder | internal/sbctl/schedule.go:99-103 | the taken list holds each pending server exactly once, in an arbitrary order |
| Schedule.Scheduler.PutStatusLocked | internal/sbctl/schedule.go:167-171 | stores the status under the next revision and touches nothing else |
| Schedule.Scheduler.Schedule | internal/sbctl/schedule.go:64-87 | marks the target pending under a new ticket, and asks for a drain exactly if none runs |
| Schedule.Scheduler.TakeBatch | internal/sbctl/schedule.go:94-109 | hands over the whole queue and empties it; gives up the role exactly when nothing was queued |
| Schedule.Scheduler.StartTracked | internal/sbctl/schedule.go:136-140 | the running status carries the request watermark it was taken with and its own start |
| Schedule.Scheduler.FinishTracked | internal/sbctl/schedule.go:142-149 | the outcome keeps the watermark of the pass, whatever was written meanwhile |
| Schedule.Scheduler.SetStatus | internal/sbctl/schedule.go:160-164 | one machine's report under a fresh revision |
| Schedule.Scheduler.StatusSeqs | internal/sbctl/schedule.go:174-182 | the revision of each queued server, 0 for an unknown one |
| Schedule.Scheduler.SetStatusFromIfUntouched | internal/sbctl/schedule.go:187-194 | copies the aggregate exactly if the revision is still the snapshotted one |
| Schedule.Always | internal/sbctl/schedule.go:64-194 | the invariant of queue, tickets and statuses holds after every step of every interleaving |
| Schedule.OneDrain | internal/sbctl/schedule.go:79-108 | at most one drain goroutine is alive, and queued work keeps one alive |
| Schedule.NoRequestLost | internal/sbctl/schedule.go:89-131 | once no drain runs, every request was served by a pass of its target or a full pass that started after it was made |
| Schedule.TicketsIncrease | internal/sbctl/schedule.go:71-78 | each ticket exceeds every ticket and every revision before it |
| Schedule.OutcomeAnswersTicket | internal/sbctl/schedule.go:133-149 | an outcome whose request revision reaches a ticket comes from a completed full pass that began after the ticket was issued |
| Schedule.QuiescentOutcomeCoversAll | internal/sbctl/schedule.go:111-149 | at quiescence the full-rebuild status is terminal and covers every full request |
| Schedule.FallbackSparesReports | internal/sbctl/schedule.go:118-123 | the fallback writes a server exactly when nobody reported on it since the snapshot |
| Schedule.AggregateIsOutcomeIff | internal/sbctl/schedule.go:119-122 | the aggregate read back is an outcome exactly if no full request came after the pass finished |
| Schedule.QuiescentServerStates | internal/sbctl/schedule.go:118-129 | at quiescence a server's status is terminal, except exactly where its last write was the fallback of a pass whose outcome was read after a later full request |
| Schedule.FallbackCanStrand | internal/sbctl/schedule.go:118-123 | a run that ends with a server pending and nothing left to do |
| Schedule.DrainAdvances | internal/sbctl/schedule.go:92-131 | each drain step lowers a bound on the steps left and keeps completed plus owed full passes constant |
| Schedule.BurstsCoalesce | internal/sbctl/schedule.go:61-87 | after the last request the drain takes boundedly many steps, and exactly the owed full passes are completed |
| Schedule.DrainNeverStuck | internal/sbctl/schedule.go:92-131 | a drain that has not exited can always take a step |
| Traffic.ChargeIsAdvance | internal/store/traffic_ledger.go:284-332 | a cumulative charge is exactly what the cursor of its epoch advances by |
| Traffic.RetryKeepsBill | internal/store/traffic_ledger.go:165-276 | billing or retrying a poll keeps the bill equal to the cleared reset reads plus the credited cursors |
| Traffic.JournalKeepsBill | internal/store/traffic_ledger.go:77-108 | journalling a response changes neither side of the books |
| Traffic.Always | internal/sbctl/traffic_snapshot.go:110-209 | the invariant of lease, journal, counter and bill holds after every step of every interleaving |
| Traffic.OneCollectorReachesTheNode | internal/store/traffic_ledger.go:493-501 | the 60 second lease outlives the 30 second network deadline: two collectors never both can get an answer |
| Traffic.NeverOverbilled | internal/store/traffic_ledger.go:165-276 | billed traffic never exceeds real traffic, over any run with losses, restarts, retries and stray resets |
| Traffic.ResetReadsAreGuarded | internal/sbctl/traffic_snapshot.go:184-197 | a reset read is sent only under a persisted intent and never after an answered cumulative read; the stored mode is then still reset exactly if no handover took effect after its collector's deadline |
| Traffic.LostResponsesStayVisible | internal/store/traffic_ledger.go:121-131 | an answered reset read keeps its marker exactly as long as its response is not journalled |
| Traffic.CumulativeIsForever | internal/store/traffic_ledger.go:265-267 | no later step brings reset mode back |
| Traffic.FaultFreeRunsAreExact | internal/sbctl/traffic_snapshot.go:107-182 | without restart, outside reset or lost response, billed plus unread counter equals real traffic once reset responses are billed |
| Traffic.LateHandoverExposesReset | internal/store/traffic_ledger.go:37-111 | a run in which a handover journalled after its lease expired leaves a successor about to send a reset read in cumulative mode |
| RestartCircuit.CurrentPolicy | internal/sbctl/controller.go:225-233 | window and threshold are usable whatever is configured, and only a complete configuration can switch the circuit off |
| RestartCircuit.KeepSince | internal/sbctl/restartcircuit.go:45-52 | the in-place filter leaves exactly the entries at or after the cutoff, in order |
| RestartCircuit.RestartCircuit.Record | internal/sbctl/restartcircuit.go:39-69 | one server's history and latch after a record, every other server untouched |
| RestartCircuit.RestartCircuit.IsOpen | internal/sbctl/restartcircuit.go:71-75 | whether the latch of that server is set |
| RestartCircuit.RestartCircuit.PeriodicTurn | internal/sbctl/controller.go:237-268 | a periodic pass refuses exactly under an open circuit or stored alert, and otherwise counts the restart it caused |
| RestartCircuit.RestartCircuit.Close | internal/sbctl/restartcircuit.go:77-84 | forgets history and latch of one server and reports whether it was open |
| RestartCircuit.FilterRefines | internal/sbctl/restartcircuit.go:45-62 | filtering a filtered, truncated log gives what filtering the whole log gives |
| RestartCircuit.RecordRefinesLog | internal/sbctl/restartcircuit.go:39-69 | the count is the true in-window count up to max(2T, 16), and the circuit opens exactly when the true count reaches T |
| RestartCircuit.RestartsAreBounded | internal/sbctl/restartcircuit.go:39-84 | between two closes any closed window holds at most T periodic restarts; open exactly if the last T fell in one window |
| RestartCircuit.OpenStaysOpen | internal/sbctl/controller.go:848-853 | an open circuit sees no periodic restart until a server rebuild without metering succeeds; with metering none closes it |
| RestartCircuit.ChangedPolicyIff | internal/sbctl/restartcircuit.go:39-69 | under policies that change in any way: the circuit opens exactly when the restarts since the latest cutoff so far reach the threshold; it decides as the newest policy demands exactly unless the threshold lies between that count and the one in the newest window |
| RestartCircuit.ForwardIsMade | internal/sbctl/restartcircuit.go:39-69 | for that, a clock that does not go back is all it takes while the circuit is closed |
| RestartCircuit.PolicyMayChange | internal/sbctl/restartcircuit.go:39-69 | so if no window looks back further than the one before, every restart but the last found fewer than the threshold of the moment in the window of the moment, and the circuit is open exactly if the last did not |
| RestartCircuit.ShrunkWindowForgets | internal/sbctl/restartcircuit.go:45-62 | an instance where it decides otherwise: a window that shrinks and grows |
| RestartCircuit.RestartTracker.Record | internal/api/restartalert.go:98-118 | the tracker's decision and history for one node, every other node untouched |
| RestartCircuit.RestartTracker.Prune | internal/api/restartalert.go:123-142 | exactly the nodes without an alert lose exactly their old samples |
| RestartCircuit.RestartTracker.Recover | internal/api/restartalert.go:144-148 | forgets alert and samples of one node |
| RestartCircuit.RestartTracker.MarkAlerted | internal/api/restartalert.go:150-153 | sets the alert and keeps the samples |
| RestartCircuit.RestartTracker.UnmarkAlerted | internal/api/restartalert.go:157-159 | clears the alert and keeps the samples |
| RestartCircuit.TrackerIsIdeal | internal/api/restartalert.go:98-159 | up to a threshold of 64 the tracker announces what a watcher with the unbounded log and no pruning announces |
| RestartCircuit.TrackerIsBlindAboveCap | internal/api/restartalert.go:108-115 | above 64 it never announces anything |
| RestartCircuit.CircuitIsIdeal | internal/sbctl/restartcircuit.go:39-84 | for every usable policy the circuit trips exactly when that watcher announces |
| RestartCircuit.TwinsAgreeIff | internal/api/restartalert.go:189-195 | circuit and tracker agree on all runs exactly if the threshold is at most 64 |
| RestartCircuit.AlertedIsStored | internal/api/restartalert.go:259-309 | over any run a node counts as alerted only while its alert is stored as open, whatever writes fail |
| RestartCircuit.TransitionIsRetried | internal/api/restartalert.go:155-159 | a failed alert is retried by the restart that follows the transition, if the tracker's count has reached the threshold too |
| RestartCircuit.TrackerCountsNoLess | internal/api/restartalert.go:266-298 | in whole seconds the tracker counts at least what the circuit counts, and the same exactly if no restart lies in the edge second |
| CircuitAndAlert.WindowsAreBounded | internal/sbctl/controller.go:237-278 | over any run, losses of the panel included, a window holds at most threshold restarts, and threshold more for each time since before its first restart that restarts became possible: a fresh start without a stored alert, a stored recovery, a pass that could not look up a stored alert |
| CircuitAndAlert.EveryRestartCounts | internal/sbctl/controller.go:237-254 | all periodic restarts of a run are among those counted |
| CircuitAndAlert.StepKeepsLatchIff | internal/sbctl/controller.go:256-278 | each step keeps the latch of circuit or alert exactly unless the circuit begins afresh with no alert stored, or a recovery is stored while it is closed |
| CircuitAndAlert.LatchStopsRestarts | internal/sbctl/controller.go:256-268 | from a trip on, no periodic restart until such a step |
| CircuitAndAlert.TripIsStoredIff | internal/api/restartalert.go:259-309 | over any run, whatever was dropped: after a trip and its restart have been handled, the alert is stored exactly if it was before, the first write worked, or the second did and the tracker's own count has reached the threshold |
| CircuitAndAlert.NothingMissedCounts | internal/api/restartalert.go:98-118 | with nothing dropped since the panel was started, it has, exactly for thresholds up to 64 |
| CircuitAndAlert.StoredTripStopsRestarts | internal/api/restartalert.go:197-202 | after such a trip no periodic restart follows until a recovery is stored, across rebuilds and losses of the panel |
| LocalApply.Host.Store | internal/sbproc/manager.go:113-147 | the file of one server after a write that landed |
| LocalApply.Host.RestartUnit | internal/sbctl/controller.go:511-514 | what the unit runs after systemctl succeeded or failed |
| LocalApply.Host.ApplyLocalRaw | internal/sbctl/controller.go:453-529 | file, unit, flag and answer of one apply, every step of which may fail |
| LocalApply.SuccessMeansLoaded | internal/sbctl/controller.go:464-528 | after success the unit's last good start loaded exactly cfg, unless the short-circuit trusted a file the unit had not loaded |
| LocalApply.ForceHeals | internal/sbctl/controller.go:469-476 | a forced apply that succeeds repairs any state |
| LocalApply.StepKeepsInStepIff | internal/sbctl/controller.go:503-528 | each step, loss of the panel at any point included, keeps file and unit in step, or flagged, exactly unless it changed one of them without a flag or lost the flag |
| LocalApply.RunInStepIff | internal/sbctl/controller.go:453-529 | a run stays in step all along exactly if each of its steps does so |
| LocalApply.SuccessIsTrue | internal/sbctl/controller.go:453-529 | over any such run success means that file and unit both hold that pass's configuration |
| LocalApply.SkipIsTrueIff | internal/sbctl/controller.go:280-302 | over any run, a pass skipped by the desired-hash cache would have changed nothing exactly if no restart is outstanding and the last step that put anything into the file left the configuration of this pass |
| LocalApply.AcknowledgedSkipIsTrueIff | internal/sbctl/controller.go:291-302 | if every success was acknowledged: exactly if no restart is outstanding and no unconfirmed write since the last success left anything else |
| LocalApply.SkipHidesOutstandingRestart | internal/sbctl/controller.go:280-302 | the cache means last acknowledged, not on disk: a failed change and its reversal are skipped with the unit down |
| LocalApply.SkipHidesUnacknowledged | internal/sbctl/controller.go:291-302 | so is the way back from a configuration that was applied and not acknowledged |
| LocalApply.SkipHidesUnconfirmed | internal/sbctl/controller.go:280-302 | so is the way back from one whose write landed and was reported as failed |
| LocalApply.UnconfirmedWriteFoolsNextApply | internal/sbproc/manager.go:121-147 | a write that lands and is reported failed makes a later apply report success for bytes never loaded |
| LocalApply.PanelRestartForgetsOutstanding | internal/sbctl/controller.go:515-521 | the flag is lost with the panel process, with the same effect |
| LocalApply.KilledApplyFoolsNextApply | internal/sbctl/controller.go:503-514 | so it is when the panel is lost between the write and systemctl, before there is a flag |
| RelayRollout.AckServes | internal/store/relay_metering.go:338-377 | acknowledging a machine that is ready moves the links just as far as it takes to serve it |
| RelayRollout.Pass | internal/sbctl/controller.go:643-842 | in any order of builds and acknowledgements, forced or skipping unchanged machines: links only advance, every ready online machine is served, and each advance is owed to such a machine |
| RelayRollout.RebuildUntilStable | internal/sbctl/relay_metering.go:12-41 | at most N + 3 passes, ended by a pass without progress, in a state another pass would not change; forced, success exactly if every machine is online and buildable; otherwise if so, and only if each is buildable and either online or without anything left to do |
| RelayRollout.ProgressServes | internal/sbctl/relay_metering.go:36-38 | a pass that moves a registered link serves a machine that was not served before |
| RelayRollout.SettledExactly | internal/sbctl/relay_metering.go:12-41 | on an acyclic graph the end state is determined: a machine applied exactly if it and all it waits for could |
| RelayRollout.FreshCanApplyIff | internal/store/relay_metering.go:263-287 | from a fresh start a machine can apply exactly if no offline machine lies downstream |
| RelayRollout.FullRollout | internal/sbctl/relay_metering.go:12-14 | with every machine online all links end accepted, the used ones active |
| RelayGraph.CheckUpstream | internal/api/sb_admin.go:1621-1647 | accepts exactly if the chain ends within 16 inbounds and never meets the saved one |
| RelayGraph.SaveKeepsAcyclicIff | internal/store/singbox.go:321-391 | a stored save keeps the graph acyclic exactly if the chain from the new upstream, as stored then, never meets the inbound |
| RelayGraph.DeleteKeepsAcyclic | internal/store/singbox.go:430-452 | un-chaining and deleting keeps it acyclic |
| RelayGraph.AlwaysAcyclic | internal/api/sb_admin.go:1621-1656 | over any run of requests that do not overlap the graph stays acyclic |
| RelayGraph.OverlappingSavesMakeCycle | internal/api/sb_admin.go:1625-1656 | two overlapping saves, each checked before either is stored, make a cycle |
| RelayGraph.DepthIsKeptIff | internal/api/sb_admin.go:1635-1646 | after an accepted save the limit holds of every stored chain exactly if, for each inbound above the saved one, the hops in between and those below fit in it together |
| RelayGraph.BoundedIffResavable | internal/api/sb_admin.go:1621-1647 | it holds of every chain, none dangling, exactly if every inbound could be saved again as it is |
| RelayGraph.DepthIsNotBounded | internal/api/sb_admin.go:1635-1646 | accepted saves from an empty database exceed the limit, after which an unchanged inbound cannot be saved |
| RelayGraph.ValidateNodeRoute | internal/api/nodes_admin.go:140-197 | accepts a route exactly if entry and landing qualify and its chain is complete, enabled, within 16 hops and avoids the entry |
| RelayGraph.WalkRoute | internal/api/nodes_admin.go:174-194 | the walk accepts exactly the complete chains |
| RelayGraph.TopoFor | internal/api/nodetopo.go:97-147 | terminates on any graph with the path and warning of the stored chain |
| RelayGraph.TrailFollows | internal/api/nodetopo.go:105-132 | on any graph the hops follow the stored chain without repetition, up to its end or the first hop missing or met before |
| RelayGraph.TopoIsWholeChain | internal/api/nodetopo.go:94-147 | on an acyclic graph without dangling links the path of a node without a route is the whole chain |
| RelayGraph.RouteIsWholeChain | internal/api/nodetopo.go:109-132 | with a route, the whole chain of its landing, or up to the entry with the warning exactly if it comes back there |
| RelayGraph.AcceptedRouteIsShown | internal/api/nodetopo.go:109-132 | an accepted route is shown whole |
| RelayGraph.DeletedLandingIsShown | internal/api/nodetopo.go:140-145 | an inbound whose landing was deleted shows the warning although its chain is clean |
| PingPool.Always | internal/api/usernodes.go:232-279 | the invariant of sender, workers, slots and dials holds in every interleaving |
| PingPool.DialedAtMostOnce | internal/api/usernodes.go:239-260 | only eligible entries are dialed, each at most once, and only dialed ones are marked OK |
| PingPool.CompleteUnlessCancelled | internal/api/usernodes.go:263-278 | if the request was not cancelled, every eligible entry was dialed when the pool returns |
| PingPool.SlotsReturned | internal/api/usernodes.go:243-259 | no slot is lost or made up, and none is held when the pool returns |
| PingPool.NeverStuck | internal/api/usernodes.go:263-278 | until it returns the pool can take a step of its own, unless other requests hold every slot |
| PingPool.RunsAreBounded | internal/api/usernodes.go:232-279 | the pool takes at most 6n + 33 steps of its own |
| ShellQuote.QuotedStringIsOneWord | internal/acmesh/acmesh.go:143-147 | for every string all three quoting functions give one word, exactly the string, every character quoted |
| ShellQuote.QuotingIsExact | internal/sbctl/traffic_snapshot.go:62 | in any word context both ways of writing a quote add exactly the quoted string to the word |
| ShellQuote.AppendCryptoOptions | internal/acmesh/acmesh.go:124-135 | fails exactly on unsupported values, and otherwise adds exactly the options given |
| ShellQuote.BuildIssueCmd | internal/acmesh/acmesh.go:187-224 | fails exactly if the request cannot be issued, and otherwise tokenizes to exactly the intended arguments |
| ShellQuote.BuildInstallCmd | internal/acmesh/acmesh.go:228-239 | tokenizes to exactly the intended arguments |
| ShellQuote.ReloadCallsIff | internal/api/sb_admin.go:209 | the shell that runs the reload command restarts exactly the unit if and only if its name is a plain word (not empty, no comment, no blank, operator, quote or backslash) with nothing left to expand |
| ShellQuote.InstalledReloadIff | internal/acmesh/acmesh.go:235-237 | the last argument of the install command does so if and only if, in addition, the name does not end in white space |
| ShellQuote.ReloadCommandSplits | internal/api/sb_admin.go:209 | a unit name with a blank gives four words |
| ShellQuote.ExportLeavesCommand | internal/acmesh/acmesh.go:45-57 | a token exported in front is one assignment and leaves the command's tokens as they were |
| OciUsage.QuantityToBytes | internal/officialusage/officialusage.go:411-443 | a quantity times its unit, rounded half up exactly; none exactly if the unit is unknown or the result does not fit |
| OciUsage.RoundedIsHalfUpIff | internal/officialusage/officialusage.go:433-438 | the rounding is half up exactly if the part cut off a negative number is at most a half |
| OciUsage.HalfUpIsUnique | internal/officialusage/officialusage.go:433-438 | there is one half-up rounding |
| OciUsage.ReadItem | internal/officialusage/officialusage.go:357-375 | what one line item contributes |
| OciUsage.Account | internal/officialusage/officialusage.go:361-383 | one item added to the report, refused exactly on a malformed quantity or overflow |
| OciUsage.ParseReport | internal/officialusage/officialusage.go:343-386 | refuses exactly if an item is malformed or the true sum exceeds int64, and otherwise is the exact tally |
| OciUsage.TransfersAddUp | internal/officialusage/officialusage.go:356-384 | transfers are the recognized plus the skipped ones |
| OciUsage.ReadingsJoin | internal/officialusage/officialusage.go:356-384 | items are read one by one, whatever page they stand on |
| OciUsage.PagesJoin | internal/officialusage/officialusage.go:325-336 | adding page reports is tallying their readings together, refusals included |
| OciUsage.Add | internal/officialusage/officialusage.go:325-336 | fails exactly on overflow |
| OciUsage.FollowPages | internal/officialusage/officialusage.go:165-230 | at most 101 requests for any answers; an error exactly excludes a complete chain of pages |
| OciUsage.FetchOci | internal/officialusage/officialusage.go:164-252 | the usage is known exactly if the pages can be read to the end without repetition or skipped transfer, and is then their exact sum |
| OciUsage.NoneSkipped | internal/officialusage/officialusage.go:236-247 | a tally without skips counted every item but those that are no transfers |
| RateLimit.RateLimiter.Allow | internal/api/ratelimit.go:26-40 | answer and entry of one key, every other key untouched |
| RateLimit.RateLimiter.Sweep | internal/api/ratelimit.go:42-51 | removes exactly the entries that have run out |
| RateLimit.SweepsAreInvisible | internal/api/ratelimit.go:26-51 | interleaving sweeps anywhere changes no answer |
| RateLimit.AtMostTwiceLessOne | internal/api/ratelimit.go:26-40 | any half-open interval as long as the window admits at most 2 max - 1 calls of a key; one, if max is below one |
| RateLimit.BoundIsReached | internal/api/ratelimit.go:26-40 | that bound is attained for every limit of at least one and window of at least two clock units |
| RateLimit.LimitHoldsIff | internal/api/ratelimit.go:26-40 | no half-open interval as long as the window ever admits more than the limit (one, if it is below one) exactly if limit or window is at most one |
| QueueActivations.CollectLines | internal/api/user.go:759-783 | per line: the latest end among the usable plans, and the queued plans in list order |
| QueueActivations.FillLine | internal/api/user.go:785-802 | one queue's times, running on from the moment the slot becomes free |
| QueueActivations.QueueActivations | internal/api/user.go:753-804 | each queued plan, and nothing else, gets base plus the days of those before it in its line, in any order of lines |
| QueueActivations.BaseIsLatest | internal/api/user.go:776-782 | base is the latest end of a usable plan |
| QueueActivations.UnknownIff | internal/api/user.go:787-801 | the answer is 0 exactly if a usable plan is in the slot and none of them ends |
| QueueActivations.LinesAreIndependent | internal/api/user.go:763-772 | no plan of another line has any influence |
| QueueActivations.AnswerIsLatestIff | internal/store/userplans.go:185-260 | the answer is the latest possible start over all runs of the line, and attained, exactly if no plan in the slot and none ahead in the queue is without an end; otherwise the start has no bound |
| QueueActivations.CanStartAfter | internal/api/user.go:748-752 | two lists whose last plan is told e and can start after any t |
| BackupRetention.OneBackupAtATime | internal/backup/manager.go:366-410 | at most one backup is under way, and the flag is set exactly while one is |
| BackupRetention.SortNewest | internal/backup/manager.go:486 | the same records, newest first |
| BackupRetention.Keepers | internal/backup/manager.go:487-496 | keeps exactly the records within the count that have not expired |
| BackupRetention.Cleanup | internal/backup/manager.go:471-511 | drops a completed record exactly if it is due and its object was deleted; all others stay in place |
| BackupRetention.KeepsIff | internal/backup/manager.go:486-496 | without ties a record is kept exactly if unexpired and fewer than the count are newer |
| BackupRetention.CleanupKeepsStepIff | internal/backup/manager.go:497-510 | after retention records and objects are in step exactly if no deletion was misreported, and either the list was saved and no completed record that stays names the object of one that goes, or nothing was deleted |
| BackupRetention.UniqueKeysKeepStepIff | internal/backup/manager.go:497-510 | with one object for each record: exactly unless objects were deleted and the list was not saved |
| BackupRetention.SameSecondLosesBackup | internal/backup/manager.go:383-391 | a run of two backups of one second after which the retention rule, at a count of one, deletes the object of the record it keeps |
| BackupRetention.StartLosesNoneIff | internal/backup/manager.go:328-338 | adding a record forgets none exactly below 100 records |
| BackupRetention.StartKeepsTrackedIff | internal/backup/manager.go:328-338 | after a start every object still has a record exactly if each completed record has a kept one for its object |
| BackupRetention.StartLeavesOrphanIff | internal/backup/manager.go:328-338 | without ties, an object is left behind exactly if all its completed records have at least 100 newer ones |
| BackupRetention.FullListLeavesOrphan | internal/backup/manager.go:391-400 | an instance: a full list of completed records |
| BackupRetention.StepKeepsStepIff | internal/backup/manager.go:391-571 | start, upload, update, retention, deletion and loss of the panel each keep records and objects in step exactly under the condition stated for it |
| BackupRetention.RunInStepIff | internal/backup/manager.go:391-571 | over any run from an empty list, in step all along exactly if every step meets its condition |
| EgressLink.AtFormIff | internal/api/egresslink.go:122-136 | user:pass@host:port reads back exactly if the user has no colon; colons and at signs are allowed in the password |
| EgressLink.LeadingFormIff | internal/api/egresslink.go:122-165 | host:port:user:pass reads back exactly if the user has neither colon nor at sign, and the password no at sign |
| EgressLink.LeadingRedirected | internal/api/egresslink.go:122-136 | what stands behind an at sign in the password is taken for host and port |
| EgressLink.AtInTrailingIsRefused | internal/api/egresslink.go:122-136 | user:pass:host:port with an at sign in user or password is refused |
| EgressLink.TrailingFormIff | internal/api/egresslink.go:122-172 | user:pass:host:port reads back exactly if there is no at sign in user or password, no colon in the user and no bracket at its start, and its second field cannot be a port or the line only repeats host and port |
| EgressLink.AddressFormReads | internal/api/egresslink.go:150-155 | host:port reads back |
| EgressLink.BracketedFormReads | internal/api/egresslink.go:137-147 | [IPv6]:port reads back |
| EgressLink.BracketedAtFormIff | internal/api/egresslink.go:122-136 | user:pass@[IPv6]:port reads back exactly if the user has no colon |
| EgressLink.JoinOfSplit | internal/api/egresslink.go:148-165 | joining the fields again gives the line |
| NotifyClaims.Claims.Clear | internal/store/telegram.go:257-261 | forgets a claim if the statement works |
| NotifyClaims.Claims.Claim | internal/store/telegram.go:242-252 | won exactly if the claim was not held |
| NotifyClaims.Claims.SendTelegram | internal/api/telegram_notify.go:170-179 | claims, sends, and gives the claim back on an error |
| NotifyClaims.Claims.SendBusinessReminder | internal/api/email_notifications.go:146-176 | claims, sends, and keeps the claim if acceptance is unknown |
| NotifyClaims.Claims.NotifyTraffic | internal/api/telegram_notify.go:156-198 | claims and message of one evaluation by Telegram |
| NotifyClaims.Claims.NotifyEmailTraffic | internal/api/email_notifications.go:122-144 | claims and message of one evaluation by e-mail |
| NotifyClaims.BothIffSlips | internal/api/telegram_notify.go:165-197 | both claims are held after an evaluation exactly if clearing the old one failed and the new one stayed, or if both were held and none could be cleared |
| NotifyClaims.NeverBoth | internal/api/telegram_notify.go:159-184 | never, if the deletions work |
| NotifyClaims.OverBetween | internal/api/telegram_notify.go:156-198 | between two messages of one kind, whatever fails, the condition was over and the claim removed, or the first went by Telegram, was reported as an error and undone |
| NotifyClaims.EmailOverBetween | internal/api/email_notifications.go:168-175 | by e-mail always the former |
| NotifyClaims.DeliveredGivesBackIff | internal/api/telegram_notify.go:170-179 | a delivered message loses its claim at once exactly if Telegram reported an error and the claim could be removed |
| NotifyClaims.RepeatsIff | internal/api/telegram_notify.go:176-178 | while its condition lasts a message is repeated exactly then, if the second one goes out |
| NotifyClaims.TelegramRepeatsLost | internal/api/telegram_notify.go:176-178 | two evaluations in a row that deliver the same message |

## Left out

- Machine integers: revisions, sequences, counters and byte sums are unbounded, except where the code itself tests for int64 overflow (OciUsage).
- Clocks are integers that do not go back within a run; times stored for display, the epoch string of a ticket, and display names are not modelled.
- Traffic follows one billed counter of one node. Identity collisions, frozen bindings, free plans and the other reasons for a coverage gap are not part of it; a collector is a sequence of steps rather than a method, because its steps interleave with those of others.
- CircuitAndAlert: the policy is fixed over a run, circuit and tracker read one clock (`TrackerCountsNoLess` has the difference), and the names that alerts carry are not modelled.
- LocalApply: two rows of this machine that share a file, and edits of the file or restarts of the unit from outside, are not modelled. The panel's own apply (internal/sbproc/manager.go:271-311) has the same shape and is not modelled twice.
- The semaphore around remote applies (internal/sbctl/controller.go:1208-1223) takes a slot as the probe's workers do in PingPool, and is not modelled again.
- RelayRollout.Pass: that a machine whose configuration is unchanged since it was last acknowledged has nothing left to do is taken as given; no pass is aborted by a database error, a machine that is online stays so for the whole rollout, and per-user identities on a link are not modelled.
- RelayGraph: reads of the database succeed; relay metering, which repeats the check inside the transaction, is off; of an inbound only what the walkers read is kept.
- PingPool: a dial is one step, and its latency is not modelled.
- ShellQuote: command substitution, parameter expansion and operators of more than one character are not tokenized; the tokenizer marks what is still due for expansion.
- OciUsage: which items are outbound transfers and what their units mean is given by flags; JSON, signatures and HTTP are not modelled.
- QueueActivations: a line is promoted as soon as its slot is free, without the ticker's delay of some two minutes; purchases, edits and refunds of queued plans, and quota that comes back, are not modelled; the list is in the order of ids, as the store returns it. The other folds over a user's plans and nodes in internal/api/user.go are not modelled.
- BackupRetention: edits of the record list are taken one at a time, ids are unique, one clock reading serves a whole retention pass, and bucket and prefix are not changed; restoring and downloading are not modelled.
- EgressLink: lines with a scheme (net/url) and the trimming of a pasted line are not modelled.
- NotifyClaims: expiry reminders, preferences and message texts are not modelled; whether an e-mail is still wanted is an outcome.
- RateLimit: the middleware around the limiter is not modelled.
- HTTP handlers, SQL, SSH, systemd, SMTP, object storage, certificates and cryptography appear only through the outcomes a caller can see.
