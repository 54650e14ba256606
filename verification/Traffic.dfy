/** Traffic of one node: the collector (internal/sbctl/traffic_snapshot.go) and its ledger. */
module Traffic {
  import opened Wrappers

  // ---------------------------------------------------------------- amounts

  datatype Usage = Usage(up: nat, down: nat) {
    function Plus(d: Usage): Usage { Usage(up + d.up, down + d.down) }
    predicate AtMost(d: Usage) { up <= d.up && down <= d.down }
    function Minus(d: Usage): Usage {
      Usage(if d.up <= up then up - d.up else 0, if d.down <= down then down - d.down else 0)
    }
  }

  const ZERO := Usage(0, 0)

  /** The sum of the first n entries. */
  function Sum(a: seq<Usage>, n: nat): Usage
    requires n <= |a|
  {
    if n == 0 then ZERO else Sum(a, n - 1).Plus(a[n - 1])
  }

  function Total(a: seq<Usage>): Usage { Sum(a, |a|) }

  lemma {:induction false} SumAgrees(a: seq<Usage>, b: seq<Usage>, n: nat)
    requires n <= |a| && n <= |b| && forall i :: 0 <= i < n ==> a[i] == b[i]
    ensures Sum(a, n) == Sum(b, n)
  {
    if n > 0 {
      SumAgrees(a, b, n - 1);
    }
  }

  lemma {:induction false} SumGrows(a: seq<Usage>, b: seq<Usage>, k: nat, d: Usage, n: nat)
    requires k < n <= |a| == |b| && b[k] == a[k].Plus(d)
    requires forall i :: 0 <= i < n && i != k ==> a[i] == b[i]
    ensures Sum(b, n) == Sum(a, n).Plus(d)
  {
    if k == n - 1 {
      SumAgrees(a, b, k);
    } else {
      SumGrows(a, b, k, d, n - 1);
    }
  }

  lemma SumAppends(a: seq<Usage>, x: Usage)
    ensures Total(a + [x]) == Total(a).Plus(x)
  {
    SumAgrees(a, a + [x], |a|);
  }

  // ---------------------------------------------------------------- the ledger

  datatype Mode = Reset | Cumulative

  /** A journalled response; `observed` once its usage was applied to the account. */
  datatype Poll = Poll(mode: Mode, epoch: Option<nat>, transition: bool, reading: Usage, observed: bool)

  datatype Cursor = Cursor(reading: Usage, sequence: nat)

  datatype Lease = Lease(owner: nat, expiresAt: nat)

  /** `uncertain` holds the sequence numbers of reset intents with no journalled response. */
  datatype Ledger = Ledger(nextSequence: nat, mode: Mode, lastSequence: nat,
                           polls: map<nat, Poll>, cursors: map<nat, Cursor>, uncertain: set<nat>, billed: Usage)

  const LEASE_SECONDS := 60
  const COLLECT_SECONDS := 30

  /** AcquireTrafficLease: takes a free, expired or own lease. */
  predicate Available(lease: Option<Lease>, owner: nat, now: nat) {
    lease.None? || lease.value.expiresAt <= now || lease.value.owner == owner
  }

  function Released(lease: Option<Lease>, owner: nat): Option<Lease> {
    if lease.Some? && lease.value.owner == owner then None else lease
  }

  /** The first transaction of RecordTrafficPoll: journal the response, clear its reset marker. */
  function Journalled(l: Ledger, q: nat, p: Poll): Ledger {
    var l1 := l.(polls := l.polls[q := p], uncertain := l.uncertain - {q});
    if p.transition && l.lastSequence < q then l1.(mode := Cumulative, lastSequence := q) else l1
  }

  /** An earlier cumulative observation of the same process is still waiting to be billed. */
  ghost predicate Blocked(l: Ledger, q: nat)
    requires q in l.polls
  {
    l.polls[q].mode.Cumulative? &&
    exists e :: e in l.polls && e < q && l.polls[e].mode.Cumulative? && l.polls[e].epoch == l.polls[q].epoch
        && !l.polls[e].observed
  }

  /** The metering-state row, which later sequences own and which never leaves cumulative mode. */
  function StateRow(l: Ledger, q: nat): Ledger
    requires q in l.polls
  {
    if q < l.lastSequence then l
    else l.(lastSequence := q, mode := if l.polls[q].transition || l.polls[q].mode.Cumulative? then Cumulative
        else l.mode)
  }

  /** What one reading adds to the bill, and the cursor it leaves behind. */
  function Charge(l: Ledger, q: nat): (r: (Usage, Option<Cursor>))
    requires q in l.polls && (l.polls[q].mode.Cumulative? ==> l.polls[q].epoch.Some?)
  {
    var p := l.polls[q];
    if p.mode.Reset? then (p.reading, None)
    else if p.epoch.value !in l.cursors then (p.reading, Some(Cursor(p.reading, q)))
    else
      var c := l.cursors[p.epoch.value];
      if q <= c.sequence then (ZERO, Some(c))
      else if !c.reading.AtMost(p.reading) then (ZERO, Some(Cursor(c.reading, q)))
      else (p.reading.Minus(c.reading), Some(Cursor(p.reading, q)))
  }

  /** processTrafficPoll, with the outcome of the account update as a parameter. */
  ghost function Processed(l: Ledger, q: nat, quotaOk: bool): Ledger {
    if q !in l.polls || l.polls[q].observed || (l.polls[q].mode.Cumulative? && l.polls[q].epoch.None?) then l
    else if !quotaOk || Blocked(l, q) then StateRow(l, q)
    else
      var (amount, cursor) := Charge(l, q);
      StateRow(l, q).(
        billed := l.billed.Plus(amount),
        polls := l.polls[q := l.polls[q].(observed := true)],
        cursors := if cursor.Some? then l.cursors[l.polls[q].epoch.value := cursor.value] else l.cursors)
  }

  // ---------------------------------------------------------------- collectors and the node

  // Collectors of any number of panel processes interleave their database and network
  // operations with traffic, core restarts, stray counter resets and the clock. A network
  // operation can only be answered before the collector's 30 second deadline; a database
  // operation may commit at any later time. The exclusiveness of the 60 second lease is
  // therefore a theorem here, not an assumption. The ledger is that of
  // internal/store/traffic_ledger.go, for one metered counter.

  datatype Phase =
    | Waiting
    | Deciding
    | Probing(seen: Mode, legacy: bool)
    | ResetReady(epoch: Option<nat>, transition: bool)
    | ResetNumbered(seqNo: nat, epoch: Option<nat>, transition: bool)
    | ResetIntended(seqNo: nat, epoch: Option<nat>, transition: bool)
    | ResetRead(seqNo: nat, epoch: Option<nat>, transition: bool, reading: Usage)
    | ResetVerified(seqNo: nat, epoch: Option<nat>, transition: bool, reading: Usage)
    | CumulativeReady(before: nat)
    | CumulativeNumbered(before: nat, seqNo: nat)
    | CumulativeRead(before: nat, seqNo: nat, reading: Usage, readEpoch: nat)
    | CumulativeVerified(before: nat, seqNo: nat, reading: Usage)
    | Settling(seqNo: nat, next: Option<nat>)

  datatype Collector = Collector(deadline: nat, phase: Phase)

  /** The node: its process, that process's counter, and all traffic there ever was. */
  datatype Core = Core(epoch: nat, counter: Usage, flowed: Usage)

  /**
   What happened, for the proofs only: `net[e]` is the traffic of process e not handed out
   by an answered reset read, `delivered[q]` what the answered reset read numbered q handed
   out, `owner[q]` the collector that reserved number q, `sent` the answered reset reads,
   `newestRead` the newest number answered, `cumulativeRead` whether a cumulative read was
   ever answered, `lateHandover` whether a mode transition was journalled after its
   collector's deadline and not overtaken by a later number, `faulty` whether the core
   restarted, a counter was reset from outside, or a response was thrown away.
   */
  datatype Log = Log(net: seq<Usage>, delivered: seq<Usage>, owner: map<nat, nat>, sent: set<nat>,
                     newestRead: nat, cumulativeRead: bool, lateHandover: bool, faulty: bool)

  datatype System = System(now: nat, lease: Option<Lease>, nextOwner: nat, collectors: map<nat, Collector>,
                           ledger: Ledger, core: Core, log: Log)

  const INIT := System(0, None, 0, map[], Ledger(0, Reset, 0, map[], map[], {}, ZERO), Core(0, ZERO, ZERO),
                       Log([ZERO], [ZERO], map[], {}, 0, false, false, false))

  datatype Step =
    | Tick(seconds: nat)
    | Flow(amount: Usage)
    | CoreRestart
    | StrayReset
    | Retry(q: nat, quotaOk: bool)
    | Launch
    | Acquire(c: nat)
    | Decide(c: nat, optedIn: bool)
    | Probe(c: nat, answered: bool)
    | Number(c: nat)
    | Intend(c: nat)
    | QueryReset(c: nat)
    | VerifyReset(c: nat)
    | QueryCumulative(c: nat)
    | VerifyCumulative(c: nat)
    | JournalReset(c: nat)
    | JournalCumulative(c: nat)
    | Settle(c: nat, billed: bool)
    | GiveUp(c: nat, crashed: bool)

  predicate At(s: System, c: nat) { c in s.collectors }

  function PhaseOf(s: System, c: nat): Phase
    requires At(s, c)
  {
    s.collectors[c].phase
  }

  predicate InTime(s: System, c: nat)
    requires At(s, c)
  {
    s.now <= s.collectors[c].deadline
  }

  predicate Enabled(s: System, step: Step) {
    match step
    case Acquire(c) => At(s, c) && PhaseOf(s, c).Waiting? && Available(s.lease, c, s.now)
    case Decide(c, _) => At(s, c) && PhaseOf(s, c).Deciding?
    case Probe(c, answered) =>
      At(s, c) && PhaseOf(s, c).Probing? && (if answered then InTime(s, c) else PhaseOf(s, c).seen.Reset?)
    case Number(c) => At(s, c) && (PhaseOf(s, c).ResetReady? || PhaseOf(s, c).CumulativeReady?)
    case Intend(c) => At(s, c) && PhaseOf(s, c).ResetNumbered?
    case QueryReset(c) => At(s, c) && PhaseOf(s, c).ResetIntended? && InTime(s, c)
    case VerifyReset(c) =>
      At(s, c) && PhaseOf(s, c).ResetRead?
      && (PhaseOf(s, c).epoch.Some? ==> InTime(s, c) && PhaseOf(s, c).epoch.value == s.core.epoch)
    case QueryCumulative(c) => At(s, c) && PhaseOf(s, c).CumulativeNumbered? && InTime(s, c)
    case VerifyCumulative(c) =>
      At(s, c) && PhaseOf(s, c).CumulativeRead? && InTime(s, c) && PhaseOf(s, c).before == s.core.epoch
    case JournalReset(c) => At(s, c) && PhaseOf(s, c).ResetVerified?
    case JournalCumulative(c) => At(s, c) && PhaseOf(s, c).CumulativeVerified?
    case Settle(c, billed) =>
      At(s, c) && PhaseOf(s, c).Settling?
      && (billed ==> PhaseOf(s, c).seqNo in s.ledger.polls && s.ledger.polls[PhaseOf(s, c).seqNo].observed)
    case GiveUp(c, _) => At(s, c)
    case _ => true
  }

  function SetAt(a: seq<Usage>, k: nat, x: Usage): seq<Usage> { if k < |a| then a[k := x] else a }

  function NetOf(g: Log, e: nat): Usage { if e < |g.net| then g.net[e] else ZERO }

  function To(s: System, c: nat, phase: Phase): System
    requires At(s, c)
  {
    s.(collectors := s.collectors[c := s.collectors[c].(phase := phase)])
  }

  function Leave(s: System, c: nat, crashed: bool): System {
    s.(collectors := s.collectors - {c}, lease := if crashed then s.lease else Released(s.lease, c))
  }

  /** The mode and the opt-in setting were read; now the process epoch was asked for. */
  function AfterProbe(s: System, c: nat, answered: bool): Phase
    requires Enabled(s, Probe(c, answered))
  {
    var p := PhaseOf(s, c);
    var epoch := if answered then Some(s.core.epoch) else None;
    if p.legacy then ResetReady(epoch, false)
    else if p.seen.Cumulative? then CumulativeReady(s.core.epoch)
    else ResetReady(epoch, answered)
  }

  function ApplyNumber(s: System, c: nat): System
    requires Enabled(s, Number(c))
  {
    var q, p := s.ledger.nextSequence + 1, PhaseOf(s, c);
    To(s, c, if p.ResetReady? then ResetNumbered(q, p.epoch, p.transition) else CumulativeNumbered(p.before, q))
    .(ledger := s.ledger.(nextSequence := q),
      log := s.log.(delivered := s.log.delivered + [ZERO], owner := s.log.owner[q := c]))
  }

  function ApplyIntend(s: System, c: nat): System
    requires Enabled(s, Intend(c))
  {
    var p := PhaseOf(s, c);
    To(s, c, ResetIntended(p.seqNo, p.epoch, p.transition))
    .(ledger := s.ledger.(uncertain := s.ledger.uncertain + {p.seqNo}))
  }

  /** The core answers with its counter and starts again from zero. */
  function ApplyQueryReset(s: System, c: nat): System
    requires Enabled(s, QueryReset(c))
  {
    var p, n := PhaseOf(s, c), s.core.counter;
    To(s, c, ResetRead(p.seqNo, p.epoch, p.transition, n))
    .(core := s.core.(counter := ZERO),
      log := s.log.(net := SetAt(s.log.net, s.core.epoch, NetOf(s.log, s.core.epoch).Minus(n)),
                    delivered := SetAt(s.log.delivered, p.seqNo, n),
                    sent := s.log.sent + {p.seqNo}, newestRead := p.seqNo))
  }

  function ApplyQueryCumulative(s: System, c: nat): System
    requires Enabled(s, QueryCumulative(c))
  {
    var p := PhaseOf(s, c);
    To(s, c, CumulativeRead(p.before, p.seqNo, s.core.counter, s.core.epoch))
    .(log := s.log.(newestRead := p.seqNo, cumulativeRead := true))
  }

  function ApplyJournalReset(s: System, c: nat): System
    requires Enabled(s, JournalReset(c))
  {
    var p := PhaseOf(s, c);
    To(s, c, Settling(p.seqNo, if p.transition then p.epoch else None))
    .(ledger := Journalled(s.ledger, p.seqNo, Poll(Reset, p.epoch, p.transition, p.reading, false)),
      log := s.log.(
        lateHandover := s.log.lateHandover || (p.transition && !InTime(s, c) && s.ledger.lastSequence < p.seqNo)))
  }

  function ApplyJournalCumulative(s: System, c: nat): System
    requires Enabled(s, JournalCumulative(c))
  {
    var p := PhaseOf(s, c);
    To(s, c, Settling(p.seqNo, None))
    .(ledger := Journalled(s.ledger, p.seqNo, Poll(Cumulative, Some(p.before), false, p.reading, false)))
  }

  /** RecordTrafficPoll returned: on to the cumulative read of a handover, or done. */
  function ApplySettle(s: System, c: nat, billed: bool): System
    requires Enabled(s, Settle(c, billed))
  {
    var p := PhaseOf(s, c);
    if billed && p.next.Some? then To(s, c, CumulativeReady(p.next.value)) else Leave(s, c, false)
  }

  /** A response in hand that is thrown away is the loss the reset marker stands for. */
  predicate HoldsReset(p: Phase) { p.ResetRead? || p.ResetVerified? }

  function ApplyGiveUp(s: System, c: nat, crashed: bool): System
    requires At(s, c)
  {
    Leave(s, c, crashed).(log := s.log.(faulty := s.log.faulty || HoldsReset(PhaseOf(s, c))))
  }

  function ApplyFlow(s: System, amount: Usage): System {
    s.(core := s.core.(counter := s.core.counter.Plus(amount), flowed := s.core.flowed.Plus(amount)),
       log := s.log.(net := SetAt(s.log.net, s.core.epoch, NetOf(s.log, s.core.epoch).Plus(amount))))
  }

  function ApplyRestart(s: System): System {
    s.(core := s.core.(epoch := s.core.epoch + 1, counter := ZERO),
       log := s.log.(net := s.log.net + [ZERO], faulty := true))
  }

  /** One atomic action; a step that is not enabled changes nothing. */
  ghost function Apply(s: System, step: Step): System {
    if !Enabled(s, step) then s else
    match step
    case Tick(seconds) => s.(now := s.now + seconds)
    case Flow(amount) => ApplyFlow(s, amount)
    case CoreRestart => ApplyRestart(s)
    case StrayReset => s.(core := s.core.(counter := ZERO), log := s.log.(faulty := true))
    case Retry(q, quotaOk) => s.(ledger := Processed(s.ledger, q, quotaOk))
    case Launch =>
      s.(collectors := s.collectors[s.nextOwner := Collector(s.now + COLLECT_SECONDS, Waiting)],
          nextOwner := s.nextOwner + 1)
    case Acquire(c) => To(s, c, Deciding).(lease := Some(Lease(c, s.now + LEASE_SECONDS)))
    case Decide(c, optedIn) => To(s, c, Probing(s.ledger.mode, s.ledger.mode.Reset? && !optedIn))
    case Probe(c, answered) => To(s, c, AfterProbe(s, c, answered))
    case Number(c) => ApplyNumber(s, c)
    case Intend(c) => ApplyIntend(s, c)
    case QueryReset(c) => ApplyQueryReset(s, c)
    case VerifyReset(c) =>
      var p := PhaseOf(s, c); To(s, c, ResetVerified(p.seqNo, p.epoch, p.transition, p.reading))
    case QueryCumulative(c) => ApplyQueryCumulative(s, c)
    case VerifyCumulative(c) =>
      var p := PhaseOf(s, c); To(s, c, CumulativeVerified(p.before, p.seqNo, p.reading))
    case JournalReset(c) => ApplyJournalReset(s, c)
    case JournalCumulative(c) => ApplyJournalCumulative(s, c)
    case Settle(c, billed) => ApplySettle(s, c, billed)
    case GiveUp(c, crashed) => ApplyGiveUp(s, c, crashed)
  }

  ghost function Exec(steps: seq<Step>): System {
    if steps == [] then INIT else Apply(Exec(steps[..|steps| - 1]), steps[|steps| - 1])
  }

  // ---------------------------------------------------------------- invariant

  predicate Numbered(p: Phase) {
    p.ResetNumbered? || p.ResetIntended? || p.ResetRead? || p.ResetVerified?
    || p.CumulativeNumbered? || p.CumulativeRead? || p.CumulativeVerified?
  }

  predicate Journalable(p: Phase) { p.ResetRead? || p.ResetVerified? || p.CumulativeRead? || p.CumulativeVerified? }

  predicate ResetBound(p: Phase) {
    (p.Probing? && p.seen.Reset?) || p.ResetReady? || p.ResetNumbered? || p.ResetIntended?
  }

  predicate CumulativeBound(p: Phase) {
    p.CumulativeReady? || p.CumulativeNumbered? || (p.Settling? && p.next.Some?)
  }

  /** The process epochs a collector remembers have existed. */
  predicate EpochsKnown(epoch: nat, p: Phase) {
    match p
    case CumulativeReady(before) => before <= epoch
    case CumulativeNumbered(before, _) => before <= epoch
    case CumulativeRead(before, _, _, readEpoch) => before <= readEpoch <= epoch
    case CumulativeVerified(before, _, _) => before <= epoch
    case Settling(_, next) => next.Some? ==> next.value <= epoch
    case ResetReady(e, _) => e.Some? ==> e.value <= epoch
    case ResetNumbered(_, e, _) => e.Some? ==> e.value <= epoch
    case ResetIntended(_, e, _) => e.Some? ==> e.value <= epoch
    case ResetRead(_, e, _, _) => e.Some? ==> e.value <= epoch
    case ResetVerified(_, e, _, _) => e.Some? ==> e.value <= epoch
    case _ => true
  }

  /** A reserved number belongs to its collector alone and records what was handed out under it. */
  predicate NumberOk(l: Ledger, g: Log, c: nat, p: Phase) {
    Numbered(p) ==>
      var q := p.seqNo;
      && 1 <= q <= l.nextSequence && q !in l.polls
      && q in g.owner && g.owner[q] == c
      && q < |g.delivered| && g.delivered[q] == (if HoldsReset(p) then p.reading else ZERO)
      && (p.ResetIntended? || HoldsReset(p) ==> q in l.uncertain)
      && (q in g.sent <==> HoldsReset(p))
      && (Journalable(p) ==> q <= g.newestRead)
  }

  predicate ReadingOk(mode: Mode, g: Log, p: Phase) {
    && (p.CumulativeRead? ==> g.cumulativeRead && p.reading.AtMost(NetOf(g, p.readEpoch)))
    && (p.CumulativeVerified? ==> g.cumulativeRead && p.reading.AtMost(NetOf(g, p.before)))
    && (p.Probing? && p.seen.Cumulative? ==> mode.Cumulative?)
    && (p.Probing? && p.legacy ==> p.seen.Reset?)
  }

  /** What only a collector that can still reach the node enjoys. */
  predicate LiveOk(now: nat, lease: Option<Lease>, mode: Mode, g: Log, c: nat, col: Collector) {
    var p := col.phase;
    now <= col.deadline && !p.Waiting? ==>
      && lease.Some? && lease.value.owner == c && col.deadline < lease.value.expiresAt
      && (Numbered(p) && !Journalable(p) ==> g.newestRead < p.seqNo)
      && (Journalable(p) ==> g.newestRead == p.seqNo)
      && (CumulativeBound(p) ==> mode.Cumulative?)
      && (ResetBound(p) ==> !g.cumulativeRead)
      && (ResetBound(p) && !g.lateHandover ==> mode.Reset?)
  }

  predicate CollectorOk(s: System, c: nat)
    requires At(s, c)
  {
    var col := s.collectors[c];
    && c < s.nextOwner && col.deadline <= s.now + COLLECT_SECONDS
    && EpochsKnown(s.core.epoch, col.phase) && NumberOk(s.ledger, s.log, c, col.phase)
    && ReadingOk(s.ledger.mode, s.log, col.phase) && LiveOk(s.now, s.lease, s.ledger.mode, s.log, c, col)
  }

  predicate PollOk(l: Ledger, g: Log, q: nat)
    requires q in l.polls
  {
    var p := l.polls[q];
    && 1 <= q <= g.newestRead && q < |g.delivered|
    && (p.mode.Reset? ==> p.reading == g.delivered[q])
    && (p.mode.Cumulative? ==> g.delivered[q] == ZERO)
    && (p.mode.Cumulative? ==>
          g.cumulativeRead && p.epoch.Some? && p.epoch.value < |g.net| && p.reading.AtMost(NetOf(g, p.epoch.value)))
    && (p.transition && l.mode.Reset? ==> q < l.lastSequence)
  }

  ghost predicate BaseOk(l: Ledger, core: Core, g: Log) {
    && |g.net| == core.epoch + 1 && core.counter.AtMost(NetOf(g, core.epoch))
    && |g.delivered| == l.nextSequence + 1 && g.newestRead <= l.nextSequence
    && (l.lastSequence == 0 || l.lastSequence in l.polls) && l.lastSequence <= g.newestRead
    && (g.cumulativeRead || g.lateHandover ==> l.mode.Cumulative?) && (!g.cumulativeRead ==> l.cursors == map[])
    && (forall e :: e in l.cursors ==> e <= core.epoch && l.cursors[e].reading.AtMost(NetOf(g, e)))
    && (forall q :: q in g.owner ==> q <= l.nextSequence)
    && (forall q :: q in l.polls ==> q <= g.newestRead) && (forall q :: q in g.sent ==> q <= l.nextSequence)
  }

  /** A reset read whose response is not journalled is flagged, and one that is journalled is not. */
  predicate SentOk(l: Ledger, q: nat) { q in l.uncertain <==> q !in l.polls }

  function ClearedAt(polls: map<nat, Poll>, q: nat): Usage {
    if q in polls && polls[q].mode.Reset? && polls[q].observed then polls[q].reading else ZERO
  }

  /** The part of the bill that came from reset reads numbered below n. */
  function Cleared(polls: map<nat, Poll>, n: nat): Usage {
    if n == 0 then ZERO else Cleared(polls, n - 1).Plus(ClearedAt(polls, n - 1))
  }

  function CursorAt(cursors: map<nat, Cursor>, e: nat): Usage { if e in cursors then cursors[e].reading else ZERO }

  /** The part of the bill that came from cumulative reads of processes before n. */
  function Credited(cursors: map<nat, Cursor>, n: nat): Usage {
    if n == 0 then ZERO else Credited(cursors, n - 1).Plus(CursorAt(cursors, n - 1))
  }

  /** Every byte is either still the node's or was handed out. */
  predicate Flowed(core: Core, g: Log) { core.flowed == Total(g.delivered).Plus(Total(g.net)) }

  /** Every billed byte was read, once. */
  predicate Billed(l: Ledger, g: Log) {
    l.billed == Cleared(l.polls, |g.delivered|).Plus(Credited(l.cursors, |g.net|))
  }

  /** What a reset read handed out is journalled or still in its collector's hands. */
  predicate Found(l: Ledger, collectors: map<nat, Collector>, g: Log, q: nat) {
    && (q < |g.delivered| && g.delivered[q] != ZERO ==> q in g.sent)
    && (q in g.sent && q !in l.polls ==>
          q in g.owner && g.owner[q] in collectors && HoldsReset(collectors[g.owner[q]].phase)
          && collectors[g.owner[q]].phase.seqNo == q)
  }

  /** Without faults nothing handed out is missing and the counter is all there is left to read. */
  ghost predicate Faultless(s: System) {
    !s.log.faulty ==>
      s.log.net == [s.core.counter] && forall q: nat :: Found(s.ledger, s.collectors, s.log, q)
  }

  ghost predicate Inv(s: System) {
    && BaseOk(s.ledger, s.core, s.log)
    && (forall c :: c in s.collectors ==> CollectorOk(s, c))
    && (forall q :: q in s.ledger.polls ==> PollOk(s.ledger, s.log, q))
    && (forall q :: q in s.log.sent ==> SentOk(s.ledger, q))
    && Flowed(s.core, s.log) && Billed(s.ledger, s.log) && Faultless(s)
  }

  // ---------------------------------------------------------------- one step at a time

  /** The collector a step belongs to. */
  function Actor(step: Step): Option<nat> {
    match step
    case Acquire(c) => Some(c)
    case Decide(c, _) => Some(c)
    case Probe(c, _) => Some(c)
    case Number(c) => Some(c)
    case Intend(c) => Some(c)
    case QueryReset(c) => Some(c)
    case VerifyReset(c) => Some(c)
    case QueryCumulative(c) => Some(c)
    case VerifyCumulative(c) => Some(c)
    case JournalReset(c) => Some(c)
    case JournalCumulative(c) => Some(c)
    case Settle(c, _) => Some(c)
    case GiveUp(c, _) => Some(c)
    case _ => None
  }

  /** What a step may rely on when one collector, poll or number is followed through it. */
  ghost predicate Context(s: System, step: Step) {
    && BaseOk(s.ledger, s.core, s.log) && Enabled(s, step)
    && (Actor(step).Some? ==> At(s, Actor(step).value) && CollectorOk(s, Actor(step).value))
    && (step.Retry? && step.q in s.ledger.polls ==> PollOk(s.ledger, s.log, step.q))
  }

  predicate IsOpening(step: Step) { step.Acquire? || step.Decide? || step.Probe? }

  predicate IsVerify(step: Step) { step.VerifyReset? || step.VerifyCumulative? }

  predicate IsJournal(step: Step) { step.JournalReset? || step.JournalCumulative? }

  lemma RetryKeepsCollector(s: System, step: Step, d: nat)
    requires Context(s, step) && step.Retry? && At(s, d) && CollectorOk(s, d)
    ensures At(Apply(s, step), d) && CollectorOk(Apply(s, step), d)
  {}

  lemma EnvironmentKeepsCollector(s: System, step: Step, d: nat)
    requires Context(s, step) && Actor(step).None? && !step.Retry? && At(s, d) && CollectorOk(s, d)
    ensures At(Apply(s, step), d) && CollectorOk(Apply(s, step), d)
  {}

  lemma OpeningKeepsCollector(s: System, step: Step, d: nat)
    requires Context(s, step) && IsOpening(step) && At(s, d) && CollectorOk(s, d)
    ensures At(Apply(s, step), d) && CollectorOk(Apply(s, step), d)
  {}

  lemma NumberKeepsCollector(s: System, c: nat, d: nat)
    requires Context(s, Number(c)) && At(s, d) && CollectorOk(s, d)
    ensures At(ApplyNumber(s, c), d) && CollectorOk(ApplyNumber(s, c), d)
  {}

  lemma IntendKeepsCollector(s: System, c: nat, d: nat)
    requires Context(s, Intend(c)) && At(s, d) && CollectorOk(s, d)
    ensures At(ApplyIntend(s, c), d) && CollectorOk(ApplyIntend(s, c), d)
  {}

  lemma QueryResetKeepsCollector(s: System, c: nat, d: nat)
    requires Context(s, QueryReset(c)) && At(s, d) && CollectorOk(s, d)
    ensures At(ApplyQueryReset(s, c), d) && CollectorOk(ApplyQueryReset(s, c), d)
  {}

  lemma QueryCumulativeKeepsCollector(s: System, c: nat, d: nat)
    requires Context(s, QueryCumulative(c)) && At(s, d) && CollectorOk(s, d)
    ensures At(ApplyQueryCumulative(s, c), d) && CollectorOk(ApplyQueryCumulative(s, c), d)
  {}

  lemma VerifyKeepsCollector(s: System, step: Step, d: nat)
    requires Context(s, step) && IsVerify(step) && At(s, d) && CollectorOk(s, d)
    ensures At(Apply(s, step), d) && CollectorOk(Apply(s, step), d)
  {}

  lemma JournalResetKeepsCollector(s: System, c: nat, d: nat)
    requires Context(s, JournalReset(c)) && At(s, d) && CollectorOk(s, d)
    ensures At(ApplyJournalReset(s, c), d) && CollectorOk(ApplyJournalReset(s, c), d)
  {}

  lemma JournalCumulativeKeepsCollector(s: System, c: nat, d: nat)
    requires Context(s, JournalCumulative(c)) && At(s, d) && CollectorOk(s, d)
    ensures At(ApplyJournalCumulative(s, c), d) && CollectorOk(ApplyJournalCumulative(s, c), d)
  {}

  lemma SettleKeepsCollector(s: System, c: nat, billed: bool, d: nat)
    requires Context(s, Settle(c, billed)) && At(s, d) && CollectorOk(s, d) && At(ApplySettle(s, c, billed), d)
    ensures CollectorOk(ApplySettle(s, c, billed), d)
  {}

  lemma GiveUpKeepsCollector(s: System, c: nat, crashed: bool, d: nat)
    requires Context(s, GiveUp(c, crashed)) && At(s, d) && CollectorOk(s, d) && At(ApplyGiveUp(s, c, crashed), d)
    ensures CollectorOk(ApplyGiveUp(s, c, crashed), d)
  {}

  lemma RetryKeepsBase(s: System, step: Step)
    requires Context(s, step) && step.Retry?
    ensures var t := Apply(s, step); BaseOk(t.ledger, t.core, t.log)
  {}

  lemma EnvironmentKeepsBase(s: System, step: Step)
    requires Context(s, step) && Actor(step).None? && !step.Retry?
    ensures var t := Apply(s, step); BaseOk(t.ledger, t.core, t.log)
  {}

  lemma JournalKeepsBase(s: System, step: Step)
    requires Context(s, step) && IsJournal(step)
    ensures var t := Apply(s, step); BaseOk(t.ledger, t.core, t.log)
  {}

  lemma CollectorKeepsBase(s: System, step: Step)
    requires Context(s, step) && Actor(step).Some? && !IsJournal(step)
    ensures var t := Apply(s, step); BaseOk(t.ledger, t.core, t.log)
  {}

  lemma EnvironmentKeepsPoll(s: System, step: Step, q: nat)
    requires Context(s, step) && Actor(step).None? && q in Apply(s, step).ledger.polls
    requires q in s.ledger.polls ==> PollOk(s.ledger, s.log, q)
    ensures PollOk(Apply(s, step).ledger, Apply(s, step).log, q)
  {}

  lemma JournalResetKeepsPoll(s: System, c: nat, q: nat)
    requires Context(s, JournalReset(c)) && q in ApplyJournalReset(s, c).ledger.polls
    requires q in s.ledger.polls ==> PollOk(s.ledger, s.log, q)
    ensures PollOk(ApplyJournalReset(s, c).ledger, ApplyJournalReset(s, c).log, q)
  {}

  lemma JournalCumulativeKeepsPoll(s: System, c: nat, q: nat)
    requires Context(s, JournalCumulative(c)) && q in ApplyJournalCumulative(s, c).ledger.polls
    requires q in s.ledger.polls ==> PollOk(s.ledger, s.log, q)
    ensures PollOk(ApplyJournalCumulative(s, c).ledger, ApplyJournalCumulative(s, c).log, q)
  {}

  lemma CollectorKeepsPoll(s: System, step: Step, q: nat)
    requires Context(s, step) && Actor(step).Some? && !IsJournal(step) && q in Apply(s, step).ledger.polls
    requires q in s.ledger.polls ==> PollOk(s.ledger, s.log, q)
    ensures PollOk(Apply(s, step).ledger, Apply(s, step).log, q)
  {}

  lemma SentKept(s: System, step: Step, q: nat)
    requires Context(s, step) && q in Apply(s, step).log.sent && (q in s.log.sent ==> SentOk(s.ledger, q))
    ensures SentOk(Apply(s, step).ledger, q)
  {}

  lemma EnvironmentKeepsFound(s: System, step: Step, q: nat)
    requires Context(s, step) && Actor(step).None? && Found(s.ledger, s.collectors, s.log, q)
        && !Apply(s, step).log.faulty
    requires q in s.log.owner && At(s, s.log.owner[q]) ==> CollectorOk(s, s.log.owner[q])
    ensures Found(Apply(s, step).ledger, Apply(s, step).collectors, Apply(s, step).log, q)
  {}

  lemma CollectorKeepsFound(s: System, step: Step, q: nat)
    requires Context(s, step) && Actor(step).Some? && Found(s.ledger, s.collectors, s.log, q)
        && !Apply(s, step).log.faulty
    ensures Found(Apply(s, step).ledger, Apply(s, step).collectors, Apply(s, step).log, q)
  {}

  // ---------------------------------------------------------------- the books

  lemma {:induction false} ClearedSame(a: map<nat, Poll>, b: map<nat, Poll>, n: nat)
    requires forall q: nat :: q < n ==> ClearedAt(a, q) == ClearedAt(b, q)
    ensures Cleared(a, n) == Cleared(b, n)
  {
    if n > 0 {
      ClearedSame(a, b, n - 1);
    }
  }

  lemma {:induction false} ClearedGrows(polls: map<nat, Poll>, q: nat, n: nat)
    requires q < n && q in polls && polls[q].mode.Reset? && !polls[q].observed
    ensures Cleared(polls[q := polls[q].(observed := true)], n) == Cleared(polls, n).Plus(polls[q].reading)
  {
    if q == n - 1 {
      ClearedSame(polls, polls[q := polls[q].(observed := true)], n - 1);
    } else {
      ClearedGrows(polls, q, n - 1);
    }
  }

  lemma {:induction false} CreditedSame(a: map<nat, Cursor>, b: map<nat, Cursor>, n: nat)
    requires forall e: nat :: e < n ==> CursorAt(a, e) == CursorAt(b, e)
    ensures Credited(a, n) == Credited(b, n)
  {
    if n > 0 {
      CreditedSame(a, b, n - 1);
    }
  }

  lemma {:induction false} CreditedGrows(cursors: map<nat, Cursor>, e: nat, c: Cursor, d: Usage, n: nat)
    requires e < n && c.reading == CursorAt(cursors, e).Plus(d)
    ensures Credited(cursors[e := c], n) == Credited(cursors, n).Plus(d)
  {
    if e == n - 1 {
      CreditedSame(cursors, cursors[e := c], n - 1);
      assert CursorAt(cursors[e := c], n - 1) == CursorAt(cursors, n - 1).Plus(d);
    } else {
      CreditedGrows(cursors, e, c, d, n - 1);
      assert CursorAt(cursors[e := c], n - 1) == CursorAt(cursors, n - 1);
    }
  }

  lemma {:induction false} ClearedBelow(polls: map<nat, Poll>, a: seq<Usage>, n: nat)
    requires n <= |a| && forall q: nat :: q < n ==> ClearedAt(polls, q).AtMost(a[q])
    ensures Cleared(polls, n).AtMost(Sum(a, n))
  {
    if n > 0 {
      ClearedBelow(polls, a, n - 1);
    }
  }

  lemma {:induction false} ClearedAll(polls: map<nat, Poll>, a: seq<Usage>, n: nat)
    requires n <= |a| && forall q: nat :: q < n ==> ClearedAt(polls, q) == a[q]
    ensures Cleared(polls, n) == Sum(a, n)
  {
    if n > 0 {
      ClearedAll(polls, a, n - 1);
    }
  }

  lemma {:induction false} CreditedBelow(cursors: map<nat, Cursor>, a: seq<Usage>, n: nat)
    requires n <= |a| && forall e: nat :: e < n ==> CursorAt(cursors, e).AtMost(a[e])
    ensures Credited(cursors, n).AtMost(Sum(a, n))
  {
    if n > 0 {
      CreditedBelow(cursors, a, n - 1);
    }
  }

  lemma FlowedKept(s: System, step: Step)
    requires Context(s, step) && Flowed(s.core, s.log)
    ensures Flowed(Apply(s, step).core, Apply(s, step).log)
  {
    var t := Apply(s, step);
    match step
    case Flow(amount) => SumGrows(s.log.net, t.log.net, s.core.epoch, amount, |s.log.net|);
    case CoreRestart => SumAppends(s.log.net, ZERO);
    case Number(_) => SumAppends(s.log.delivered, ZERO);
    case QueryReset(c) =>
      SumGrows(s.log.delivered, t.log.delivered, PhaseOf(s, c).seqNo, s.core.counter, |s.log.delivered|);
      SumGrows(t.log.net, s.log.net, s.core.epoch, s.core.counter, |s.log.net|);
    case _ =>
  }

  /** A cumulative charge is exactly what the cursor advances by. */
  lemma ChargeIsAdvance(l: Ledger, q: nat)
    requires q in l.polls && l.polls[q].mode.Cumulative? && l.polls[q].epoch.Some?
    ensures Charge(l, q).1.Some?
    ensures Charge(l, q).1.value.reading == CursorAt(l.cursors, l.polls[q].epoch.value).Plus(Charge(l, q).0)
  {}

  lemma RetryKeepsBill(s: System, q: nat, quotaOk: bool)
    requires Context(s, Retry(q, quotaOk)) && Billed(s.ledger, s.log)
    ensures Billed(Processed(s.ledger, q, quotaOk), s.log)
  {
    var l, l' := s.ledger, Processed(s.ledger, q, quotaOk);
    if q in l.polls && l'.polls != l.polls {
      if l.polls[q].mode.Reset? {
        ClearedGrows(l.polls, q, |s.log.delivered|);
      } else {
        ChargeIsAdvance(l, q);
        ClearedSame(l.polls, l'.polls, |s.log.delivered|);
        CreditedGrows(l.cursors, l.polls[q].epoch.value, Charge(l, q).1.value, Charge(l, q).0, |s.log.net|);
      }
    }
  }

  lemma JournalKeepsBill(s: System, step: Step)
    requires Context(s, step) && IsJournal(step) && Billed(s.ledger, s.log)
    ensures Billed(Apply(s, step).ledger, Apply(s, step).log)
  {
    ClearedSame(s.ledger.polls, Apply(s, step).ledger.polls, |s.log.delivered|);
  }

  lemma BilledKept(s: System, step: Step)
    requires Context(s, step) && Billed(s.ledger, s.log)
    ensures Billed(Apply(s, step).ledger, Apply(s, step).log)
  {
    match step
    case Retry(q, quotaOk) => RetryKeepsBill(s, q, quotaOk);
    case JournalReset(_) => JournalKeepsBill(s, step);
    case JournalCumulative(_) => JournalKeepsBill(s, step);
    case _ =>
  }

  // ---------------------------------------------------------------- every run

  lemma CollectorKept(s: System, step: Step, d: nat)
    requires Context(s, step) && At(Apply(s, step), d) && (At(s, d) ==> CollectorOk(s, d))
    ensures CollectorOk(Apply(s, step), d)
  {
    if !At(s, d) {
      assert step.Launch?;
    } else if step.Retry? {
      RetryKeepsCollector(s, step, d);
    } else if Actor(step).None? {
      EnvironmentKeepsCollector(s, step, d);
    } else if IsOpening(step) {
      OpeningKeepsCollector(s, step, d);
    } else if step.Number? {
      NumberKeepsCollector(s, step.c, d);
    } else if step.Intend? {
      IntendKeepsCollector(s, step.c, d);
    } else if step.QueryReset? {
      QueryResetKeepsCollector(s, step.c, d);
    } else if step.QueryCumulative? {
      QueryCumulativeKeepsCollector(s, step.c, d);
    } else if IsVerify(step) {
      VerifyKeepsCollector(s, step, d);
    } else if step.JournalReset? {
      JournalResetKeepsCollector(s, step.c, d);
    } else if step.JournalCumulative? {
      JournalCumulativeKeepsCollector(s, step.c, d);
    } else if step.Settle? {
      SettleKeepsCollector(s, step.c, step.billed, d);
    } else {
      GiveUpKeepsCollector(s, step.c, step.crashed, d);
    }
  }

  lemma PollKept(s: System, step: Step, q: nat)
    requires Context(s, step) && q in Apply(s, step).ledger.polls
    requires q in s.ledger.polls ==> PollOk(s.ledger, s.log, q)
    ensures PollOk(Apply(s, step).ledger, Apply(s, step).log, q)
  {
    if Actor(step).None? {
      EnvironmentKeepsPoll(s, step, q);
    } else if step.JournalReset? {
      JournalResetKeepsPoll(s, step.c, q);
    } else if step.JournalCumulative? {
      JournalCumulativeKeepsPoll(s, step.c, q);
    } else {
      CollectorKeepsPoll(s, step, q);
    }
  }

  lemma BaseKept(s: System, step: Step)
    requires Context(s, step)
    ensures var t := Apply(s, step); BaseOk(t.ledger, t.core, t.log)
  {
    if step.Retry? {
      RetryKeepsBase(s, step);
    } else if Actor(step).None? {
      EnvironmentKeepsBase(s, step);
    } else if IsJournal(step) {
      JournalKeepsBase(s, step);
    } else {
      CollectorKeepsBase(s, step);
    }
  }

  lemma CounterKept(s: System, step: Step)
    requires Context(s, step) && s.log.net == [s.core.counter] && !Apply(s, step).log.faulty
    ensures Apply(s, step).log.net == [Apply(s, step).core.counter]
  {}

  lemma FaultlessKept(s: System, step: Step)
    requires Inv(s) && Context(s, step)
    ensures Faultless(Apply(s, step))
  {
    var t := Apply(s, step);
    if !t.log.faulty {
      assert !s.log.faulty;
      CounterKept(s, step);
      forall q: nat ensures Found(t.ledger, t.collectors, t.log, q) {
        if Actor(step).None? {
          EnvironmentKeepsFound(s, step, q);
        } else {
          CollectorKeepsFound(s, step, q);
        }
      }
    }
  }

  lemma StepKeeps(s: System, step: Step)
    requires Inv(s)
    ensures Inv(Apply(s, step))
  {
    if Enabled(s, step) {
      assert Context(s, step);
      var t := Apply(s, step);
      forall d | d in t.collectors ensures CollectorOk(t, d) { CollectorKept(s, step, d); }
      forall q | q in t.ledger.polls ensures PollOk(t.ledger, t.log, q) { PollKept(s, step, q); }
      forall q | q in t.log.sent ensures SentOk(t.ledger, q) { SentKept(s, step, q); }
      BaseKept(s, step);
      FlowedKept(s, step);
      BilledKept(s, step);
      FaultlessKept(s, step);
    }
  }

  lemma NothingFlowedYet(core: Core, g: Log)
    requires |g.net| == |g.delivered| == 1 && g.net[0] == g.delivered[0] == core.flowed == ZERO
    ensures Flowed(core, g)
  {
    assert Sum(g.net, 0) == Sum(g.delivered, 0) == ZERO;
  }

  lemma NothingBilledYet(l: Ledger, g: Log)
    requires l.polls.Keys == l.cursors.Keys == {} && |g.net| == |g.delivered| == 1 && l.billed == ZERO
    ensures Billed(l, g)
  {
    assert Cleared(l.polls, 0) == Credited(l.cursors, 0) == ZERO;
  }

  lemma InitOk(s: System)
    requires s.collectors.Keys == s.ledger.polls.Keys == s.ledger.cursors.Keys == s.log.owner.Keys == s.log.sent == {}
    requires s.ledger.nextSequence == s.ledger.lastSequence == s.log.newestRead == s.core.epoch == 0
    requires |s.log.net| == |s.log.delivered| == 1 && s.log.net[0] == s.log.delivered[0] == s.core.flowed == ZERO
    requires s.core.counter == s.ledger.billed == ZERO && !s.log.cumulativeRead && !s.log.lateHandover
    ensures Inv(s)
  {
    NothingFlowedYet(s.core, s.log);
    NothingBilledYet(s.ledger, s.log);
  }

  lemma {:induction false} Always(steps: seq<Step>)
    ensures Inv(Exec(steps))
  {
    if steps == [] {
      InitOk(Exec(steps));
    } else {
      Always(steps[..|steps| - 1]);
      StepKeeps(Exec(steps[..|steps| - 1]), steps[|steps| - 1]);
    }
  }

  /** Past the lease and still able to get an answer from the node. */
  predicate Live(s: System, c: nat) { At(s, c) && !PhaseOf(s, c).Waiting? && InTime(s, c) }

  /** The lease outlives every network deadline, so the node is never asked by two collectors at once. */
  lemma OneCollectorReachesTheNode(steps: seq<Step>, c: nat, d: nat)
    requires Live(Exec(steps), c) && Live(Exec(steps), d)
    ensures c == d
  {
    Always(steps);
    assert CollectorOk(Exec(steps), c) && CollectorOk(Exec(steps), d);
  }

  lemma BillBelowFlow(l: Ledger, core: Core, g: Log)
    requires BaseOk(l, core, g) && forall q :: q in l.polls ==> PollOk(l, g, q)
    ensures Cleared(l.polls, |g.delivered|).AtMost(Total(g.delivered))
    ensures Credited(l.cursors, |g.net|).AtMost(Total(g.net))
  {
    forall q: nat | q < |g.delivered| ensures ClearedAt(l.polls, q).AtMost(g.delivered[q]) {
      if q in l.polls {
        assert PollOk(l, g, q);
      }
    }
    ClearedBelow(l.polls, g.delivered, |g.delivered|);
    CreditedBelow(l.cursors, g.net, |g.net|);
  }

  /** No run bills more than flowed: not with restarts, lost or late responses, retries or stray resets. */
  lemma NeverOverbilled(steps: seq<Step>)
    ensures Exec(steps).ledger.billed.AtMost(Exec(steps).core.flowed)
  {
    Always(steps);
    BillBelowFlow(Exec(steps).ledger, Exec(steps).core, Exec(steps).log);
  }

  /**
   A reset read is only ever sent under a persisted intent and before any cumulative read; and
   the stored mode is then still reset exactly if no handover was journalled late.
   */
  lemma ResetReadsAreGuarded(steps: seq<Step>, c: nat)
    requires Enabled(Exec(steps), QueryReset(c))
    ensures PhaseOf(Exec(steps), c).seqNo in Exec(steps).ledger.uncertain
    ensures !Exec(steps).log.cumulativeRead
    ensures Exec(steps).ledger.mode.Reset? <==> !Exec(steps).log.lateHandover
  {
    Always(steps);
    assert CollectorOk(Exec(steps), c);
  }

  /** Every answered reset read whose response is not journalled keeps its marker; the others lost it. */
  lemma LostResponsesStayVisible(steps: seq<Step>, q: nat)
    requires q in Exec(steps).log.sent
    ensures q in Exec(steps).ledger.uncertain <==> q !in Exec(steps).ledger.polls
  {
    Always(steps);
    assert SentOk(Exec(steps).ledger, q);
  }

  /** Cumulative mode is one-way: no later setting, retry or late response brings reset mode back. */
  lemma {:induction false} CumulativeIsForever(steps: seq<Step>, more: seq<Step>)
    requires Exec(steps).ledger.mode.Cumulative?
    ensures Exec(steps + more).ledger.mode.Cumulative?
    decreases |more|
  {
    if more == [] {
      assert steps + more == steps;
    } else {
      var front := more[..|more| - 1];
      CumulativeIsForever(steps, front);
      assert (steps + more)[..|steps + more| - 1] == steps + front;
    }
  }

  /** The traffic the current process has counted beyond what was billed from it. */
  function Unread(s: System): Usage { s.core.counter.Minus(CursorAt(s.ledger.cursors, s.core.epoch)) }

  ghost predicate Settled(s: System) {
    && (forall c :: c in s.collectors ==> !HoldsReset(PhaseOf(s, c)))
    && (forall q :: q in s.ledger.polls && s.ledger.polls[q].mode.Reset? ==> s.ledger.polls[q].observed)
  }

  lemma AllCleared(s: System)
    requires Settled(s) && forall q: nat :: Found(s.ledger, s.collectors, s.log, q)
    requires forall q :: q in s.ledger.polls ==> PollOk(s.ledger, s.log, q)
    ensures Cleared(s.ledger.polls, |s.log.delivered|) == Total(s.log.delivered)
  {
    forall q: nat | q < |s.log.delivered| ensures ClearedAt(s.ledger.polls, q) == s.log.delivered[q] {
      assert Found(s.ledger, s.collectors, s.log, q);
      if q in s.ledger.polls {
        assert PollOk(s.ledger, s.log, q);
      }
    }
    ClearedAll(s.ledger.polls, s.log.delivered, |s.log.delivered|);
  }

  lemma BooksBalance(l: Ledger, core: Core, g: Log)
    requires Flowed(core, g) && Billed(l, g) && Cleared(l.polls, |g.delivered|) == Total(g.delivered)
    requires |g.net| == 1 && g.net[0] == core.counter && CursorAt(l.cursors, 0).AtMost(core.counter)
    ensures core.flowed == l.billed.Plus(core.counter.Minus(CursorAt(l.cursors, 0)))
  {
    assert Sum(g.net, 0) == Credited(l.cursors, 0) == ZERO;
  }

  /** Without a fault, and with every reset response billed, the bill plus the unread counter is all there was. */
  lemma FaultFreeRunsAreExact(steps: seq<Step>)
    requires !Exec(steps).log.faulty && Settled(Exec(steps))
    ensures var s := Exec(steps); s.core.flowed == s.ledger.billed.Plus(Unread(s))
  {
    Always(steps);
    AllCleared(Exec(steps));
    BooksBalance(Exec(steps).ledger, Exec(steps).core, Exec(steps).log);
  }

  // ---------------------------------------------------------------- the late handover is real

  ghost predicate Reachable(s: System) { exists steps :: Exec(steps) == s }

  lemma Onward(s: System, step: Step) returns (s': System)
    requires Reachable(s)
    ensures s' == Apply(s, step) && Reachable(s')
  {
    var steps :| Exec(steps) == s;
    assert (steps + [step])[..|steps|] == steps;
    s' := Exec(steps + [step]);
  }

  /** Collector c, holding the lease and still in reset mode, up to its persisted handover intent. */
  lemma HandoverIntent(s0: System, c: nat) returns (s: System)
    requires Reachable(s0) && Enabled(s0, Acquire(c)) && s0.ledger.mode.Reset? && InTime(s0, c)
    ensures Reachable(s) && s.now == s0.now && s.core == s0.core && s.nextOwner == s0.nextOwner
    ensures s.lease == Some(Lease(c, s0.now + LEASE_SECONDS))
    ensures s.ledger.mode.Reset? && s.ledger.lastSequence == s0.ledger.lastSequence
    ensures s.ledger.nextSequence == s0.ledger.nextSequence + 1
    ensures var q := s.ledger.nextSequence;
            s.collectors == s0.collectors[c := s0.collectors[c].(phase := ResetIntended(q, Some(s0.core.epoch), true))]
  {
    s := Onward(s0, Acquire(c));
    s := Onward(s, Decide(c, true));
    s := Onward(s, Probe(c, true));
    assert PhaseOf(s, c) == ResetReady(Some(s0.core.epoch), true);
    s := Onward(s, Number(c));
    s := Onward(s, Intend(c));
  }

  lemma FirstCollector() returns (s: System)
    ensures Reachable(s) && s == INIT.(collectors := map[0 := Collector(30, Waiting)], nextOwner := 1)
  {
    s := Exec([]);
    s := Onward(s, Launch);
  }

  lemma FirstIntent() returns (s: System)
    ensures Reachable(s) && s.now == 0 && s.lease == Some(Lease(0, 60)) && s.ledger.mode.Reset? && s.core == INIT.core
    ensures s.nextOwner == 1 && s.ledger.lastSequence == 0 && s.ledger.nextSequence == 1
    ensures s.collectors == map[0 := Collector(30, ResetIntended(1, Some(0), true))]
  {
    s := FirstCollector();
    s := HandoverIntent(s, 0);
  }

  /** The first collector has its handover response in hand. */
  lemma AnsweredHandover() returns (s: System)
    ensures Reachable(s) && s.now == 0 && s.lease == Some(Lease(0, 60)) && s.ledger.mode.Reset?
    ensures s.nextOwner == 1 && s.ledger.lastSequence == 0 && s.ledger.nextSequence == 1
    ensures s.collectors == map[0 := Collector(30, ResetVerified(1, Some(0), true, ZERO))]
  {
    s := FirstIntent();
    s := Onward(s, QueryReset(0));
    s := Onward(s, VerifyReset(0));
  }

  /** It still has when its lease runs out. */
  lemma StalledHandover() returns (s: System)
    ensures Reachable(s) && s.now == 61 && s.lease == Some(Lease(0, 60)) && s.ledger.mode.Reset?
    ensures s.nextOwner == 1 && s.ledger.lastSequence == 0 && s.ledger.nextSequence == 1
    ensures s.collectors == map[0 := Collector(30, ResetVerified(1, Some(0), true, ZERO))]
  {
    s := AnsweredHandover();
    s := Onward(s, Tick(61));
  }

  /**
   The journal transaction has no deadline: committed after its lease expired, it switches
   the node to cumulative mode under a successor that is about to send its own reset read.
   */
  lemma LateHandoverExposesReset()
    ensures exists s, c :: Reachable(s) && Enabled(s, QueryReset(c)) && s.ledger.mode.Cumulative?
  {
    var s := StalledHandover();
    s := Onward(s, Launch);
    s := HandoverIntent(s, 1);
    s := Onward(s, JournalReset(0));
    assert Enabled(s, QueryReset(1));
  }
}
