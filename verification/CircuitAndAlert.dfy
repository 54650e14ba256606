/**
 The restart circuit and the stored alert as one machine. The controller
 (internal/sbctl/controller.go) asks both before a periodic pass and reports what it does
 through a queue; the watcher (internal/api/restartalert.go) empties the queue and stores
 or resolves the alert. Circuit, queue and watcher are lost with the panel process; the
 alert is not.

 A run may lose the panel at any moment, drop messages that do not fit in the queue, fail to
 write the alert and fail to look it up. What is proved: how many restarts a whole run can
 hold, exactly which steps end the latch, and when a trip ends up as a stored alert.
 */
module CircuitAndAlert {
  import opened Collections
  import opened RestartCircuit

  /** tripping: this restart opened the circuit. */
  datatype Message = Opened | Closed | SweepAt(now: int) | RestartAt(now: int, tripping: bool)

  /**
   run: the circuit and the restarts since it last began afresh. before: the restarts before
   that, over all earlier lives of the circuit that saw any, counted by lives. openings: how
   often restarts became possible. seen: what the tracker was told since its last reset, up
   to the time heard. missed: since the panel was started, a message about a restart did not
   fit in the queue.
   */
  datatype World = World(run: Run, queue: seq<Message>, desk: Desk, clock: int,
                         before: seq<int>, lives: nat, openings: nat, seen: seq<int>, heard: int, missed: bool)

  function Start(clock: int): World {
    World(FRESH, [], Desk(Watch([], false), false), clock, [], 0, 1, [], clock, false)
  }

  /**
   told, sampled: the messages fitted in the queue. swept: a sweep slips in between them.
   readable: the alert could be looked up. stored: the watcher's write worked.
   */
  datatype Move =
    | Turn(now: int, restarted: bool, readable: bool, told: bool, swept: bool, sampled: bool)
    | Rebuild(metering: bool, ok: bool, readable: bool, told: bool)
    | Maintain(now: int, told: bool)
    | Handle(stored: bool)
    | Crash

  function TimeOf(clock: int, m: Message): int { if m.SweepAt? || m.RestartAt? then m.now else clock }

  function Seen(seen: seq<int>, m: Message): seq<int> {
    match m case Closed => [] case RestartAt(now, _) => seen + [now] case _ => seen
  }

  function AsNotice(m: Message, stored: bool): Notice {
    match m
    case Opened => Tripped(stored)
    case Closed => Recovered(stored)
    case SweepAt(now) => SweepDue(now)
    case RestartAt(now, _) => Restarted(now, stored)
  }

  /** What a restart puts into the queue, as far as it fits. */
  function Report(queue: seq<Message>, now: int, trips: bool, told: bool, swept: bool, sampled: bool): seq<Message> {
    var first := if trips && told then queue + [Opened] else queue;
    var second := if swept then first + [SweepAt(now)] else first;
    if sampled then second + [RestartAt(now, trips)] else second
  }

  function Turned(p: Policy, w: World, m: Move): World
    requires m.Turn?
  {
    var alertOpen := w.desk.alert && m.readable;
    var w1 := w.(clock := m.now, openings := if w.desk.alert && !m.readable then w.openings + 1 else w.openings);
    if !m.restarted || Blocked(p, w.run.c, alertOpen) then w1
    else
      var trips := Recorded(w.run.c, m.now, p).1;
      w1.(run := Step(p, w.run, Periodic(m.now, alertOpen, true)),
          queue := Report(w.queue, m.now, trips, m.told, m.swept, m.sampled),
          missed := w.missed || (trips && !m.told) || !m.sampled)
  }

  /** The circuit begins afresh. */
  function Afresh(w: World): World {
    w.(run := Run(Circuit([], false), [], w.run.total), before := w.before + w.run.log,
       lives := if w.run.log == [] then w.lives else w.lives + 1,
       openings := if w.desk.alert then w.openings else w.openings + 1)
  }

  function Rebuilt(w: World, m: Move): World
    requires m.Rebuild?
  {
    if m.metering || !m.ok then w
    else
      var wasOpen := w.run.c.open || (w.desk.alert && m.readable);
      Afresh(w).(queue := if wasOpen && m.told then w.queue + [Closed] else w.queue)
  }

  function HandledNext(p: Policy, w: World, stored: bool): World
    requires w.queue != []
  {
    var m := w.queue[0];
    w.(queue := w.queue[1..],
       desk := Handled(w.desk, AsNotice(m, stored), p.enabled, p.window, p.threshold),
       openings := if m.Closed? && stored && w.desk.alert then w.openings + 1 else w.openings,
       seen := Seen(w.seen, m), heard := TimeOf(w.heard, m))
  }

  predicate Enabled(w: World, m: Move) {
    match m
    case Turn(now, _, _, _, _, _) => w.clock <= now
    case Maintain(now, _) => w.clock <= now
    case Handle(_) => w.queue != []
    case _ => true
  }

  /** A step that is not enabled changes nothing. */
  function Next(p: Policy, w: World, m: Move): World {
    if !Enabled(w, m) then w else
    match m
    case Turn(_, _, _, _, _, _) => Turned(p, w, m)
    case Rebuild(_, _, _, _) => Rebuilt(w, m)
    case Maintain(now, told) => w.(clock := now, queue := if told then w.queue + [SweepAt(now)] else w.queue)
    case Handle(stored) => HandledNext(p, w, stored)
    case Crash =>
      Afresh(w).(queue := [], desk := Desk(Watch([], false), w.desk.alert), seen := [], heard := w.clock,
                   missed := false)
  }

  function After(p: Policy, w: World, moves: seq<Move>): World {
    if moves == [] then w else Next(p, After(p, w, moves[..|moves| - 1]), moves[|moves| - 1])
  }

  // ---------------------------------------------------------------- how many restarts a whole run holds

  function All(w: World): seq<int> { w.before + w.run.log }

  /** The life of the circuit under way counts if it saw restarts or may still see some. */
  function Counting(w: World): nat { w.lives + if w.run.log != [] || !w.desk.alert then 1 else 0 }

  ghost predicate Books(p: Policy, before: seq<int>, run: Run, clock: int, lives: nat)
    requires Usable(p)
  {
    var all := before + run.log;
    && Inv(p, run, clock)
    && Sorted(all) && (all != [] ==> all[|all| - 1] <= clock) && |all| == run.total
    && Sparse(before, p.window, lives * p.threshold)
  }

  ghost predicate Bounded(p: Policy, w: World)
    requires Usable(p)
  {
    Books(p, w.before, w.run, w.clock, w.lives) && Counting(w) <= w.openings
  }

  lemma SparseJoin(a: seq<int>, b: seq<int>, window: int, m: int, n: int)
    requires Sorted(a + b) && Sparse(a, window, m) && Sparse(b, window, n) && m >= 0 && n >= 0
    ensures Sparse(a + b, window, m + n)
  {
    var whole := a + b;
    forall i, j | 0 <= i <= j < |whole| && whole[j] - whole[i] <= window
      ensures j - i < m + n
    {
      if j < |a| {
        assert a[j] - a[i] <= window;
      } else if i >= |a| {
        assert b[j - |a|] - b[i - |a|] <= window;
      } else {
        assert whole[i] <= whole[|a| - 1] && whole[|a|] <= whole[j];
        assert a[|a| - 1] - a[i] <= window && b[j - |a|] - b[0] <= window;
      }
    }
  }

  lemma OneMore(n: nat, threshold: int)
    ensures (n + 1) * threshold == n * threshold + threshold
  {}

  lemma NoMore(m: nat, n: nat, threshold: int)
    requires m <= n && threshold > 0
    ensures 0 <= m * threshold <= n * threshold
  {}

  lemma AfreshIsBounded(p: Policy, w: World)
    requires Usable(p) && Bounded(p, w)
    ensures Bounded(p, Afresh(w))
  {
    if w.run.log == [] {
      assert w.before + [] == w.before;
    } else {
      NoMore(0, w.lives, p.threshold);
      SparseJoin(w.before, w.run.log, p.window, w.lives * p.threshold, p.threshold);
      OneMore(w.lives, p.threshold);
    }
    assert (w.before + w.run.log) + [] == All(w);
    FreshInv(p, w.clock, w.run.total);
  }

  lemma FreshInv(p: Policy, clock: int, total: nat)
    requires Usable(p)
    ensures Inv(p, Run(Circuit([], false), [], total), clock)
  {}

  lemma BooksLater(p: Policy, before: seq<int>, run: Run, clock: int, lives: nat, now: int)
    requires Usable(p) && Books(p, before, run, clock, lives) && clock <= now
    ensures Books(p, before, run, now, lives)
  {}

  lemma OneMoreInOrder(before: seq<int>, log: seq<int>, clock: int, now: int)
    requires Sorted(before + log) && clock <= now
    requires before + log != [] ==> (before + log)[|before + log| - 1] <= clock
    ensures before + (log + [now]) == before + log + [now] && Sorted(before + (log + [now]))
  {
    AppendKeepsSorted(before + log, now);
    assert before + (log + [now]) == before + log + [now];
  }

  lemma RestartIsBooked(p: Policy, before: seq<int>, run: Run, clock: int, lives: nat, now: int)
    requires Usable(p) && Books(p, before, run, clock, lives) && clock <= now && !run.c.open
    ensures var r := Step(p, run, Periodic(now, false, true));
            Books(p, before, r, now, lives) && r.log != []
  {
    StepKeeps(p, run, Periodic(now, false, true), clock);
    OneMoreInOrder(before, run.log, clock, now);
    assert Step(p, run, Periodic(now, false, true)).log == run.log + [now];
  }

  lemma TurnIsBounded(p: Policy, w: World, m: Move)
    requires Usable(p) && Bounded(p, w) && m.Turn? && w.clock <= m.now
    ensures Bounded(p, Turned(p, w, m))
  {
    if m.restarted && !Blocked(p, w.run.c, w.desk.alert && m.readable) {
      RestartIsBooked(p, w.before, w.run, w.clock, w.lives, m.now);
    } else {
      BooksLater(p, w.before, w.run, w.clock, w.lives, m.now);
    }
  }

  lemma StepIsBounded(p: Policy, w: World, m: Move)
    requires Usable(p) && Bounded(p, w)
    ensures Bounded(p, Next(p, w, m))
  {
    if Enabled(w, m) {
      match m
      case Turn(_, _, _, _, _, _) => TurnIsBounded(p, w, m);
      case Rebuild(_, _, _, _) => AfreshIsBounded(p, w);
      case Crash => AfreshIsBounded(p, w);
      case _ =>
    }
  }

  lemma {:induction false} StaysBounded(p: Policy, w: World, moves: seq<Move>)
    requires Usable(p) && Bounded(p, w)
    ensures Bounded(p, After(p, w, moves))
  {
    if moves != [] {
      StaysBounded(p, w, moves[..|moves| - 1]);
      StepIsBounded(p, After(p, w, moves[..|moves| - 1]), moves[|moves| - 1]);
    }
  }

  lemma StartIsBounded(p: Policy, clock: int)
    requires Usable(p)
    ensures Bounded(p, Start(clock))
  {}

  lemma AlwaysBounded(p: Policy, clock: int, moves: seq<Move>)
    requires Usable(p)
    ensures Bounded(p, After(p, Start(clock), moves))
  {
    StartIsBounded(p, clock);
    StaysBounded(p, Start(clock), moves);
  }

  lemma SparseMore(log: seq<int>, window: int, m: int, n: int)
    requires Sparse(log, window, m) && m <= n
    ensures Sparse(log, window, n)
  {}

  lemma BoundedIsSparse(p: Policy, w: World)
    requires Usable(p) && Bounded(p, w)
    ensures |All(w)| == w.run.total && Sparse(All(w), p.window, w.openings * p.threshold)
  {
    var t := p.threshold;
    NoMore(0, w.lives, t);
    if w.run.log == [] {
      assert w.before + [] == w.before;
      NoMore(w.lives, w.openings, t);
      SparseMore(All(w), p.window, w.lives * t, w.openings * t);
    } else {
      SparseJoin(w.before, w.run.log, p.window, w.lives * t, t);
      OneMore(w.lives, t);
      NoMore(w.lives + 1, w.openings, t);
      SparseMore(All(w), p.window, w.lives * t + t, w.openings * t);
    }
  }

  /** v is w as if the history began with the life of the circuit under way in some earlier state. */
  predicate Rebased(w: World, v: World, before: seq<int>, openings: int) {
    && w.openings == openings + v.openings
    && w == v.(before := before + v.before, lives := w.lives, openings := w.openings,
               run := v.run.(total := w.run.total))
  }

  lemma NextRebased(p: Policy, w: World, v: World, m: Move, before: seq<int>, openings: int)
    requires Rebased(w, v, before, openings)
    ensures Rebased(Next(p, w, m), Next(p, v, m), before, openings)
  {
    assert (before + v.before) + v.run.log == before + (v.before + v.run.log);
  }

  lemma {:induction false} AfterRebased(p: Policy, w: World, v: World, moves: seq<Move>, before: seq<int>,
                                        openings: int)
    requires Rebased(w, v, before, openings)
    ensures Rebased(After(p, w, moves), After(p, v, moves), before, openings)
  {
    if moves != [] {
      var n := |moves| - 1;
      AfterRebased(p, w, v, moves[..n], before, openings);
      NextRebased(p, After(p, w, moves[..n]), After(p, v, moves[..n]), moves[n], before, openings);
    }
  }

  lemma TotalIsFree(p: Policy, run: Run, total: nat, clock: int)
    requires Usable(p) && Inv(p, run, clock)
    ensures Inv(p, Run(run.c, run.log, total), clock)
  {}

  lemma EmptyIsSparse(log: seq<int>, window: int, n: int)
    requires log == []
    ensures Sparse(log, window, n)
  {}

  lemma OneLifeBooks(p: Policy, run: Run, clock: int, lives: nat)
    requires Usable(p) && Inv(p, run, clock) && lives == 0
    ensures Books(p, [], Run(run.c, run.log, |run.log|), clock, lives)
  {
    assert [] + run.log == run.log;
    TotalIsFree(p, run, |run.log|, clock);
    EmptyIsSparse([], p.window, lives * p.threshold);
  }

  lemma RebaseIsBounded(p: Policy, w: World) returns (v: World)
    requires Usable(p) && Bounded(p, w)
    ensures Bounded(p, v) && v.openings == 1 && v.before == [] && Rebased(w, v, w.before, w.openings - 1)
  {
    v := w.(before := [], lives := 0, openings := 1, run := Run(w.run.c, w.run.log, |w.run.log|));
    OneLifeBooks(p, w.run, w.clock, v.lives);
    assert w.before + [] == w.before;
  }

  lemma {:induction false} RunsJoin(p: Policy, w: World, a: seq<Move>, b: seq<Move>)
    ensures After(p, w, a + b) == After(p, After(p, w, a), b)
  {
    if b == [] {
      assert a + b == a;
    } else {
      assert (a + b)[..|a + b| - 1] == a + b[..|b| - 1];
      RunsJoin(p, w, a, b[..|b| - 1]);
    }
  }

  /** Sparse from one place on. */
  ghost predicate SparseFrom(all: seq<int>, from: nat, window: int, n: int) {
    forall i, j :: from <= i <= j < |all| && all[j] - all[i] <= window ==> j - i < n
  }

  lemma SparseEnd(front: seq<int>, tail: seq<int>, window: int, n: int)
    requires Sparse(tail, window, n)
    ensures SparseFrom(front + tail, |front|, window, n)
  {
    var all := front + tail;
    forall i, j | |front| <= i <= j < |all| && all[j] - all[i] <= window
      ensures j - i < n
    {
      assert tail[j - |front|] - tail[i - |front|] <= window;
    }
  }

  lemma RebasedIsSparse(p: Policy, w: World, v: World, before: seq<int>, openings: int)
    requires Usable(p) && Bounded(p, v) && Rebased(w, v, before, openings)
    ensures SparseFrom(All(w), |before|, p.window, (w.openings - openings) * p.threshold)
  {
    BoundedIsSparse(p, v);
    SparseEnd(before, All(v), p.window, v.openings * p.threshold);
    assert All(w) == before + All(v);
  }

  lemma SinceIsBounded(p: Policy, w: World, more: seq<Move>)
    requires Usable(p) && Bounded(p, w)
    ensures var w' := After(p, w, more);
            SparseFrom(All(w'), |w.before|, p.window, (w'.openings - (w.openings - 1)) * p.threshold)
  {
    var v := RebaseIsBounded(p, w);
    StaysBounded(p, v, more);
    AfterRebased(p, w, v, more, w.before, w.openings - 1);
    RebasedIsSparse(p, After(p, w, more), After(p, v, more), w.before, w.openings - 1);
  }

  lemma {:induction false} OpeningsGrow(p: Policy, w: World, moves: seq<Move>)
    ensures w.openings <= After(p, w, moves).openings
  {
    if moves != [] {
      OpeningsGrow(p, w, moves[..|moves| - 1]);
    }
  }

  /**
   However long the run, and losses of the panel included: a window whose first restart came
   after the first n moves holds at most threshold restarts, and threshold more for each time
   since then that restarts became possible. That is at each fresh start of the circuit that
   no stored alert covers, at each stored recovery, and at each pass that could not look up a
   stored alert.
   */
  lemma WindowsAreBounded(c: Configured, clock: int, moves: seq<Move>, n: nat, i: nat, j: nat)
    requires Usable(CurrentPolicy(c)) && n <= |moves|
    requires |All(After(CurrentPolicy(c), Start(clock), moves[..n]))| <= i <= j
    requires var all := All(After(CurrentPolicy(c), Start(clock), moves));
             j < |all| && all[j] - all[i] <= CurrentPolicy(c).window
    ensures var p := CurrentPolicy(c);
            var since := After(p, Start(clock), moves).openings - After(p, Start(clock), moves[..n]).openings;
            since >= 0 && j - i + 1 <= (1 + since) * p.threshold
  {
    var p := CurrentPolicy(c);
    AlwaysBounded(p, clock, moves[..n]);
    RunsJoin(p, Start(clock), moves[..n], moves[n..]);
    assert moves[..n] + moves[n..] == moves;
    WindowSince(p, After(p, Start(clock), moves[..n]), moves[n..], i, j);
  }

  /** No restart of the run is left out of the count. */
  lemma EveryRestartCounts(p: Policy, clock: int, moves: seq<Move>)
    requires Usable(p)
    ensures |All(After(p, Start(clock), moves))| == After(p, Start(clock), moves).run.total
  {
    AlwaysBounded(p, clock, moves);
  }

  lemma WindowSince(p: Policy, w: World, more: seq<Move>, i: nat, j: nat)
    requires Usable(p) && Bounded(p, w) && |w.before| <= i <= j < |All(After(p, w, more))|
    requires All(After(p, w, more))[j] - All(After(p, w, more))[i] <= p.window
    ensures var since := After(p, w, more).openings - w.openings; since >= 0 && j - i + 1 <= (1 + since) * p.threshold
  {
    SinceIsBounded(p, w, more);
    OpeningsGrow(p, w, more);
    var w' := After(p, w, more);
    InSparseWindow(All(w'), |w.before|, p.window, i, j, w'.openings - w.openings, p.threshold);
  }

  lemma InSparseWindow(all: seq<int>, from: nat, window: int, i: nat, j: nat, since: int, threshold: int)
    requires SparseFrom(all, from, window, (since + 1) * threshold)
    requires from <= i <= j < |all| && all[j] - all[i] <= window
    ensures j - i + 1 <= (1 + since) * threshold
  {}

  // ---------------------------------------------------------------- the latch

  predicate Latched(w: World) { w.run.c.open || w.desk.alert }

  /** The circuit begins afresh with no alert stored, or a recovery is stored while it is closed. */
  predicate Unlatches(w: World, m: Move) {
    || ((m.Crash? || (m.Rebuild? && !m.metering && m.ok)) && !w.desk.alert)
    || (m.Handle? && m.stored && w.queue != [] && w.queue[0].Closed? && !w.run.c.open)
  }

  /** The stored alert is all that stops this pass, and cannot be looked up. */
  predicate Blind(w: World, m: Move) { m.Turn? && !w.run.c.open && !m.readable }

  /** For every step, exactly when it ends the latch; and while latched, only a blind pass restarts. */
  lemma StepKeepsLatchIff(p: Policy, w: World, m: Move)
    requires p.enabled && Latched(w)
    ensures Latched(Next(p, w, m)) <==> !Unlatches(w, m)
    ensures !Blind(w, m) ==> Next(p, w, m).run.total == w.run.total
  {}

  ghost predicate StaysLatched(p: Policy, w: World, moves: seq<Move>, n: nat)
    requires n <= |moves|
  {
    forall k :: 0 <= k < n ==>
      !Unlatches(After(p, w, moves[..k]), moves[k]) && !Blind(After(p, w, moves[..k]), moves[k])
  }

  /** From a trip on, no periodic restart follows until something ends the latch. */
  lemma {:induction false} LatchStopsRestarts(p: Policy, w: World, moves: seq<Move>, n: nat)
    requires p.enabled && Latched(w) && n <= |moves| && StaysLatched(p, w, moves, n)
    ensures Latched(After(p, w, moves[..n])) && After(p, w, moves[..n]).run.total == w.run.total
  {
    if n > 0 {
      LatchStopsRestarts(p, w, moves, n - 1);
      StepKeepsLatchIff(p, After(p, w, moves[..n - 1]), moves[n - 1]);
      assert moves[..n][..n - 1] == moves[..n - 1];
    }
  }

  // ---------------------------------------------------------------- from the trip to the stored alert

  /** What the tracker will have been told once the queue is empty. */
  function Heard(seen: seq<int>, queue: seq<Message>): seq<int> {
    if queue == [] then seen else Seen(Heard(seen, queue[..|queue| - 1]), queue[|queue| - 1])
  }

  /** The tracker's count will have reached the threshold when it is told of a restart that tripped the circuit. */
  predicate Reaches(p: Policy, seen: seq<int>, m: Message) {
    m.RestartAt? && m.tripping ==> |Since(seen + [m.now], m.now - p.window)| >= p.threshold
  }

  ghost predicate AllReach(p: Policy, seen: seq<int>, queue: seq<Message>) {
    forall k :: 0 <= k < |queue| ==> Reaches(p, Heard(seen, queue[..k]), queue[k])
  }

  /** The times of the messages, and of the last one handled, are in order. */
  ghost predicate InTime(heard: int, queue: seq<Message>, clock: int) {
    && heard <= clock
    && (forall k :: 0 <= k < |queue| ==> heard <= TimeOf(heard, queue[k]) <= TimeOf(clock, queue[k]) <= clock)
    && (forall j, k :: 0 <= j < k < |queue| ==> TimeOf(heard, queue[j]) <= TimeOf(clock, queue[k]))
  }

  ghost predicate EndsWith(whole: seq<int>, tail: seq<int>) {
    |tail| <= |whole| && whole[|whole| - |tail|..] == tail
  }

  ghost predicate Watched(p: Policy, d: Desk, seen: seq<int>, heard: int) {
    Stands(d.w.hist, seen, heard, p.window, HISTORY_MAX) && (d.w.alerted ==> d.alert)
  }

  ghost predicate Matches(p: Policy, seen: seq<int>, queue: seq<Message>, log: seq<int>) {
    EndsWith(Heard(seen, queue), log) && AllReach(p, seen, queue)
  }

  ghost predicate Told(p: Policy, w: World) {
    && InTime(w.heard, w.queue, w.clock) && Watched(p, w.desk, w.seen, w.heard)
    && (!w.missed ==> Matches(p, w.seen, w.queue, w.run.log))
  }

  lemma HeardOneMore(seen: seq<int>, queue: seq<Message>, m: Message)
    ensures Heard(seen, queue + [m]) == Seen(Heard(seen, queue), m)
  {
    assert (queue + [m])[..|queue|] == queue;
  }

  lemma {:induction false} HeardFirst(seen: seq<int>, queue: seq<Message>)
    requires queue != []
    ensures Heard(Seen(seen, queue[0]), queue[1..]) == Heard(seen, queue)
  {
    var n := |queue| - 1;
    if n == 0 {
      assert queue[..0] == [] && queue[1..] == [];
      assert Heard(seen, queue[..0]) == seen;
    } else {
      HeardFirst(seen, queue[..n]);
      assert queue[..n][1..] == queue[1..][..n - 1];
    }
  }

  lemma ReachOneMore(p: Policy, seen: seq<int>, queue: seq<Message>, m: Message)
    requires AllReach(p, seen, queue) && Reaches(p, Heard(seen, queue), m)
    ensures AllReach(p, seen, queue + [m])
  {
    forall k | 0 <= k < |queue + [m]|
      ensures Reaches(p, Heard(seen, (queue + [m])[..k]), (queue + [m])[k])
    {
      assert (queue + [m])[..k] == queue[..k];
      if k == |queue| {
        assert queue[..k] == queue;
      }
    }
  }

  lemma MatchesOneMore(p: Policy, seen: seq<int>, queue: seq<Message>, log: seq<int>, m: Message, log': seq<int>)
    requires Matches(p, seen, queue, log)
    requires Reaches(p, Heard(seen, queue), m) && EndsWith(Seen(Heard(seen, queue), m), log')
    ensures Matches(p, seen, queue + [m], log')
  {
    HeardOneMore(seen, queue, m);
    ReachOneMore(p, seen, queue, m);
  }

  lemma InTimeOneMore(heard: int, queue: seq<Message>, clock: int, m: Message, now: int)
    requires InTime(heard, queue, clock) && clock <= now && TimeOf(now, m) == now
    ensures InTime(heard, queue + [m], now)
  {}

  lemma ReachFirst(p: Policy, seen: seq<int>, queue: seq<Message>)
    requires queue != [] && AllReach(p, seen, queue)
    ensures Reaches(p, seen, queue[0]) && AllReach(p, Seen(seen, queue[0]), queue[1..])
  {
    assert queue[..0] == [];
    forall k | 0 <= k < |queue[1..]|
      ensures Reaches(p, Heard(Seen(seen, queue[0]), queue[1..][..k]), queue[1..][k])
    {
      HeardFirst(seen, queue[..k + 1]);
      assert queue[..k + 1][1..] == queue[1..][..k];
      assert Reaches(p, Heard(seen, queue[..k + 1]), queue[k + 1]);
    }
  }

  lemma MoreIsSeen(told: seq<int>, log: seq<int>, now: int, cutoff: int)
    requires EndsWith(told, log)
    ensures EndsWith(told + [now], log + [now])
    ensures |Since(told + [now], cutoff)| >= |Since(log + [now], cutoff)|
  {
    var older := told[..|told| - |log|];
    assert told + [now] == older + (log + [now]);
    SinceJoins(older, log + [now], cutoff);
  }

  /** The tracker will have been told of the same restarts by then. */
  lemma TripReaches(p: Policy, log: seq<int>, now: int, told: seq<int>, trips: bool)
    requires EndsWith(told, log) && (trips ==> |Since(log + [now], now - p.window)| >= p.threshold)
    ensures Reaches(p, told, RestartAt(now, trips)) && EndsWith(told + [now], log + [now])
  {
    MoreIsSeen(told, log, now, now - p.window);
  }

  lemma TripCounts(p: Policy, r: Run, clock: int, now: int)
    requires Usable(p) && Inv(p, r, clock) && clock <= now
    ensures Recorded(r.c, now, p).1 ==> |Since(r.log + [now], now - p.window)| >= p.threshold
  {
    AppendKeepsSorted(r.log, now);
    var earlier := if r.log == [] then now - p.window else Horizon(r.log, p.window);
    RecordRefinesLog(r.c, r.log, earlier, now, p);
  }

  lemma ReportMatches(p: Policy, seen: seq<int>, queue: seq<Message>, r: Run, clock: int, now: int, told: bool,
                      swept: bool)
    requires Usable(p) && Inv(p, r, clock) && clock <= now && Matches(p, seen, queue, r.log)
    requires Recorded(r.c, now, p).1 ==> told
    ensures Matches(p, seen, Report(queue, now, Recorded(r.c, now, p).1, told, swept, true), r.log + [now])
  {
    var trips := Recorded(r.c, now, p).1;
    TripCounts(p, r, clock, now);
    TripReaches(p, r.log, now, Heard(seen, queue), trips);
    MatchesOneMore(p, seen, queue, r.log, Opened, r.log);
    HeardOneMore(seen, queue, Opened);
    var first := if trips then queue + [Opened] else queue;
    MatchesOneMore(p, seen, first, r.log, SweepAt(now), r.log);
    HeardOneMore(seen, first, SweepAt(now));
    var second := if swept then first + [SweepAt(now)] else first;
    MatchesOneMore(p, seen, second, r.log, RestartAt(now, trips), r.log + [now]);
  }

  lemma ReportInTime(heard: int, queue: seq<Message>, clock: int, now: int, trips: bool, told: bool, swept: bool,
                     sampled: bool)
    requires InTime(heard, queue, clock) && clock <= now
    ensures InTime(heard, Report(queue, now, trips, told, swept, sampled), now)
  {
    InTimeLater(heard, queue, clock, now);
    InTimeOneMore(heard, queue, clock, Opened, now);
    var first := if trips && told then queue + [Opened] else queue;
    InTimeOneMore(heard, first, now, SweepAt(now), now);
    var second := if swept then first + [SweepAt(now)] else first;
    InTimeOneMore(heard, second, now, RestartAt(now, trips), now);
  }

  lemma InTimeLater(heard: int, queue: seq<Message>, clock: int, now: int)
    requires InTime(heard, queue, clock) && clock <= now
    ensures InTime(heard, queue, now)
  {}

  lemma RestartInTime(p: Policy, w: World, m: Move)
    requires InTime(w.heard, w.queue, w.clock) && m.Turn? && w.clock <= m.now
    ensures InTime(Turned(p, w, m).heard, Turned(p, w, m).queue, Turned(p, w, m).clock)
  {
    InTimeLater(w.heard, w.queue, w.clock, m.now);
    ReportInTime(w.heard, w.queue, w.clock, m.now, Recorded(w.run.c, m.now, p).1, m.told, m.swept, m.sampled);
  }

  lemma RestartMatches(p: Policy, w: World, m: Move)
    requires Usable(p) && Inv(p, w.run, w.clock) && m.Turn? && w.clock <= m.now
    requires Matches(p, w.seen, w.queue, w.run.log) && !Turned(p, w, m).missed
    requires m.restarted && !Blocked(p, w.run.c, w.desk.alert && m.readable)
    ensures Matches(p, w.seen, Turned(p, w, m).queue, Turned(p, w, m).run.log)
  {
    ReportMatches(p, w.seen, w.queue, w.run, w.clock, m.now, m.told, m.swept);
    var w' := Turned(p, w, m);
    assert m.sampled && w'.run.log == w.run.log + [m.now];
    assert w'.queue == Report(w.queue, m.now, Recorded(w.run.c, m.now, p).1, m.told, m.swept, true);
  }

  lemma TurnTells(p: Policy, w: World, m: Move)
    requires Usable(p) && Inv(p, w.run, w.clock) && Told(p, w) && m.Turn? && w.clock <= m.now
    ensures Told(p, Turned(p, w, m))
  {
    RestartInTime(p, w, m);
    if m.restarted && !Blocked(p, w.run.c, w.desk.alert && m.readable) && !Turned(p, w, m).missed {
      RestartMatches(p, w, m);
    }
  }

  lemma FreshMatches(p: Policy, seen: seq<int>, queue: seq<Message>, log: seq<int>)
    requires Matches(p, seen, queue, log)
    ensures Matches(p, seen, queue, []) && Matches(p, seen, queue + [Closed], [])
  {
    MatchesOneMore(p, seen, queue, log, Closed, []);
  }

  lemma RebuildTells(p: Policy, w: World, m: Move)
    requires Told(p, w) && m.Rebuild?
    ensures Told(p, Rebuilt(w, m))
  {
    InTimeOneMore(w.heard, w.queue, w.clock, Closed, w.clock);
    if !w.missed {
      FreshMatches(p, w.seen, w.queue, w.run.log);
    }
  }

  lemma MaintainTells(p: Policy, w: World, now: int, told: bool)
    requires Told(p, w) && w.clock <= now
    ensures Told(p, Next(p, w, Maintain(now, told)))
  {
    InTimeOneMore(w.heard, w.queue, w.clock, SweepAt(now), now);
    InTimeLater(w.heard, w.queue, w.clock, now);
    if !w.missed {
      MatchesOneMore(p, w.seen, w.queue, w.run.log, SweepAt(now), w.run.log);
    }
  }

  lemma SampleIsWatched(p: Policy, d: Desk, seen: seq<int>, heard: int, now: int, stored: bool)
    requires Usable(p) && heard <= now && Watched(p, d, seen, heard)
    ensures Watched(p, Handled(d, Restarted(now, stored), p.enabled, p.window, p.threshold), seen + [now], now)
  {
    SampleStands(d.w.hist, seen, heard, p.window, HISTORY_MAX, now);
    var d' := Handled(d, Restarted(now, stored), p.enabled, p.window, p.threshold);
    assert d'.w.hist == Kept(d.w.hist, now, p.window, HISTORY_MAX);
  }

  lemma SweepIsWatched(p: Policy, d: Desk, seen: seq<int>, heard: int, now: int)
    requires heard <= now && Watched(p, d, seen, heard)
    ensures Watched(p, Desk(Pruned(d.w, now, p.window), d.alert), seen, now)
  {
    if d.w.alerted {
      StandsLater(d.w.hist, seen, heard, p.window, HISTORY_MAX, now);
    } else {
      SweepStands(d.w.hist, seen, heard, p.window, HISTORY_MAX, now);
    }
  }

  lemma ClearIsWatched(p: Policy, alert: bool, clock: int)
    ensures Watched(p, Desk(Watch([], false), alert), [], clock)
  {
    assert Holds([], [], clock - p.window, HISTORY_MAX);
  }

  lemma HandledIsWatched(d: Desk, m: Message, stored: bool, p: Policy, seen: seq<int>, heard: int)
    requires Usable(p) && heard <= TimeOf(heard, m) && Watched(p, d, seen, heard)
    ensures var d' := Handled(d, AsNotice(m, stored), p.enabled, p.window, p.threshold);
            Watched(p, d', Seen(seen, m), TimeOf(heard, m))
  {
    match m
    case Opened =>
    case Closed => ClearIsWatched(p, d.alert && !stored, heard);
    case SweepAt(now) => SweepIsWatched(p, d, seen, heard, now);
    case RestartAt(now, _) => SampleIsWatched(p, d, seen, heard, now, stored);
  }

  lemma InTimeFirst(heard: int, queue: seq<Message>, clock: int)
    requires queue != [] && InTime(heard, queue, clock)
    ensures InTime(TimeOf(heard, queue[0]), queue[1..], clock)
  {}

  lemma MatchesFirst(p: Policy, seen: seq<int>, queue: seq<Message>, log: seq<int>)
    requires queue != [] && Matches(p, seen, queue, log)
    ensures Reaches(p, seen, queue[0]) && Matches(p, Seen(seen, queue[0]), queue[1..], log)
  {
    HeardFirst(seen, queue);
    ReachFirst(p, seen, queue);
  }

  lemma HandleTells(p: Policy, w: World, stored: bool)
    requires Usable(p) && Told(p, w) && w.queue != []
    ensures Told(p, HandledNext(p, w, stored))
  {
    HandledIsWatched(w.desk, w.queue[0], stored, p, w.seen, w.heard);
    InTimeFirst(w.heard, w.queue, w.clock);
    if !w.missed {
      MatchesFirst(p, w.seen, w.queue, w.run.log);
    }
  }

  lemma NothingToldYet(p: Policy, w: World)
    requires w.seen == [] && w.queue == [] && w.run.log == []
    ensures Matches(p, w.seen, w.queue, w.run.log)
  {
    assert Heard(w.seen, w.queue) == [];
  }

  lemma CrashTells(p: Policy, w: World)
    requires Usable(p)
    ensures Told(p, Next(p, w, Crash))
  {
    ClearIsWatched(p, w.desk.alert, w.clock);
    NothingToldYet(p, Next(p, w, Crash));
  }

  lemma StepTells(p: Policy, w: World, m: Move)
    requires Usable(p) && Inv(p, w.run, w.clock) && Told(p, w)
    ensures Told(p, Next(p, w, m))
  {
    if Enabled(w, m) {
      match m
      case Turn(_, _, _, _, _, _) => TurnTells(p, w, m);
      case Rebuild(_, _, _, _) => RebuildTells(p, w, m);
      case Maintain(now, told) => MaintainTells(p, w, now, told);
      case Handle(stored) => HandleTells(p, w, stored);
      case Crash => CrashTells(p, w);
    }
  }

  lemma {:induction false} AlwaysTold(p: Policy, clock: int, moves: seq<Move>)
    requires Usable(p)
    ensures Told(p, After(p, Start(clock), moves))
  {
    if moves == [] {
      ClearIsWatched(p, false, clock);
    } else {
      var front, m := moves[..|moves| - 1], moves[|moves| - 1];
      AlwaysTold(p, clock, front);
      AlwaysBounded(p, clock, front);
      StepTells(p, After(p, Start(clock), front), m);
    }
  }

  /** Behind some sweeps, the restart that tripped the circuit. */
  predicate RestartWaits(queue: seq<Message>) {
    queue != [] && if queue[0].SweepAt? then RestartWaits(queue[1..]) else queue[0].RestartAt? && queue[0].tripping
  }

  /** The watcher is about to handle a trip, and then the restart that caused it. */
  predicate TripWaits(w: World) { w.queue != [] && w.queue[0].Opened? && RestartWaits(w.queue[1..]) }

  /** Sweeps and the restart behind them have been handled. */
  function RestartHandled(p: Policy, w: World, stored: bool): World
    requires RestartWaits(w.queue)
    decreases |w.queue|
  {
    if w.queue[0].SweepAt? then RestartHandled(p, HandledNext(p, w, stored), stored) else HandledNext(p, w, stored)
  }

  /** first, second: the writes at the trip and at the restart work. */
  function BothHandled(p: Policy, w: World, first: bool, second: bool): World
    requires TripWaits(w)
  {
    RestartHandled(p, HandledNext(p, w, first), second)
  }

  /** When the restart behind them happened. */
  function RestartTime(queue: seq<Message>): int
    requires RestartWaits(queue)
  {
    if queue[0].SweepAt? then RestartTime(queue[1..]) else queue[0].now
  }

  /** Told of a restart, the tracker finds that the threshold is reached, and within its cap. */
  predicate TrackerCounts(p: Policy, seen: seq<int>, now: int) {
    p.threshold <= HISTORY_MAX && |Since(seen + [now], now - p.window)| >= p.threshold
  }

  /** Then it fires, unless it has fired before. */
  lemma CountFires(p: Policy, w: Watch, seen: seq<int>, heard: int, now: int)
    requires Usable(p) && heard <= now && Stands(w.hist, seen, heard, p.window, HISTORY_MAX)
    ensures Sampled(w, now, p.window, p.threshold).1 <==> !w.alerted && TrackerCounts(p, seen, now)
  {
    SampleStands(w.hist, seen, heard, p.window, HISTORY_MAX, now);
  }

  lemma FiredIsStored(d: Desk, now: int, stored: bool, window: int, threshold: int, counts: bool)
    requires Sampled(d.w, now, window, threshold).1 <==> !d.w.alerted && counts
    requires d.w.alerted ==> d.alert
    ensures Handled(d, Restarted(now, stored), true, window, threshold).alert <==> d.alert || (stored && counts)
  {}

  lemma TripStored(p: Policy, w: World, stored: bool)
    requires w.queue != [] && w.queue[0].Opened?
    ensures var w' := HandledNext(p, w, stored);
            (w'.desk.alert <==> w.desk.alert || stored) && w'.queue == w.queue[1..] && w'.seen == w.seen
  {}

  lemma RestartStored(p: Policy, w: World, stored: bool)
    requires Usable(p) && w.queue != [] && w.queue[0].RestartAt?
    requires Watched(p, w.desk, w.seen, w.heard) && w.heard <= w.queue[0].now
    ensures HandledNext(p, w, stored).desk.alert <==>
            w.desk.alert || (stored && TrackerCounts(p, w.seen, w.queue[0].now))
  {
    var now := w.queue[0].now;
    var counts := TrackerCounts(p, w.seen, now);
    CountFires(p, w.desk.w, w.seen, w.heard, now);
    FiredIsStored(w.desk, now, stored, p.window, p.threshold, counts);
  }

  lemma SweepIsQuiet(p: Policy, w: World, stored: bool)
    requires w.queue != [] && w.queue[0].SweepAt?
    ensures var w' := HandledNext(p, w, stored);
            w'.queue == w.queue[1..] && w'.desk.alert == w.desk.alert && w'.seen == w.seen
  {}

  lemma {:induction false} SweptRestartStored(p: Policy, w: World, stored: bool)
    requires Usable(p) && Told(p, w) && RestartWaits(w.queue)
    ensures RestartHandled(p, w, stored).desk.alert <==>
            w.desk.alert || (stored && TrackerCounts(p, w.seen, RestartTime(w.queue)))
    decreases |w.queue|
  {
    if w.queue[0].SweepAt? {
      HandleTells(p, w, stored);
      SweepIsQuiet(p, w, stored);
      SweptRestartStored(p, HandledNext(p, w, stored), stored);
    } else {
      RestartStored(p, w, stored);
    }
  }

  /** What the tracker finds when it is told of the restart behind the trip. */
  predicate RestartCounts(p: Policy, w: World)
    requires TripWaits(w)
  {
    TrackerCounts(p, w.seen, RestartTime(w.queue[1..]))
  }

  lemma BothStored(p: Policy, w: World, first: bool, second: bool)
    requires Usable(p) && Told(p, w) && TripWaits(w)
    ensures BothHandled(p, w, first, second).desk.alert <==> w.desk.alert || first || (second && RestartCounts(p, w))
  {
    HandleTells(p, w, first);
    TripStored(p, w, first);
    SweptRestartStored(p, HandledNext(p, w, first), second);
  }

  /**
   Over any run, whatever was missed: once a trip and its restart have been handled, the alert
   is stored exactly if it was before, if the first of the two writes worked, or if the second
   did and the tracker's own count has reached the threshold.
   */
  lemma TripIsStoredIff(p: Policy, clock: int, moves: seq<Move>, first: bool, second: bool)
    requires Usable(p) && TripWaits(After(p, Start(clock), moves))
    ensures var w := After(p, Start(clock), moves);
            BothHandled(p, w, first, second).desk.alert <==> w.desk.alert || first || (second && RestartCounts(p, w))
  {
    AlwaysTold(p, clock, moves);
    BothStored(p, After(p, Start(clock), moves), first, second);
  }

  lemma {:induction false} WaitingReaches(p: Policy, seen: seq<int>, queue: seq<Message>)
    requires AllReach(p, seen, queue) && RestartWaits(queue)
    ensures |Since(seen + [RestartTime(queue)], RestartTime(queue) - p.window)| >= p.threshold
    decreases |queue|
  {
    ReachFirst(p, seen, queue);
    if queue[0].SweepAt? {
      WaitingReaches(p, seen, queue[1..]);
    }
  }

  /** If the panel has missed nothing since it was started, the count has, exactly up to the tracker's cap. */
  lemma NothingMissedCounts(p: Policy, clock: int, moves: seq<Move>)
    requires Usable(p)
    requires var w := After(p, Start(clock), moves); TripWaits(w) && !w.missed
    ensures RestartCounts(p, After(p, Start(clock), moves)) <==> p.threshold <= HISTORY_MAX
  {
    AlwaysTold(p, clock, moves);
    ToldCounts(p, After(p, Start(clock), moves));
  }

  lemma ToldCounts(p: Policy, w: World)
    requires TripWaits(w) && Matches(p, w.seen, w.queue, w.run.log)
    ensures RestartCounts(p, w) <==> p.threshold <= HISTORY_MAX
  {
    ReachFirst(p, w.seen, w.queue);
    WaitingReaches(p, w.seen, w.queue[1..]);
  }

  /** A recovery is stored. */
  predicate Recovers(w: World, m: Move) { m.Handle? && m.stored && w.queue != [] && w.queue[0].Closed? }

  /** No recovery is stored, and no pass is blind. */
  ghost predicate AlertKept(p: Policy, w: World, moves: seq<Move>, n: nat)
    requires n <= |moves|
  {
    forall k :: 0 <= k < n ==>
      !Recovers(After(p, w, moves[..k]), moves[k]) && !Blind(After(p, w, moves[..k]), moves[k])
  }

  lemma AlertStays(p: Policy, w: World, m: Move)
    requires p.enabled && w.desk.alert && !Recovers(w, m) && !Blind(w, m)
    ensures Next(p, w, m).desk.alert && Next(p, w, m).run.total == w.run.total
  {}

  lemma {:induction false} StoredAlertStopsRestarts(p: Policy, w: World, moves: seq<Move>, n: nat)
    requires p.enabled && w.desk.alert && n <= |moves| && AlertKept(p, w, moves, n)
    ensures After(p, w, moves[..n]).desk.alert && After(p, w, moves[..n]).run.total == w.run.total
  {
    if n > 0 {
      StoredAlertStopsRestarts(p, w, moves, n - 1);
      AlertStays(p, After(p, w, moves[..n - 1]), moves[n - 1]);
      assert moves[..n][..n - 1] == moves[..n - 1];
    }
  }

  /**
   After a trip of which one of the two writes was stored, no periodic restart follows until a
   recovery is stored: not after a rebuild, and not after any loss of the panel process.
   */
  lemma StoredTripStopsRestarts(p: Policy, clock: int, moves: seq<Move>, first: bool, second: bool, more: seq<Move>)
    requires Usable(p)
    requires var w := After(p, Start(clock), moves);
             && TripWaits(w) && (first || (second && RestartCounts(p, w)))
             && AlertKept(p, BothHandled(p, w, first, second), more, |more|)
    ensures var w := BothHandled(p, After(p, Start(clock), moves), first, second);
            After(p, w, more).desk.alert && After(p, w, more).run.total == w.run.total
  {
    TripIsStoredIff(p, clock, moves, first, second);
    StoredAlertStopsRestarts(p, BothHandled(p, After(p, Start(clock), moves), first, second), more, |more|);
    assert more[..|more|] == more;
  }
}
