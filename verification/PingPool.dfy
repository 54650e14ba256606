/**
 The latency probe's worker pool (internal/api/usernodes.go): one sender, a fixed number
 of workers, an unbuffered channel between them, a request that may be cancelled at any
 moment, and dial slots shared with other requests.

 Every channel operation and every look at the context is one step; the theorems hold for
 every interleaving of the steps.
 */
module PingPool {
  import opened Wrappers


  const MAX_WORKERS: nat := 32

  /** eligible: which entries have a TCP address to dial. slots: the capacity shared by all requests. */
  datatype Job = Job(eligible: seq<bool>, slots: nat)

  datatype Worker =
    | Idle
    | Got(idx: nat)
    | Queued(idx: nat)
    | Holding(idx: nat)
    | Dialing(idx: nat)
    | Exited

  datatype Phase = Looking | Offering | Closed

  /**
   next: the entry the sender has reached. free: slots nobody holds. others: slots held by
   other requests. dialed: every dial begun, in order. answered: the entries marked OK.
   */
  datatype Pool = Pool(
    cancelled: bool, phase: Phase, next: nat, workers: seq<Worker>,
    free: nat, others: nat, dialed: seq<nat>, answered: set<nat>)

  datatype Step =
    | Cancel
    | OtherTakes
    | OtherReturns
    | Look
    | Hand(w: nat)
    | Abandon
    | Hang(w: nat)
    | Check(w: nat)
    | Take(w: nat)
    | Quit(w: nat)
    | Dial(w: nat)
    | Finish(w: nat, ok: bool)

  function Min(a: nat, b: nat): nat { if a < b then a else b }

  function Initial(j: Job, others: nat, cancelled: bool): Pool
    requires others <= j.slots
  {
    Pool(cancelled, Looking, 0, seq(Min(MAX_WORKERS, |j.eligible|), _ => Idle), j.slots - others, others, [], {})
  }

  predicate At(p: Pool, w: nat) { w < |p.workers| }

  predicate Enabled(j: Job, p: Pool, step: Step) {
    match step
    case Cancel => !p.cancelled
    case OtherTakes => p.free > 0
    case OtherReturns => p.others > 0
    case Look => p.phase.Looking?
    case Hand(w) => p.phase.Offering? && At(p, w) && p.workers[w].Idle?
    case Abandon => p.phase.Offering? && p.cancelled
    case Hang(w) => p.phase.Closed? && At(p, w) && p.workers[w].Idle?
    case Check(w) => At(p, w) && p.workers[w].Got?
    case Take(w) => At(p, w) && p.workers[w].Queued? && p.free > 0
    case Quit(w) => At(p, w) && p.workers[w].Queued? && p.cancelled
    case Dial(w) => At(p, w) && p.workers[w].Holding?
    case Finish(w, _) => At(p, w) && p.workers[w].Dialing?
  }

  function Become(p: Pool, w: nat, x: Worker): Pool
    requires At(p, w)
  {
    p.(workers := p.workers[w := x])
  }

  function Next(j: Job, p: Pool, step: Step): Pool
    requires Enabled(j, p, step)
  {
    match step
    case Cancel => p.(cancelled := true)
    case OtherTakes => p.(free := p.free - 1, others := p.others + 1)
    case OtherReturns => p.(free := p.free + 1, others := p.others - 1)
    case Look =>
      if p.next >= |j.eligible| || p.cancelled then p.(phase := Closed)
      else if !j.eligible[p.next] then p.(next := p.next + 1)
      else p.(phase := Offering)
    case Hand(w) => Become(p, w, Got(p.next)).(phase := Looking, next := p.next + 1)
    case Abandon => p.(phase := Closed)
    case Hang(w) => Become(p, w, Exited)
    case Check(w) => Become(p, w, if p.cancelled then Exited else Queued(p.workers[w].idx))
    case Take(w) => Become(p, w, Holding(p.workers[w].idx)).(free := p.free - 1)
    case Quit(w) => Become(p, w, Exited)
    case Dial(w) =>
      if p.cancelled then Become(p, w, Exited).(free := p.free + 1)
      else Become(p, w, Dialing(p.workers[w].idx)).(dialed := p.dialed + [p.workers[w].idx])
    case Finish(w, ok) =>
      Become(p, w, Idle).(free := p.free + 1, answered := if ok then p.answered + {p.workers[w].idx} else p.answered)
  }

  /** A step that cannot be taken is not. */
  function Apply(j: Job, p: Pool, step: Step): Pool { if Enabled(j, p, step) then Next(j, p, step) else p }

  function Exec(j: Job, p: Pool, steps: seq<Step>): Pool {
    if steps == [] then p else Apply(j, Exec(j, p, steps[..|steps| - 1]), steps[|steps| - 1])
  }

  /** The channel is closed and every worker has left: pingNodes returns. */
  predicate Returned(p: Pool) { p.phase.Closed? && forall w :: 0 <= w < |p.workers| ==> p.workers[w].Exited? }

  // ---------------------------------------------------------------- sums over the workers

  function Held(x: Worker): nat { if x.Holding? || x.Dialing? then 1 else 0 }

  function Sum(ws: seq<Worker>, f: Worker -> nat): nat {
    if ws == [] then 0 else Sum(ws[..|ws| - 1], f) + f(ws[|ws| - 1])
  }

  lemma {:induction false} SumUpdate(ws: seq<Worker>, f: Worker -> nat, w: nat, x: Worker)
    requires w < |ws|
    ensures Sum(ws[w := x], f) + f(ws[w]) == Sum(ws, f) + f(x)
  {
    var n := |ws| - 1;
    if w < n {
      SumUpdate(ws[..n], f, w, x);
      assert ws[w := x][..n] == ws[..n][w := x];
    } else {
      assert ws[w := x][..n] == ws[..n];
    }
  }

  lemma {:induction false} SumOfSame(n: nat, x: Worker, f: Worker -> nat)
    ensures Sum(seq(n, _ => x), f) == n * f(x)
  {
    if n > 0 {
      SumOfSame(n - 1, x, f);
      assert seq(n, _ => x)[..n - 1] == seq(n - 1, _ => x);
    }
  }

  lemma {:induction false} SumZero(ws: seq<Worker>, f: Worker -> nat)
    requires forall w :: 0 <= w < |ws| ==> f(ws[w]) == 0
    ensures Sum(ws, f) == 0
  {
    if ws != [] {
      SumZero(ws[..|ws| - 1], f);
    }
  }

  // ---------------------------------------------------------------- what every interleaving keeps

  predicate Busy(x: Worker) { !x.Idle? && !x.Exited? }

  /** The worker has an entry whose dial has not begun. */
  predicate Awaits(x: Worker) { x.Got? || x.Queued? || x.Holding? }

  predicate Taken(j: Job, p: Pool, idx: nat) { idx < p.next && idx < |j.eligible| && j.eligible[idx] }

  predicate WorkerInv(j: Job, p: Pool, x: Worker) {
    && (Busy(x) ==> Taken(j, p, x.idx))
    && (Awaits(x) ==> x.idx !in p.dialed)
    && (x.Dialing? ==> x.idx in p.dialed)
  }

  ghost predicate WorkersInv(j: Job, p: Pool) {
    && (forall w :: 0 <= w < |p.workers| ==> WorkerInv(j, p, p.workers[w]))
    && (forall v, w :: 0 <= v < w < |p.workers| && Busy(p.workers[v]) && Busy(p.workers[w]) ==>
          p.workers[v].idx != p.workers[w].idx)
  }

  ghost predicate DialedInv(j: Job, p: Pool) {
    && (forall i :: 0 <= i < |p.dialed| ==> Taken(j, p, p.dialed[i]))
    && (forall i, k :: 0 <= i < k < |p.dialed| ==> p.dialed[i] != p.dialed[k])
    && (forall idx :: idx in p.answered ==> idx in p.dialed)
  }

  predicate SlotsInv(j: Job, p: Pool) { p.free + p.others + Sum(p.workers, Held) == j.slots }

  predicate Waits(p: Pool, idx: nat) {
    exists w :: 0 <= w < |p.workers| && Awaits(p.workers[w]) && p.workers[w].idx == idx
  }

  /** Without cancellation, nothing is dropped and nobody leaves early. */
  ghost predicate CalmInv(j: Job, p: Pool) {
    !p.cancelled ==>
      && (forall idx: nat :: Taken(j, p, idx) ==> idx in p.dialed || Waits(p, idx))
      && (p.phase.Closed? ==> p.next == |j.eligible|)
      && (forall w :: 0 <= w < |p.workers| && p.workers[w].Exited? ==> p.phase.Closed?)
  }

  predicate SenderInv(j: Job, p: Pool) {
    && p.next <= |j.eligible|
    && (p.phase.Offering? ==> p.next < |j.eligible| && j.eligible[p.next])
    && |p.workers| == Min(MAX_WORKERS, |j.eligible|)
  }

  ghost predicate Inv(j: Job, p: Pool) {
    SenderInv(j, p) && WorkersInv(j, p) && DialedInv(j, p) && SlotsInv(j, p) && CalmInv(j, p)
  }

  /** The worker that takes part in a step. */
  function Mover(step: Step): Option<nat> {
    match step
    case Cancel | OtherTakes | OtherReturns | Look | Abandon => None
    case Hand(w) => Some(w)
    case Hang(w) => Some(w)
    case Check(w) => Some(w)
    case Take(w) => Some(w)
    case Quit(w) => Some(w)
    case Dial(w) => Some(w)
    case Finish(w, _) => Some(w)
  }

  /** A sum over the workers changes by what the mover changes. */
  lemma SumMoves(j: Job, p: Pool, step: Step, f: Worker -> nat)
    requires Enabled(j, p, step)
    ensures Mover(step).None? ==> Next(j, p, step).workers == p.workers
    ensures Mover(step).Some? ==> Mover(step).value < |p.workers| == |Next(j, p, step).workers|
    ensures Mover(step).Some? ==>
              var w := Mover(step).value;
              Sum(Next(j, p, step).workers, f) + f(p.workers[w]) == Sum(p.workers, f) + f(Next(j, p, step).workers[w])
  {
    if Mover(step).Some? {
      var w, p' := Mover(step).value, Next(j, p, step);
      assert p'.workers == p.workers[w := p'.workers[w]];
      SumUpdate(p.workers, f, w, p'.workers[w]);
    }
  }

  lemma SlotsKept(j: Job, p: Pool, step: Step)
    requires SlotsInv(j, p) && Enabled(j, p, step)
    ensures SlotsInv(j, Next(j, p, step))
  {
    SumMoves(j, p, step, Held);
  }

  lemma SenderKept(j: Job, p: Pool, step: Step)
    requires Inv(j, p) && Enabled(j, p, step)
    ensures SenderInv(j, Next(j, p, step))
  {}

  lemma WorkerKept(j: Job, p: Pool, step: Step, w: nat)
    requires Inv(j, p) && Enabled(j, p, step) && w < |p.workers|
    ensures WorkerInv(j, Next(j, p, step), Next(j, p, step).workers[w])
  {
    assert WorkerInv(j, p, p.workers[w]);
  }

  lemma WorkersKept(j: Job, p: Pool, step: Step)
    requires Inv(j, p) && Enabled(j, p, step)
    ensures WorkersInv(j, Next(j, p, step))
  {
    var p' := Next(j, p, step);
    forall w | 0 <= w < |p'.workers|
      ensures WorkerInv(j, p', p'.workers[w])
    {
      WorkerKept(j, p, step, w);
    }
    forall v, w | 0 <= v < w < |p'.workers| && Busy(p'.workers[v]) && Busy(p'.workers[w])
      ensures p'.workers[v].idx != p'.workers[w].idx
    {
      assert WorkerInv(j, p, p.workers[v]) && WorkerInv(j, p, p.workers[w]);
    }
  }

  lemma DialedKept(j: Job, p: Pool, step: Step)
    requires Inv(j, p) && Enabled(j, p, step)
    ensures DialedInv(j, Next(j, p, step))
  {}

  lemma CalmKept(j: Job, p: Pool, step: Step)
    requires Inv(j, p) && Enabled(j, p, step)
    ensures CalmInv(j, Next(j, p, step))
  {
    var p' := Next(j, p, step);
    if !p'.cancelled {
      forall idx: nat | Taken(j, p', idx)
        ensures idx in p'.dialed || Waits(p', idx)
      {
        if !Taken(j, p, idx) {
          assert Awaits(p'.workers[step.w]);
        } else if idx !in p.dialed {
          var w :| 0 <= w < |p.workers| && Awaits(p.workers[w]) && p.workers[w].idx == idx;
          assert idx in p'.dialed || Awaits(p'.workers[w]);
        }
      }
    }
  }

  lemma InvHolds(j: Job, others: nat, cancelled: bool)
    requires others <= j.slots
    ensures Inv(j, Initial(j, others, cancelled))
  {
    SumOfSame(Min(MAX_WORKERS, |j.eligible|), Idle, Held);
  }

  lemma {:induction false} Always(j: Job, others: nat, cancelled: bool, steps: seq<Step>)
    requires others <= j.slots
    ensures Inv(j, Exec(j, Initial(j, others, cancelled), steps))
  {
    if steps == [] {
      InvHolds(j, others, cancelled);
    } else {
      Always(j, others, cancelled, steps[..|steps| - 1]);
      var p, step := Exec(j, Initial(j, others, cancelled), steps[..|steps| - 1]), steps[|steps| - 1];
      if Enabled(j, p, step) {
        SlotsKept(j, p, step);
        SenderKept(j, p, step);
        WorkersKept(j, p, step);
        DialedKept(j, p, step);
        CalmKept(j, p, step);
      }
    }
  }

  // ---------------------------------------------------------------- theorems

  /** Only eligible entries are dialed, each at most once, and only a dialed entry is marked OK. */
  lemma DialedAtMostOnce(j: Job, others: nat, cancelled: bool, steps: seq<Step>)
    requires others <= j.slots
    ensures var p := Exec(j, Initial(j, others, cancelled), steps);
            && (forall i :: 0 <= i < |p.dialed| ==> p.dialed[i] < |j.eligible| && j.eligible[p.dialed[i]])
            && (forall i, k :: 0 <= i < k < |p.dialed| ==> p.dialed[i] != p.dialed[k])
            && (forall idx :: idx in p.answered ==> idx in p.dialed)
  {
    Always(j, others, cancelled, steps);
  }

  /** If the request was not cancelled when the pool returned, every eligible entry was dialed. */
  lemma CompleteUnlessCancelled(j: Job, others: nat, cancelled: bool, steps: seq<Step>, idx: nat)
    requires others <= j.slots
    requires var p := Exec(j, Initial(j, others, cancelled), steps); Returned(p) && !p.cancelled
    requires idx < |j.eligible| && j.eligible[idx]
    ensures idx in Exec(j, Initial(j, others, cancelled), steps).dialed
  {
    Always(j, others, cancelled, steps);
    var p := Exec(j, Initial(j, others, cancelled), steps);
    assert Taken(j, p, idx);
  }

  /** On every path the pool gives back each slot it took; meanwhile no slot is lost or made up. */
  lemma SlotsReturned(j: Job, others: nat, cancelled: bool, steps: seq<Step>)
    requires others <= j.slots
    ensures var p := Exec(j, Initial(j, others, cancelled), steps);
            && p.free + p.others + Sum(p.workers, Held) == j.slots
            && (Returned(p) ==> p.free + p.others == j.slots)
  {
    Always(j, others, cancelled, steps);
    var p := Exec(j, Initial(j, others, cancelled), steps);
    if Returned(p) {
      SumZero(p.workers, Held);
    }
  }

  predicate Own(step: Step) { !step.Cancel? && !step.OtherTakes? && !step.OtherReturns? }

  /** The pool waits for slots only, and only for those of other requests. */
  predicate StarvedByOthers(j: Job, p: Pool) { p.free == 0 && p.others == j.slots && !p.cancelled }

  /** No interleaving wedges the pool, whoever has quit: until it returns, a step of its own is possible. */
  lemma NeverStuck(j: Job, others: nat, cancelled: bool, steps: seq<Step>) returns (step: Step)
    requires others <= j.slots
    requires var p := Exec(j, Initial(j, others, cancelled), steps); !Returned(p) && !StarvedByOthers(j, p)
    ensures Own(step) && Enabled(j, Exec(j, Initial(j, others, cancelled), steps), step)
  {
    Always(j, others, cancelled, steps);
    var p := Exec(j, Initial(j, others, cancelled), steps);
    step := Look;
    if p.phase.Looking? {
      return;
    }
    if w :| 0 <= w < |p.workers| && (p.workers[w].Got? || p.workers[w].Holding? || p.workers[w].Dialing?) {
      var x := p.workers[w];
      return if x.Got? then Check(w) else if x.Holding? then Dial(w) else Finish(w, false);
    }
    SumZero(p.workers, Held);
    if w :| 0 <= w < |p.workers| && p.workers[w].Queued? {
      return if p.cancelled then Quit(w) else Take(w);
    }
    if w :| 0 <= w < |p.workers| && p.workers[w].Idle? {
      return if p.phase.Closed? then Hang(w) else Hand(w);
    }
    if p.phase.Offering? {
      assert |p.workers| > 0 && p.workers[0].Exited?;
      return Abandon;
    }
  }

  // ---------------------------------------------------------------- termination

  function Weight(x: Worker): nat {
    match x
    case Exited => 0
    case Idle => 1
    case Dialing(_) => 2
    case Holding(_) => 3
    case Queued(_) => 4
    case Got(_) => 5
  }

  /** A bound on the steps the pool itself can still take. */
  function Remaining(j: Job, p: Pool): nat
    requires p.next <= |j.eligible|
  {
    Sum(p.workers, Weight) +
    match p.phase
    case Closed => 0
    case Looking => 6 * (|j.eligible| - p.next) + 1
    case Offering => 6 * (|j.eligible| - p.next)
  }

  lemma OwnStepsDescend(j: Job, p: Pool, step: Step)
    requires SenderInv(j, p) && Enabled(j, p, step)
    ensures Next(j, p, step).next <= |j.eligible|
    ensures Own(step) ==> Remaining(j, Next(j, p, step)) < Remaining(j, p)
    ensures !Own(step) ==> Remaining(j, Next(j, p, step)) == Remaining(j, p)
  {
    SumMoves(j, p, step, Weight);
  }

  /** How many steps of a run the pool itself took. */
  function OwnSteps(j: Job, p: Pool, steps: seq<Step>): nat {
    if steps == [] then 0
    else
      var front, step := steps[..|steps| - 1], steps[|steps| - 1];
      OwnSteps(j, p, front) + if Own(step) && Enabled(j, Exec(j, p, front), step) then 1 else 0
  }

  /** Whatever cancels it and whatever other requests do, the pool takes a bounded number of steps. */
  lemma {:induction false} RunsAreBounded(j: Job, others: nat, cancelled: bool, steps: seq<Step>)
    requires others <= j.slots
    ensures Exec(j, Initial(j, others, cancelled), steps).next <= |j.eligible|
    ensures OwnSteps(j, Initial(j, others, cancelled), steps) + Remaining(j, Exec(j, Initial(j, others, cancelled),
        steps))
            <= 6 * |j.eligible| + 1 + MAX_WORKERS
  {
    var p0 := Initial(j, others, cancelled);
    Always(j, others, cancelled, steps);
    if steps == [] {
      SumOfSame(Min(MAX_WORKERS, |j.eligible|), Idle, Weight);
    } else {
      var front, step := steps[..|steps| - 1], steps[|steps| - 1];
      RunsAreBounded(j, others, cancelled, front);
      Always(j, others, cancelled, front);
      if Enabled(j, Exec(j, p0, front), step) {
        OwnStepsDescend(j, Exec(j, p0, front), step);
      }
    }
  }
}
