/**
 The asynchronous rebuild scheduler of internal/sbctl/schedule.go.

 `Scheduler` is the object whose fields are guarded by one mutex: each of its methods
 is one critical section, proved against a function on the `Board` value. The second
 half interleaves those critical sections (any number of schedulers, status reports of
 passes in flight, and every drain goroutine ever started) and proves what holds in
 every interleaving.
 */
module Schedule {
  import opened Collections

  // SyncStatus key of a full rebuild; server rows use positive ids, the panel itself 0.
  const ALL_TARGET: int := -1

  datatype SyncState = NeverReported | Pending | Running | Ok | Failed(error: string) {
    predicate Terminal() { Ok? || Failed? }
  }

  datatype SyncStatus = SyncStatus(state: SyncState, revision: nat, requestRevision: nat, startedRevision: nat)

  function Bare(state: SyncState): SyncStatus { SyncStatus(state, 0, 0, 0) }

  // What a lookup of a missing key yields.
  const UNKNOWN := Bare(NeverReported)

  // ---------------------------------------------------------------- the locked state

  datatype Board = Board(running: bool, pendingAll: bool, pendingAllRevision: nat,
                         pendingServers: set<int>, statuses: map<int, SyncStatus>, seqNo: nat)

  const EMPTY_BOARD := Board(false, false, 0, {}, map[], 0)

  function StatusOf(b: Board, id: int): SyncStatus {
    if id in b.statuses then b.statuses[id] else UNKNOWN
  }

  function Put(b: Board, id: int, st: SyncStatus): Board {
    b.(seqNo := b.seqNo + 1, statuses := b.statuses[id := st.(revision := b.seqNo + 1)])
  }

  function Scheduled(b: Board, target: int): Board {
    var ticket := b.seqNo + 1;
    var marked :=
      if target == ALL_TARGET then
        Put(b.(pendingAll := true, pendingAllRevision := ticket), target, SyncStatus(Pending, 0, ticket, 0))
      else
        Put(b.(pendingServers := b.pendingServers + {target}), target, Bare(Pending));
    marked.(running := true)
  }

  predicate NothingPending(b: Board) { !b.pendingAll && b.pendingServers == {} }

  function Taken(b: Board): Board {
    b.(pendingAll := false, pendingAllRevision := 0, pendingServers := {},
       running := if NothingPending(b) then false else b.running)
  }

  function FullStarted(b: Board, request: nat): Board {
    Put(b, ALL_TARGET, SyncStatus(Running, 0, request, b.seqNo + 1))
  }

  function FullFinished(b: Board, request: nat, started: nat, outcome: SyncState): Board {
    Put(b, ALL_TARGET, SyncStatus(outcome, 0, request, started))
  }

  function CopiedIfUntouched(b: Board, id: int, st: SyncStatus, since: nat): Board {
    if StatusOf(b, id).revision != since then b else Put(b, id, st)
  }

  predicate Enumerates(order: seq<int>, ids: set<int>) {
    && (forall x :: x in order ==> x in ids)
    && (forall x :: x in ids ==> x in order)
    && (forall i, j :: 0 <= i < j < |order| ==> order[i] != order[j])
    && |order| == |ids|
  }

  /** The range-and-delete loop over the pending map, whose order is arbitrary. */
  method InSomeOrder(pending: set<int>) returns (servers: seq<int>)
    ensures Enumerates(servers, pending)
  {
    servers := [];
    var left := pending;
    while left != {}
      invariant left <= pending
      invariant Enumerates(servers, pending - left)
      decreases left
    {
      HasId(left);
      var id :| id in left;
      servers := servers + [id];
      left := left - {id};
    }
    assert pending - left == pending;
  }

  /** The mutex-guarded part of the controller; every method is one critical section. */
  class Scheduler {
    var schedRunning: bool
    var pendingAll: bool
    var pendingAllRevision: nat
    var pendingServer: set<int>
    var syncStatus: map<int, SyncStatus>
    var statusSeq: nat

    function View(): Board
      reads this
    {
      Board(schedRunning, pendingAll, pendingAllRevision, pendingServer, syncStatus, statusSeq)
    }

    constructor ()
      ensures View() == EMPTY_BOARD
    {
      schedRunning, pendingAll, pendingAllRevision := false, false, 0;
      pendingServer, syncStatus, statusSeq := {}, map[], 0;
    }

    method PutStatusLocked(id: int, st: SyncStatus)
      modifies this`statusSeq, this`syncStatus
      ensures View() == Put(old(View()), id, st)
    {
      statusSeq := statusSeq + 1;
      syncStatus := syncStatus[id := st.(revision := statusSeq)];
    }

    /** `spawn` tells the caller to start a drain goroutine. */
    method Schedule(target: int) returns (ticket: nat, spawn: bool)
      modifies this
      ensures View() == Scheduled(old(View()), target)
      ensures ticket == old(statusSeq) + 1 && ticket == StatusOf(View(), target).revision
      ensures spawn == !old(schedRunning)
    {
      if target == ALL_TARGET {
        pendingAll := true;
      } else {
        pendingServer := pendingServer + {target};
      }
      ticket := statusSeq + 1;
      var st := Bare(Pending);
      if target == ALL_TARGET {
        pendingAllRevision := ticket;
        st := st.(requestRevision := ticket);
      }
      PutStatusLocked(target, st);
      spawn := !schedRunning;
      schedRunning := true;
    }

    /** The head of the drain loop: empties the queue, in any order, or gives up the role. */
    method TakeBatch() returns (all: bool, request: nat, servers: seq<int>, stop: bool)
      modifies this
      ensures View() == Taken(old(View()))
      ensures all == old(pendingAll) && request == old(pendingAllRevision)
      ensures Enumerates(servers, old(pendingServer))
      ensures stop == NothingPending(old(View()))
    {
      all, request := pendingAll, pendingAllRevision;
      pendingAll, pendingAllRevision := false, 0;
      servers := InSomeOrder(pendingServer);
      pendingServer := {};
      stop := !all && |servers| == 0;
      if stop {
        schedRunning := false;
      }
    }

    method StartTracked(request: nat) returns (started: nat)
      modifies this
      ensures View() == FullStarted(old(View()), request) && started == old(statusSeq) + 1
    {
      started := statusSeq + 1;
      PutStatusLocked(ALL_TARGET, SyncStatus(Running, 0, request, started));
    }

    method FinishTracked(request: nat, started: nat, outcome: SyncState)
      modifies this
      ensures View() == FullFinished(old(View()), request, started, outcome)
    {
      PutStatusLocked(ALL_TARGET, SyncStatus(outcome, 0, request, started));
    }

    method SetStatus(id: int, state: SyncState)
      modifies this
      ensures View() == Put(old(View()), id, Bare(state))
    {
      PutStatusLocked(id, Bare(state));
    }

    method StatusSeqs(ids: seq<int>) returns (out: map<int, nat>)
      ensures out == map id | id in ids :: StatusOf(View(), id).revision
    {
      out := map[];
      for k := 0 to |ids|
        invariant out == map id | id in ids[..k] :: StatusOf(View(), id).revision
      {
        out := out[ids[k] := StatusOf(View(), ids[k]).revision];
      }
    }

    method SetStatusFromIfUntouched(id: int, st: SyncStatus, since: nat)
      modifies this
      ensures View() == CopiedIfUntouched(old(View()), id, st, since)
    {
      if StatusOf(View(), id).revision != since {
        return;
      }
      PutStatusLocked(id, st);
    }
  }

  // ---------------------------------------------------------------- interleavings

  /**
   Where one drain goroutine stands between two of its critical sections. `late`, for the
   proofs only: a full request came between the end of the pass and the reading of its outcome.
   */
  datatype Drain =
    | Exited
    | Top
    | Snapshotting(request: nat, servers: seq<int>, takenAt: nat)
    | Starting(request: nat, servers: seq<int>, before: map<int, nat>, takenAt: nat)
    | RunningAll(request: nat, servers: seq<int>, before: map<int, nat>, started: nat)
    | Reading(servers: seq<int>, before: map<int, nat>, finishedAt: nat)
    | Copying(servers: seq<int>, before: map<int, nat>, aggregate: SyncStatus, late: bool)
    | NextServer(servers: seq<int>, takenAt: nat)
    | RunningServer(id: int, started: nat, servers: seq<int>, takenAt: nat)

  /** A completed pass over one target; `request` is 0 for a single server. */
  datatype Pass = Pass(target: int, request: nat, started: nat, finished: nat)

  /**
   The board, every drain goroutine ever started, and the histories: the tickets handed
   out, the passes completed (all of them, and how many were full), and which statuses were
   rewritten since the last snapshot (`touched`) or last written by a fallback copy that came
   too late for the outcome (`raced`).
   */
  datatype System = System(board: Board, drains: seq<Drain>, issued: map<nat, int>, lastAll: nat,
                           passes: set<Pass>, fullPasses: nat, touched: set<int>, raced: set<int>)

  const INIT := System(EMPTY_BOARD, [], map[], 0, {}, 0, {}, {})

  datatype Step =
    | Request(target: int)
    | Report(id: int, outcome: SyncState)
    | Take(d: nat, order: seq<int>)
    | Snapshot(d: nat)
    | Start(d: nat)
    | Finish(d: nat, outcome: SyncState)
    | Read(d: nat)
    | Copy(d: nat)
    | StartServer(d: nat)
    | FinishServer(d: nat, outcome: SyncState)

  predicate At(s: System, d: nat) { d < |s.drains| }

  predicate Enabled(s: System, step: Step) {
    match step
    case Request(_) => true
    case Report(id, outcome) => id != ALL_TARGET && outcome.Terminal()
    case Take(d, order) => At(s, d) && s.drains[d].Top? && Enumerates(order, s.board.pendingServers)
    case Snapshot(d) => At(s, d) && s.drains[d].Snapshotting?
    case Start(d) => At(s, d) && s.drains[d].Starting?
    case Finish(d, outcome) => At(s, d) && s.drains[d].RunningAll? && outcome.Terminal()
    case Read(d) => At(s, d) && s.drains[d].Reading?
    case Copy(d) => At(s, d) && s.drains[d].Copying?
    case StartServer(d) => At(s, d) && s.drains[d].NextServer?
    case FinishServer(d, outcome) => At(s, d) && s.drains[d].RunningServer? && outcome.Terminal()
  }

  function Written(s: System, board: Board, id: int): System {
    s.(board := board, touched := s.touched + {id}, raced := s.raced - {id})
  }

  function Moved(s: System, d: nat, to: Drain): System
    requires At(s, d)
  {
    s.(drains := s.drains[d := to])
  }

  function ApplyRequest(s: System, target: int): System {
    var ticket := s.board.seqNo + 1;
    var s1 := Written(s, Scheduled(s.board, target), target);
    s1.(issued := s.issued[ticket := target],
        lastAll := if target == ALL_TARGET then ticket else s.lastAll,
        drains := if s.board.running then s.drains else s.drains + [Top])
  }

  function ApplyTake(s: System, d: nat, order: seq<int>): System
    requires At(s, d)
  {
    var b := s.board;
    Moved(s.(board := Taken(b)), d,
          if NothingPending(b) then Exited
          else if b.pendingAll then Snapshotting(b.pendingAllRevision, order, b.seqNo)
          else NextServer(order, b.seqNo))
  }

  function ApplySnapshot(s: System, d: nat): System
    requires At(s, d) && s.drains[d].Snapshotting?
  {
    var c := s.drains[d];
    var before := map id | id in c.servers :: StatusOf(s.board, id).revision;
    Moved(s, d, Starting(c.request, c.servers, before, c.takenAt)).(touched := {})
  }

  function ApplyStart(s: System, d: nat): System
    requires At(s, d) && s.drains[d].Starting?
  {
    var c := s.drains[d];
    Moved(Written(s, FullStarted(s.board, c.request), ALL_TARGET), d,
          RunningAll(c.request, c.servers, c.before, s.board.seqNo + 1))
  }

  function ApplyFinish(s: System, d: nat, outcome: SyncState): System
    requires At(s, d) && s.drains[d].RunningAll?
  {
    var c := s.drains[d];
    var done := s.board.seqNo + 1;
    Moved(Written(s, FullFinished(s.board, c.request, c.started, outcome), ALL_TARGET), d,
          Reading(c.servers, c.before, done)).(passes := s.passes + {Pass(ALL_TARGET, c.request, c.started, done)},
                                                      fullPasses := s.fullPasses + 1)
  }

  function ApplyRead(s: System, d: nat): System
    requires At(s, d) && s.drains[d].Reading?
  {
    var c := s.drains[d];
    Moved(s, d, Copying(c.servers, c.before, StatusOf(s.board, ALL_TARGET), s.board.pendingAllRevision > c.finishedAt))
  }

  function ApplyCopy(s: System, d: nat): System
    requires At(s, d) && s.drains[d].Copying?
  {
    var c := s.drains[d];
    if c.servers == [] then Moved(s, d, Top)
    else
      var id := c.servers[0];
      var since := if id in c.before then c.before[id] else 0;
      var s1 := Moved(s, d, Copying(c.servers[1..], c.before, c.aggregate, c.late));
      if StatusOf(s.board, id).revision != since then s1
      else
        var s2 := Written(s1, CopiedIfUntouched(s.board, id, c.aggregate, since), id);
        if c.late then s2.(raced := s2.raced + {id}) else s2
  }

  function ApplyStartServer(s: System, d: nat): System
    requires At(s, d) && s.drains[d].NextServer?
  {
    var c := s.drains[d];
    if c.servers == [] then Moved(s, d, Top)
    else
      var id := c.servers[0];
      Moved(Written(s, Put(s.board, id, Bare(Running)), id), d,
            RunningServer(id, s.board.seqNo + 1, c.servers[1..], c.takenAt))
  }

  function ApplyFinishServer(s: System, d: nat, outcome: SyncState): System
    requires At(s, d) && s.drains[d].RunningServer?
  {
    var c := s.drains[d];
    Moved(Written(s, Put(s.board, c.id, Bare(outcome)), c.id), d, NextServer(c.servers, c.takenAt))
    .(passes := s.passes + {Pass(c.id, 0, c.started, s.board.seqNo + 1)})
  }

  /** One atomic action; a step that is not enabled changes nothing. */
  function Apply(s: System, step: Step): System {
    if !Enabled(s, step) then s else
    match step
    case Request(target) => ApplyRequest(s, target)
    case Report(id, outcome) => Written(s, Put(s.board, id, Bare(outcome)), id)
    case Take(d, order) => ApplyTake(s, d, order)
    case Snapshot(d) => ApplySnapshot(s, d)
    case Start(d) => ApplyStart(s, d)
    case Finish(d, outcome) => ApplyFinish(s, d, outcome)
    case Read(d) => ApplyRead(s, d)
    case Copy(d) => ApplyCopy(s, d)
    case StartServer(d) => ApplyStartServer(s, d)
    case FinishServer(d, outcome) => ApplyFinishServer(s, d, outcome)
  }

  function Exec(steps: seq<Step>): System {
    if steps == [] then INIT else Apply(Exec(steps[..|steps| - 1]), steps[|steps| - 1])
  }

  // ---------------------------------------------------------------- invariant

  function Current(s: System): Drain {
    if s.drains == [] then Exited else s.drains[|s.drains| - 1]
  }

  ghost predicate SingleDrain(s: System) {
    && (forall k :: 0 <= k < |s.drains| - 1 ==> s.drains[k].Exited?)
    && (s.board.running <==> !Current(s).Exited?)
    && (!s.board.running ==> NothingPending(s.board))
  }

  ghost predicate Numbered(s: System) {
    && (forall id :: id in s.board.statuses ==> 1 <= s.board.statuses[id].revision <= s.board.seqNo)
    && (forall t :: t in s.issued ==> 1 <= t <= s.board.seqNo)
    && (forall t :: t in s.issued && s.issued[t] == ALL_TARGET ==> t <= s.lastAll)
    && (s.lastAll > 0 ==> s.lastAll in s.issued && s.issued[s.lastAll] == ALL_TARGET)
    && s.lastAll <= s.board.seqNo
    && ALL_TARGET !in s.board.pendingServers
    && s.board.pendingAllRevision == (if s.board.pendingAll then s.lastAll else 0)
    && (s.board.pendingAll ==> s.lastAll > 0)
    && (forall p :: p in s.passes ==> p.request < p.started < p.finished <= s.board.seqNo)
  }

  predicate HasQueue(d: Drain) { !d.Exited? && !d.Top? }

  ghost predicate DrainNumbered(d: Drain, seqNo: nat) {
    && (d.Snapshotting? || d.Starting? ==> d.request <= d.takenAt <= seqNo)
    && (d.NextServer? ==> d.takenAt <= seqNo)
    && (d.RunningServer? ==>
          d.takenAt <= d.started <= seqNo && 0 < d.started && d.id !in d.servers && d.id != ALL_TARGET)
    && (d.RunningAll? ==> d.request < d.started <= seqNo)
    && (d.Reading? ==> 0 < d.finishedAt <= seqNo)
    && (HasQueue(d) ==> ALL_TARGET !in d.servers
                        && forall i, j :: 0 <= i < j < |d.servers| ==> d.servers[i] != d.servers[j])
  }

  ghost predicate Serves(p: Pass, ticket: nat, target: int) {
    ticket < p.started && (p.target == ALL_TARGET || p.target == target)
  }

  ghost predicate Served(s: System, ticket: nat, target: int) {
    exists p :: p in s.passes && Serves(p, ticket, target)
  }

  ghost predicate Waiting(s: System, target: int) {
    if target == ALL_TARGET then s.board.pendingAll else target in s.board.pendingServers
  }

  predicate InFlight(d: Drain, ticket: nat, target: int) {
    match d
    case Snapshotting(_, _, takenAt) => ticket <= takenAt
    case Starting(_, _, _, takenAt) => ticket <= takenAt
    case RunningAll(_, _, _, started) => ticket < started
    case NextServer(servers, takenAt) => target in servers && ticket <= takenAt
    case RunningServer(id, started, servers, takenAt) =>
      (target == id && ticket < started) || (target in servers && ticket <= takenAt)
    case _ => false
  }

  ghost predicate NoneLost(s: System) {
    forall t :: t in s.issued ==>
      Waiting(s, s.issued[t]) || InFlight(Current(s), t, s.issued[t]) || Served(s, t, s.issued[t])
  }

  ghost predicate Backed(s: System, st: SyncStatus) {
    Pass(ALL_TARGET, st.requestRevision, st.startedRevision, st.revision) in s.passes
  }

  ghost predicate AllStatus(s: System) {
    var st := StatusOf(s.board, ALL_TARGET);
    var d := Current(s);
    && (st.state.Terminal() ==> Backed(s, st))
    && (d.RunningAll? && !s.board.pendingAll ==> st.state.Running?)
    && (d.Reading? && st.revision == d.finishedAt ==> st.state.Terminal())
    && (d.Reading? && st.revision != d.finishedAt ==>
          st.state.Pending? && s.board.pendingAll && s.lastAll > d.finishedAt)
    && (d.Reading? && st.revision == d.finishedAt ==> s.lastAll < d.finishedAt)
    && (!s.board.pendingAll && s.lastAll > 0 ==>
          match d
          case Snapshotting(request, _, _) => request == s.lastAll
          case Starting(request, _, _, _) => request == s.lastAll
          case RunningAll(request, _, _, started) => request == s.lastAll
          case _ => st.state.Terminal() && st.requestRevision == s.lastAll)
    && (d.Copying? ==> if d.late then d.aggregate.state.Pending? else d.aggregate.state.Terminal())
  }

  predicate Snapshotted(d: Drain) { d.Starting? || d.RunningAll? || d.Reading? || d.Copying? }

  ghost predicate TouchedTracked(s: System) {
    var d := Current(s);
    Snapshotted(d) ==>
      forall id :: id in d.servers ==>
        && id in d.before && d.before[id] <= s.board.seqNo
        && (StatusOf(s.board, id).revision == d.before[id] <==> id !in s.touched)
  }

  /** A server's status is pending only while somebody still owes it an outcome, or after a race. */
  ghost predicate ServerStates(s: System) {
    var d := Current(s);
    forall id :: id in s.board.statuses && id != ALL_TARGET ==>
      match s.board.statuses[id].state
      case NeverReported => false
      case Pending =>
        || id in s.raced || id in s.board.pendingServers
        || (HasQueue(d) && id in d.servers && (Snapshotted(d) ==> id !in s.touched))
      case Running => id !in s.raced && d.RunningServer? && d.id == id
      case _ => id !in s.raced
  }

  ghost predicate CountInv(s: System) {
    SingleDrain(s) && Numbered(s) && DrainNumbered(Current(s), s.board.seqNo)
  }

  ghost predicate StatusInv(s: System) { AllStatus(s) && TouchedTracked(s) && ServerStates(s) }

  ghost predicate Inv(s: System) { CountInv(s) && NoneLost(s) && StatusInv(s) }

  // ---------------------------------------------------------------- one step at a time

  lemma RequestKeepsCounts(s: System, target: int)
    requires CountInv(s)
    ensures CountInv(ApplyRequest(s, target))
  {}

  lemma RequestLosesNone(s: System, target: int)
    requires Inv(s)
    ensures NoneLost(ApplyRequest(s, target))
  {}

  lemma RequestKeepsStatus(s: System, target: int)
    requires Inv(s)
    ensures StatusInv(ApplyRequest(s, target))
  {}

  lemma ReportKeepsCounts(s: System, id: int, outcome: SyncState)
    requires Inv(s) && Enabled(s, Report(id, outcome))
    ensures CountInv(Apply(s, Report(id, outcome)))
  {}

  lemma ReportLosesNone(s: System, id: int, outcome: SyncState)
    requires Inv(s) && Enabled(s, Report(id, outcome))
    ensures NoneLost(Apply(s, Report(id, outcome)))
  {}

  lemma ReportKeepsStatus(s: System, id: int, outcome: SyncState)
    requires Inv(s) && Enabled(s, Report(id, outcome))
    ensures StatusInv(Apply(s, Report(id, outcome)))
  {}

  lemma TakeKeeps(s: System, d: nat, order: seq<int>)
    requires Inv(s) && Enabled(s, Take(d, order))
    ensures Inv(ApplyTake(s, d, order))
  {}

  lemma SnapshotKeeps(s: System, d: nat)
    requires Inv(s) && Enabled(s, Snapshot(d))
    ensures Inv(ApplySnapshot(s, d))
  {}

  lemma StartKeeps(s: System, d: nat)
    requires Inv(s) && Enabled(s, Start(d))
    ensures Inv(ApplyStart(s, d))
  {}

  lemma FinishKeeps(s: System, d: nat, outcome: SyncState)
    requires Inv(s) && Enabled(s, Finish(d, outcome))
    ensures Inv(ApplyFinish(s, d, outcome))
  {}

  lemma ReadKeeps(s: System, d: nat)
    requires Inv(s) && Enabled(s, Read(d))
    ensures Inv(Apply(s, Read(d)))
  {}

  lemma CopyKeepsSingle(s: System, d: nat)
    requires SingleDrain(s) && Enabled(s, Copy(d))
    ensures SingleDrain(ApplyCopy(s, d))
  {}

  lemma CopyKeepsNumbers(s: System, d: nat)
    requires Numbered(s) && Enabled(s, Copy(d)) && ALL_TARGET !in s.drains[d].servers
    ensures Numbered(ApplyCopy(s, d))
  {}

  lemma CopyKeepsDrain(s: System, d: nat)
    requires SingleDrain(s) && DrainNumbered(Current(s), s.board.seqNo) && Enabled(s, Copy(d))
    ensures DrainNumbered(Current(ApplyCopy(s, d)), ApplyCopy(s, d).board.seqNo)
  {}

  lemma CopyLosesNone(s: System, d: nat)
    requires Inv(s) && Enabled(s, Copy(d))
    ensures NoneLost(ApplyCopy(s, d))
  {}

  lemma CopyKeepsAggregate(s: System, d: nat)
    requires Inv(s) && Enabled(s, Copy(d))
    ensures AllStatus(ApplyCopy(s, d))
  {}

  lemma CopyKeepsTouched(s: System, d: nat)
    requires CountInv(s) && TouchedTracked(s) && Enabled(s, Copy(d))
    ensures TouchedTracked(ApplyCopy(s, d))
  {}

  lemma CopyKeepsServers(s: System, d: nat)
    requires Inv(s) && Enabled(s, Copy(d))
    ensures ServerStates(ApplyCopy(s, d))
  {}

  lemma CopyKeeps(s: System, d: nat)
    requires Inv(s) && Enabled(s, Copy(d))
    ensures Inv(ApplyCopy(s, d))
  {
    CopyKeepsSingle(s, d);
    CopyKeepsNumbers(s, d);
    CopyKeepsDrain(s, d);
    CopyLosesNone(s, d);
    CopyKeepsAggregate(s, d);
    CopyKeepsTouched(s, d);
    CopyKeepsServers(s, d);
  }

  lemma StartServerKeepsCounts(s: System, d: nat)
    requires CountInv(s) && Enabled(s, StartServer(d))
    ensures CountInv(ApplyStartServer(s, d))
  {}

  lemma StartServerLosesNone(s: System, d: nat)
    requires Inv(s) && Enabled(s, StartServer(d))
    ensures NoneLost(ApplyStartServer(s, d))
  {}

  lemma StartServerKeepsStatus(s: System, d: nat)
    requires Inv(s) && Enabled(s, StartServer(d))
    ensures StatusInv(ApplyStartServer(s, d))
  {}

  lemma FinishServerKeeps(s: System, d: nat, outcome: SyncState)
    requires Inv(s) && Enabled(s, FinishServer(d, outcome))
    ensures Inv(ApplyFinishServer(s, d, outcome))
  {}

  lemma StepKeeps(s: System, step: Step)
    requires Inv(s)
    ensures Inv(Apply(s, step))
  {
    if Enabled(s, step) {
      match step
      case Request(target) => RequestKeepsCounts(s, target); RequestLosesNone(s, target); RequestKeepsStatus(s, target);
      case Report(id, outcome) =>
        ReportKeepsCounts(s, id, outcome);
        ReportLosesNone(s, id, outcome);
        ReportKeepsStatus(s, id, outcome);
      case Take(d, order) => TakeKeeps(s, d, order);
      case Snapshot(d) => SnapshotKeeps(s, d);
      case Start(d) => StartKeeps(s, d);
      case Finish(d, outcome) => FinishKeeps(s, d, outcome);
      case Read(d) => ReadKeeps(s, d);
      case Copy(d) => CopyKeeps(s, d);
      case StartServer(d) =>
        StartServerKeepsCounts(s, d);
        StartServerLosesNone(s, d);
        StartServerKeepsStatus(s, d);
      case FinishServer(d, outcome) => FinishServerKeeps(s, d, outcome);
    }
  }

  lemma {:induction false} Always(steps: seq<Step>)
    ensures Inv(Exec(steps))
  {
    if steps != [] {
      Always(steps[..|steps| - 1]);
      StepKeeps(Exec(steps[..|steps| - 1]), steps[|steps| - 1]);
    }
  }

  // ---------------------------------------------------------------- theorems over every run

  /** At most one drain goroutine is alive, and queued work keeps exactly one alive. */
  lemma OneDrain(steps: seq<Step>, i: nat, j: nat)
    requires i < j < |Exec(steps).drains|
    ensures Exec(steps).drains[i].Exited?
    ensures !NothingPending(Exec(steps).board) ==> !Current(Exec(steps)).Exited?
  {
    Always(steps);
  }

  predicate Quiescent(s: System) { forall d :: 0 <= d < |s.drains| ==> s.drains[d].Exited? }

  /** Once no drain runs, every request was served by a pass that started after it was made. */
  lemma NoRequestLost(steps: seq<Step>, ticket: nat)
    requires Quiescent(Exec(steps)) && ticket in Exec(steps).issued
    ensures Served(Exec(steps), ticket, Exec(steps).issued[ticket])
  {
    Always(steps);
  }

  /** A ticket is larger than every ticket and every revision handed out before it. */
  lemma TicketsIncrease(steps: seq<Step>, target: int)
    ensures var s, s' := Exec(steps), Exec(steps + [Request(target)]);
            var ticket := StatusOf(s'.board, target).revision;
            && s'.issued == s.issued[ticket := target]
            && (forall t :: t in s.issued ==> t < ticket)
            && (forall id :: StatusOf(s.board, id).revision < ticket)
  {
    assert (steps + [Request(target)])[..|steps|] == steps;
    Always(steps);
  }

  /**
   What a client waiting on a full-rebuild ticket relies on: an outcome whose request
   revision reaches the ticket comes from a completed full pass that began after it.
   */
  lemma OutcomeAnswersTicket(steps: seq<Step>, ticket: nat)
    requires ticket in Exec(steps).issued
    requires var st := StatusOf(Exec(steps).board, ALL_TARGET); st.state.Terminal() && ticket <= st.requestRevision
    ensures var st := StatusOf(Exec(steps).board, ALL_TARGET);
            && Pass(ALL_TARGET, st.requestRevision, st.startedRevision, st.revision) in Exec(steps).passes
            && ticket < st.startedRevision < st.revision
  {
    Always(steps);
  }

  /** At quiescence the full-rebuild status is an outcome that covers the newest full request. */
  lemma QuiescentOutcomeCoversAll(steps: seq<Step>, ticket: nat)
    requires Quiescent(Exec(steps))
    requires ticket in Exec(steps).issued && Exec(steps).issued[ticket] == ALL_TARGET
    ensures var st := StatusOf(Exec(steps).board, ALL_TARGET);
            st.state.Terminal() && ticket <= st.requestRevision && st.requestRevision == Exec(steps).lastAll
  {
    Always(steps);
  }

  lemma CopyDecides(s: System, d: nat)
    requires SingleDrain(s) && TouchedTracked(s) && Enabled(s, Copy(d)) && s.drains[d].servers != []
    ensures var id := s.drains[d].servers[0];
            ApplyCopy(s, d).board == if id in s.touched then s.board else Put(s.board, id, s.drains[d].aggregate)
  {}

  /** The fallback writes a server exactly when nobody reported on it since the snapshot. */
  lemma FallbackSparesReports(steps: seq<Step>, d: nat)
    requires Enabled(Exec(steps), Copy(d)) && Exec(steps).drains[d].servers != []
    ensures var s, s' := Exec(steps), Exec(steps + [Copy(d)]);
            var id := s.drains[d].servers[0];
            && (id in s.touched ==> s'.board == s.board)
            && (id !in s.touched ==> s'.board == Put(s.board, id, s.drains[d].aggregate))
  {
    Always(steps);
    CopyDecides(Exec(steps), d);
    assert (steps + [Copy(d)])[..|steps|] == steps;
  }

  /** The aggregate the fallback copies is an outcome iff no full request came after the pass finished. */
  lemma AggregateIsOutcomeIff(steps: seq<Step>, d: nat)
    requires Enabled(Exec(steps), Read(d))
    ensures var s := Exec(steps);
            StatusOf(s.board, ALL_TARGET).state.Terminal() <==> s.board.pendingAllRevision <= s.drains[d].finishedAt
  {
    Always(steps);
  }

  /**
   At quiescence a server is left pending exactly when its last write was a fallback copy of a
   pass whose outcome was read after a later full request.
   */
  lemma QuiescentServerStates(steps: seq<Step>, id: int)
    requires Quiescent(Exec(steps)) && id != ALL_TARGET && id in Exec(steps).board.statuses
    ensures var s := Exec(steps);
            var state := StatusOf(s.board, id).state;
            (state.Pending? <==> id in s.raced) && (!state.Terminal() ==> state.Pending?)
  {
    Always(steps);
  }

  // ---------------------------------------------------------------- the race is real

  ghost predicate Reachable(s: System) { exists steps :: Exec(steps) == s }

  lemma Onward(s: System, step: Step) returns (s': System)
    requires Reachable(s)
    ensures s' == Apply(s, step) && Reachable(s')
  {
    var steps :| Exec(steps) == s;
    assert (steps + [step])[..|steps|] == steps;
    s' := Exec(steps + [step]);
  }

  lemma TwoRequests() returns (s: System)
    ensures Reachable(s) && s.drains == [Top] && s.board.pendingServers == {5}
    ensures s.board.running && s.board.pendingAll && s.board.pendingAllRevision == 1 && s.board.seqNo == 2
    ensures StatusOf(s.board, 5).revision == 2
  {
    s := Exec([]);
    s := Onward(s, Request(ALL_TARGET));
    s := Onward(s, Request(5));
  }

  /** A full request and one for server 5, taken together. */
  lemma BatchTaken() returns (s: System)
    ensures Reachable(s) && s.drains == [Snapshotting(1, [5], 2)]
    ensures s.board.running && NothingPending(s.board) && s.board.seqNo == 2 && StatusOf(s.board, 5).revision == 2
  {
    s := TwoRequests();
    s := Onward(s, Take(0, [5]));
  }

  /** The full pass over that batch, up to where its outcome is stored but not yet read back. */
  lemma PassOverServerFive() returns (s: System)
    ensures Reachable(s) && s.drains == [Reading([5], map[5 := 2], 4)]
    ensures s.board.running && NothingPending(s.board) && s.board.seqNo == 4 && StatusOf(s.board, 5).revision == 2
  {
    s := BatchTaken();
    s := Onward(s, Snapshot(0));
    assert s.drains[0].before == map[5 := 2];
    s := Onward(s, Start(0));
    s := Onward(s, Finish(0, Ok));
  }

  lemma QuietStart(s0: System) returns (s: System)
    requires Reachable(s0) && s0.drains == [Top] && s0.board.pendingServers == {} && s0.board.pendingAll
    ensures Reachable(s) && |s.drains| == 1 && s.drains[0].RunningAll? && s.drains[0].servers == []
    ensures NothingPending(s.board) && StatusOf(s.board, 5) == StatusOf(s0.board, 5)
  {
    s := Onward(s0, Take(0, []));
    s := Onward(s, Snapshot(0));
    s := Onward(s, Start(0));
  }

  /** A second full pass over an empty queue changes nothing but the full-rebuild status. */
  lemma QuietPass(s0: System) returns (s: System)
    requires Reachable(s0) && s0.drains == [Top] && s0.board.pendingServers == {} && s0.board.pendingAll
    ensures Reachable(s) && Quiescent(s) && StatusOf(s.board, 5) == StatusOf(s0.board, 5)
  {
    s := QuietStart(s0);
    s := Onward(s, Finish(0, Ok));
    s := Onward(s, Read(0));
    s := Onward(s, Copy(0));
    s := Onward(s, Take(0, []));
  }

  /**
   A full request that lands between the finish of a pass and the read of its outcome
   leaves server 5, which the pass never reached, pending with nothing left to run.
   */
  lemma FallbackCanStrand()
    ensures exists s :: Reachable(s) && Quiescent(s) && StatusOf(s.board, 5).state == Pending
  {
    var s := PassOverServerFive();
    s := Onward(s, Request(ALL_TARGET));
    s := Onward(s, Read(0));
    s := Onward(s, Copy(0));
    s := Onward(s, Copy(0));
    s := QuietPass(s);
  }

  // ---------------------------------------------------------------- the drain comes to rest

  predicate IsDrainStep(step: Step) { !step.Request? && !step.Report? }

  /** Bound on the drain steps still to come if no further request is made. */
  function Left(s: System): nat {
    (if NothingPending(s.board) then 0 else 7 + 2 * |s.board.pendingServers|) +
    match Current(s)
    case Exited => 0
    case Top => 1
    case Snapshotting(_, servers, _) => 7 + |servers|
    case Starting(_, servers, _, _) => 6 + |servers|
    case RunningAll(_, servers, _, _) => 5 + |servers|
    case Reading(servers, _, _) => 4 + |servers|
    case Copying(servers, _, _, _) => 2 + |servers|
    case NextServer(servers, _) => 2 + 2 * |servers|
    case RunningServer(_, _, servers, _) => 3 + 2 * |servers|
  }

  /** Full passes still owed: the one in flight and at most one follow-up, however many requests came in. */
  function FullPassesOwed(s: System): nat {
    var d := Current(s);
    (if s.board.pendingAll then 1 else 0) + (if d.Snapshotting? || d.Starting? || d.RunningAll? then 1 else 0)
  }

  lemma DrainAdvances(s: System, step: Step)
    requires SingleDrain(s) && Enabled(s, step) && IsDrainStep(step)
    ensures Left(Apply(s, step)) < Left(s)
    ensures Apply(s, step).fullPasses + FullPassesOwed(Apply(s, step)) == s.fullPasses + FullPassesOwed(s)
  {}

  lemma ReportIsNeutral(s: System, step: Step)
    requires step.Report? || !Enabled(s, step)
    ensures Left(Apply(s, step)) == Left(s) && FullPassesOwed(Apply(s, step)) == FullPassesOwed(s)
    ensures Apply(s, step).fullPasses == s.fullPasses
  {}

  /** How many steps of `tail` are drain steps that actually run. */
  function Progress(s: System, tail: seq<Step>): nat
    decreases |tail|
  {
    if tail == [] then 0
    else (if Enabled(s, tail[0]) && IsDrainStep(tail[0]) then 1 else 0) + Progress(Apply(s, tail[0]), tail[1..])
  }

  function ExecFrom(s: System, tail: seq<Step>): System
    decreases |tail|
  {
    if tail == [] then s else ExecFrom(Apply(s, tail[0]), tail[1..])
  }

  /**
   After the last request the drain takes a bounded number of steps, and the full passes
   still completed are exactly those owed: a burst costs one follow-up, not one pass each.
   */
  lemma {:induction false} BurstsCoalesce(s: System, tail: seq<Step>)
    requires Inv(s) && forall k :: 0 <= k < |tail| ==> !tail[k].Request?
    ensures Progress(s, tail) + Left(ExecFrom(s, tail)) <= Left(s)
    ensures ExecFrom(s, tail).fullPasses + FullPassesOwed(ExecFrom(s, tail)) == s.fullPasses + FullPassesOwed(s)
    decreases |tail|
  {
    if tail != [] {
      StepKeeps(s, tail[0]);
      if Enabled(s, tail[0]) && IsDrainStep(tail[0]) {
        DrainAdvances(s, tail[0]);
      } else {
        ReportIsNeutral(s, tail[0]);
      }
      BurstsCoalesce(Apply(s, tail[0]), tail[1..]);
    }
  }

  lemma {:induction false} SomeOrder(ids: set<int>) returns (order: seq<int>)
    ensures Enumerates(order, ids)
  {
    order := [];
    if ids != {} {
      HasId(ids);
      var id :| id in ids;
      order := SomeOrder(ids - {id});
      order := order + [id];
    }
  }

  /** A drain that has not exited can always move: no interleaving wedges it. */
  lemma DrainNeverStuck(steps: seq<Step>) returns (step: Step)
    requires !Quiescent(Exec(steps))
    ensures IsDrainStep(step) && Enabled(Exec(steps), step)
  {
    Always(steps);
    var s := Exec(steps);
    var d := |s.drains| - 1;
    var order := SomeOrder(s.board.pendingServers);
    step := match s.drains[d]
      case Top => Take(d, order)
      case Snapshotting(_, _, _) => Snapshot(d)
      case Starting(_, _, _, _) => Start(d)
      case RunningAll(_, _, _, _) => Finish(d, Ok)
      case Reading(_, _, _) => Read(d)
      case Copying(_, _, _, _) => Copy(d)
      case NextServer(_, _) => StartServer(d)
      case RunningServer(_, _, _, _) => FinishServer(d, Ok);
  }
}
