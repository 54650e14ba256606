/**
 The restart circuit breaker (internal/sbctl/restartcircuit.go), how the controller uses
 it (internal/sbctl/controller.go), and the alert tracker that mirrors it
 (internal/api/restartalert.go).

 Both keep a filtered and truncated history per server. The refinement part shows that
 it decides exactly what the unbounded log would decide; the last part turns that into a
 bound on the restarts a whole run can cause.
 */
module RestartCircuit {
  import opened Collections

  datatype Policy = Policy(enabled: bool, window: int, threshold: int)

  // The panel's own settings, when the configured ones are unusable: 30 minutes, 5 restarts.
  const SECOND: int := 1_000_000_000
  const DEFAULT_POLICY := Policy(true, 1800 * SECOND, 5)

  datatype Configured = NoSource | Source(policy: Policy)

  /** A window or threshold that is no number above zero cannot switch the circuit off: the default takes over. */
  function CurrentPolicy(c: Configured): (p: Policy)
    ensures p.window > 0 && p.threshold > 0
    ensures !Usable(p) <==> c.Source? && !c.policy.enabled && c.policy.window > 0 && c.policy.threshold > 0
  {
    if c.Source? && c.policy.window > 0 && c.policy.threshold > 0 then c.policy else DEFAULT_POLICY
  }

  // ---------------------------------------------------------------- histories

  function Since(h: seq<int>, cutoff: int): (r: seq<int>)
    ensures |r| <= |h|
  {
    if h == [] then []
    else
      var rest := Since(h[..|h| - 1], cutoff);
      if h[|h| - 1] >= cutoff then rest + [h[|h| - 1]] else rest
  }

  /** The newest max entries. */
  function Newest(h: seq<int>, max: nat): seq<int> { if |h| > max then h[|h| - max..] else h }

  function Cap(threshold: int): (r: nat)
    ensures r >= 16 && r >= threshold
  {
    if threshold * 2 < 16 then 16 else threshold * 2
  }

  /** The filter that reuses the slice it reads from. */
  method KeepSince(h: array<int>, cutoff: int) returns (n: nat)
    modifies h
    ensures n <= h.Length && h[..n] == Since(old(h[..]), cutoff)
  {
    ghost var was := h[..];
    n := 0;
    var i := 0;
    while i < h.Length
      invariant n <= i <= h.Length == |was|
      invariant h[..n] == Since(was[..i], cutoff)
      invariant forall k :: i <= k < h.Length ==> h[k] == was[k]
    {
      assert was[..i + 1][..i] == was[..i];
      if h[i] >= cutoff {
        h[n] := h[i];
        n := n + 1;
      }
      i := i + 1;
    }
    assert was[..h.Length] == was;
  }

  method Filter(before: seq<int>, cutoff: int) returns (kept: seq<int>)
    ensures kept == Since(before, cutoff)
  {
    var h := new int[|before|];
    forall i | 0 <= i < h.Length {
      h[i] := before[i];
    }
    assert h[..] == before;
    var n := KeepSince(h, cutoff);
    kept := h[..n];
  }

  /** One server's part of the circuit. */
  datatype Circuit = Circuit(hist: seq<int>, open: bool)

  predicate Usable(p: Policy) { p.enabled && p.window > 0 && p.threshold > 0 }

  function Kept(hist: seq<int>, now: int, window: int, cap: nat): seq<int> {
    Newest(Since(hist + [now], now - window), cap)
  }

  function Recorded(c: Circuit, now: int, p: Policy): (r: (Circuit, bool, nat)) {
    if !Usable(p) then (c, false, 0)
    else
      var kept := Kept(c.hist, now, p.window, Cap(p.threshold));
      var trips := |kept| >= p.threshold && !c.open;
      (Circuit(kept, c.open || trips), trips, |kept|)
  }

  method Admit(before: seq<int>, now: int, window: int, max: nat) returns (kept: seq<int>)
    ensures kept == Kept(before, now, window, max)
  {
    kept := Filter(before + [now], now - window);
    if |kept| > max {
      kept := kept[|kept| - max..];
    }
  }

  class RestartCircuit {
    var hist: map<int, seq<int>>
    var open: set<int>

    function View(id: int): Circuit
      reads this
    {
      Circuit(if id in hist then hist[id] else [], id in open)
    }

    constructor ()
      ensures hist == map[] && open == {}
    {
      hist, open := map[], {};
    }

    method Record(id: int, now: int, p: Policy) returns (trips: bool, count: nat)
      modifies this
      ensures (View(id), trips, count) == Recorded(old(View(id)), now, p)
      ensures forall other :: other != id ==> View(other) == old(View(other))
    {
      if !p.enabled || p.window <= 0 || p.threshold <= 0 {
        return false, 0;
      }
      var before := if id in hist then hist[id] else [];
      var max := p.threshold * 2;
      if max < 16 {
        max := 16;
      }
      var kept := Admit(before, now, p.window, max);
      hist := hist[id := kept];
      count := |kept|;
      trips := count >= p.threshold && id !in open;
      if trips {
        open := open + {id};
      }
    }

    method IsOpen(id: int) returns (r: bool)
      ensures r == View(id).open
    {
      r := id in open;
    }

    /** One server's turn in a periodic pass: ask first, apply, then count the restart. */
    method PeriodicTurn(id: int, now: int, p: Policy, alertOpen: bool, restarted: bool)
      returns (refused: bool, trips: bool)
      modifies this
      ensures refused == Blocked(p, old(View(id)), alertOpen)
      ensures View(id) == Step(p, Run(old(View(id)), [], 0), Periodic(now, alertOpen, restarted)).c
      ensures forall other :: other != id ==> View(other) == old(View(other))
    {
      refused, trips := false, false;
      if p.enabled {
        var latched := IsOpen(id);
        refused := latched || alertOpen;
      }
      if !refused && restarted {
        var count;
        trips, count := Record(id, now, p);
      }
    }

    method Close(id: int) returns (wasOpen: bool)
      modifies this
      ensures View(id) == Circuit([], false) && wasOpen == old(View(id)).open
      ensures forall other :: other != id ==> View(other) == old(View(other))
    {
      wasOpen := id in open;
      open := open - {id};
      hist := hist - {id};
    }
  }

  // ---------------------------------------------------------------- refinement of the unbounded log

  /** Where the entries at or after the cutoff begin. */
  ghost predicate Splits(h: seq<int>, cutoff: int, k: nat) {
    && k <= |h|
    && (forall i :: 0 <= i < k ==> h[i] < cutoff)
    && (forall i :: k <= i < |h| ==> h[i] >= cutoff)
  }

  lemma {:induction false} SplitExists(h: seq<int>, cutoff: int) returns (k: nat)
    requires Sorted(h)
    ensures Splits(h, cutoff, k)
  {
    k := 0;
    while k < |h| && h[k] < cutoff
      invariant k <= |h| && forall i :: 0 <= i < k ==> h[i] < cutoff
    {
      k := k + 1;
    }
  }

  lemma SuffixGrows(h: seq<int>, k: nat)
    requires k < |h|
    ensures h[k..] == h[..|h| - 1][k..] + [h[|h| - 1]]
  {}

  /** On a sorted log the filter keeps a suffix. */
  lemma {:induction false} SinceIsSuffix(h: seq<int>, cutoff: int, k: nat)
    requires Splits(h, cutoff, k)
    ensures Since(h, cutoff) == h[k..]
  {
    if h != [] {
      var front := h[..|h| - 1];
      if k == |h| {
        SinceIsSuffix(front, cutoff, k - 1);
      } else {
        SinceIsSuffix(front, cutoff, k);
        SuffixGrows(h, k);
      }
    }
  }

  lemma SortedParts(a: seq<int>, b: seq<int>)
    requires Sorted(a + b)
    ensures Sorted(a) && Sorted(b)
  {
    assert forall i :: 0 <= i < |a| ==> a[i] == (a + b)[i];
    assert forall i :: 0 <= i < |b| ==> b[i] == (a + b)[|a| + i];
  }

  lemma DropOfConcat(a: seq<int>, b: seq<int>, d: nat)
    requires d <= |a|
    ensures (a + b)[d..] == a[d..] + b
  {}

  lemma NewestOfSuffix(h: seq<int>, d: nat, cap: nat)
    requires d + cap <= |h|
    ensures Newest(h[d..], cap) == Newest(h, cap) == h[|h| - cap..]
  {}

  lemma OldFrontIsForgettable(whole: seq<int>, d: nat, m: nat, cutoff: int)
    requires d <= m && Splits(whole, cutoff, m)
    ensures Since(whole[d..], cutoff) == Since(whole, cutoff)
  {
    SinceIsSuffix(whole, cutoff, m);
    var short := whole[d..];
    assert Splits(short, cutoff, m - d);
    SinceIsSuffix(short, cutoff, m - d);
    assert short[m - d..] == whole[m..];
  }

  lemma FullFrontIsForgettable(whole: seq<int>, d: nat, m: nat, cutoff: int, cap: nat)
    requires m < d <= |whole| && |whole| - d >= cap && Splits(whole, cutoff, m)
    ensures Newest(Since(whole[d..], cutoff), cap) == Newest(Since(whole, cutoff), cap)
  {
    SinceIsSuffix(whole, cutoff, m);
    var short := whole[d..];
    assert Splits(short, cutoff, 0);
    SinceIsSuffix(short, cutoff, 0);
    assert short[0..] == short == whole[m..][d - m..];
    NewestOfSuffix(whole[m..], d - m, cap);
  }

  /** A later cutoff on the truncated, filtered log gives what it gives on the whole log. */
  lemma FilterRefines(log: seq<int>, earlier: int, cutoff: int, cap: nat, tail: seq<int>)
    requires Sorted(log + tail) && earlier <= cutoff
    ensures Newest(Since(Newest(Since(log, earlier), cap) + tail, cutoff), cap) == Newest(Since(log + tail,
        cutoff), cap)
  {
    SortedParts(log, tail);
    var k := SplitExists(log, earlier);
    SinceIsSuffix(log, earlier, k);
    var d := if |log| - k > cap then |log| - cap else k;
    assert Newest(log[k..], cap) == log[d..];
    DropOfConcat(log, tail, d);
    var m := SplitExists(log + tail, cutoff);
    if m < k {
      assert (log + tail)[m] == log[m];
    }
    if d <= m {
      OldFrontIsForgettable(log + tail, d, m, cutoff);
    } else {
      FullFrontIsForgettable(log + tail, d, m, cutoff, cap);
    }
  }

  /** The history the code holds, given every record since the last close. */
  ghost predicate Holds(hist: seq<int>, log: seq<int>, cutoff: int, cap: nat) {
    hist == Newest(Since(log, cutoff), cap)
  }

  function Clipped(n: nat, cap: nat): nat { if n < cap then n else cap }

  lemma KeptRefines(hist: seq<int>, log: seq<int>, cutoff: int, now: int, window: int, cap: nat)
    requires Sorted(log + [now]) && cutoff <= now - window && Holds(hist, log, cutoff, cap)
    ensures Holds(Kept(hist, now, window, cap), log + [now], now - window, cap)
    ensures |Kept(hist, now, window, cap)| == Clipped(|Since(log + [now], now - window)|, cap)
  {
    FilterRefines(log, cutoff, now - window, cap, [now]);
  }

  /**
   One record against the unbounded log: the count is the true number of restarts in the
   window, up to the cap, and the circuit opens exactly when the true number reaches the
   threshold.
   */
  lemma RecordRefinesLog(c: Circuit, log: seq<int>, cutoff: int, now: int, p: Policy)
    requires Usable(p) && Sorted(log + [now]) && cutoff <= now - p.window
        && Holds(c.hist, log, cutoff, Cap(p.threshold))
    ensures var (c', trips, count) := Recorded(c, now, p);
            var inWindow := |Since(log + [now], now - p.window)|;
            && Holds(c'.hist, log + [now], now - p.window, Cap(p.threshold))
            && count == Clipped(inWindow, Cap(p.threshold))
            && (trips <==> !c.open && inWindow >= p.threshold)
  {
    KeptRefines(c.hist, log, cutoff, now, p.window, Cap(p.threshold));
  }

  // ---------------------------------------------------------------- whole runs of one server

  /**
   A periodic pass asks the circuit (and the stored alert) first and records a restart it
   caused. A full rebuild by an administrator may restart the unit, but neither records nor
   closes. A rebuild of this one server closes after success, unless relay metering turned
   it into a full rebuild. The circuit's memory is lost with the panel process.
   */
  datatype Event =
    | Periodic(now: int, alertOpen: bool, restarted: bool)
    | FullRebuild(restarted: bool)
    | ServerRebuild(metering: bool, ok: bool)
    | PanelRestart

  /** log: the periodic restarts since the circuit last began afresh. total: all of them. */
  datatype Run = Run(c: Circuit, log: seq<int>, total: nat)

  const FRESH := Run(Circuit([], false), [], 0)

  predicate Blocked(p: Policy, c: Circuit, alertOpen: bool) { p.enabled && (c.open || alertOpen) }

  predicate BeginsAfresh(e: Event) { e.PanelRestart? || (e.ServerRebuild? && !e.metering && e.ok) }

  function Step(p: Policy, r: Run, e: Event): Run {
    if BeginsAfresh(e) then Run(Circuit([], false), [], r.total)
    else if e.Periodic? && e.restarted && !Blocked(p, r.c, e.alertOpen) then
      Run(Recorded(r.c, e.now, p).0, r.log + [e.now], r.total + 1)
    else r
  }

  function Exec(p: Policy, r: Run, events: seq<Event>): Run
    decreases |events|
  {
    if events == [] then r else Exec(p, Step(p, r, events[0]), events[1..])
  }

  function Tick(clock: int, e: Event): int { if e.Periodic? then e.now else clock }

  /** The clock never goes back. */
  predicate Timely(clock: int, events: seq<Event>)
    decreases |events|
  {
    events == [] || (clock <= Tick(clock, events[0]) && Timely(Tick(clock, events[0]), events[1..]))
  }

  function Horizon(log: seq<int>, window: int): int { if log == [] then 0 else log[|log| - 1] - window }

  /** threshold + 1 restarts in a row always span more than the window. */
  ghost predicate Sparse(log: seq<int>, window: int, threshold: int) {
    forall i, j :: 0 <= i <= j < |log| && log[j] - log[i] <= window ==> j - i < threshold
  }

  predicate Crowded(log: seq<int>, window: int, threshold: nat) {
    0 < threshold <= |log| && log[|log| - 1] - log[|log| - threshold] <= window
  }

  ghost predicate LogInv(log: seq<int>, window: int, threshold: int, clock: int) {
    Sorted(log) && (log != [] ==> log[|log| - 1] <= clock) && Sparse(log, window, threshold)
  }

  ghost predicate CircuitInv(p: Policy, c: Circuit, log: seq<int>)
    requires Usable(p)
  {
    && Holds(c.hist, log, Horizon(log, p.window), Cap(p.threshold))
    && (c.open <==> Crowded(log, p.window, p.threshold))
  }

  ghost predicate Inv(p: Policy, r: Run, clock: int)
    requires Usable(p)
  {
    LogInv(r.log, p.window, p.threshold, clock) && CircuitInv(p, r.c, r.log)
  }

  lemma InWindowIsCrowded(log: seq<int>, window: int, threshold: nat)
    requires log != [] && Sorted(log) && threshold > 0
    ensures |Since(log, Horizon(log, window))| >= threshold <==> Crowded(log, window, threshold)
  {
    var k := SplitExists(log, Horizon(log, window));
    SinceIsSuffix(log, Horizon(log, window), k);
  }

  lemma AppendKeepsSorted(log: seq<int>, now: int)
    requires Sorted(log) && (log != [] ==> log[|log| - 1] <= now)
    ensures Sorted(log + [now])
  {}

  lemma LogKeeps(log: seq<int>, now: int, window: int, threshold: nat, clock: int)
    requires LogInv(log, window, threshold, clock) && clock <= now && threshold > 0 && !Crowded(log, window, threshold)
    ensures LogInv(log + [now], window, threshold, now)
  {}

  lemma CircuitKeeps(p: Policy, c: Circuit, log: seq<int>, now: int, clock: int)
    requires Usable(p) && LogInv(log, p.window, p.threshold, clock) && CircuitInv(p, c, log) && clock <= now && !c.open
    ensures CircuitInv(p, Recorded(c, now, p).0, log + [now])
  {
    AppendKeepsSorted(log, now);
    var earlier := if log == [] then now - p.window else Horizon(log, p.window);
    RecordRefinesLog(c, log, earlier, now, p);
    assert Horizon(log + [now], p.window) == now - p.window;
    InWindowIsCrowded(log + [now], p.window, p.threshold);
  }

  lemma StepKeeps(p: Policy, r: Run, e: Event, clock: int)
    requires Usable(p) && Inv(p, r, clock) && clock <= Tick(clock, e)
    ensures Inv(p, Step(p, r, e), Tick(clock, e))
  {
    if !BeginsAfresh(e) && e.Periodic? && e.restarted && !Blocked(p, r.c, e.alertOpen) {
      LogKeeps(r.log, e.now, p.window, p.threshold, clock);
      CircuitKeeps(p, r.c, r.log, e.now, clock);
    }
  }

  lemma {:induction false} Always(p: Policy, r: Run, events: seq<Event>, clock: int) returns (end: int)
    requires Usable(p) && Inv(p, r, clock) && Timely(clock, events)
    ensures Inv(p, Exec(p, r, events), end)
    decreases |events|
  {
    if events == [] {
      end := clock;
    } else {
      StepKeeps(p, r, events[0], clock);
      end := Always(p, Step(p, r, events[0]), events[1..], Tick(clock, events[0]));
    }
  }

  /**
   Between two moments at which the circuit begins afresh, any closed window of the
   policy's length holds at most threshold restarts caused by periodic passes. The circuit
   is open exactly when the last threshold of them fell within one window.
   */
  lemma RestartsAreBounded(p: Policy, events: seq<Event>, clock: int)
    requires Usable(p) && Timely(clock, events)
    ensures var r := Exec(p, FRESH, events);
            && Sparse(r.log, p.window, p.threshold)
            && (r.c.open <==> Crowded(r.log, p.window, p.threshold))
  {
    assert Inv(p, FRESH, clock);
    var _ := Always(p, FRESH, events, clock);
  }

  /**
   Once open, no event but a successful rebuild of the server without metering (or the loss
   of the panel process) changes anything: no periodic restart follows. With metering on,
   every server rebuild goes through the full rebuild, so none of them closes it.
   */
  lemma {:induction false} OpenStaysOpen(p: Policy, r: Run, events: seq<Event>)
    requires p.enabled && r.c.open
    requires forall e :: e in events ==> !e.PanelRestart? && (e.ServerRebuild? ==> e.metering || !e.ok)
    ensures Exec(p, r, events) == r
    decreases |events|
  {
    if events != [] {
      assert events[0] in events;
      assert Step(p, r, events[0]) == r;
      OpenStaysOpen(p, r, events[1..]);
    }
  }

  // ---------------------------------------------------------------- a policy that changes

  /** A restart recorded while the circuit was closed, and the policy in force. */
  datatype Record = Record(now: int, p: Policy) {
    function Cutoff(): int { now - p.window }
  }

  function Replay(rs: seq<Record>, n: nat): Circuit
    requires n <= |rs|
  {
    if n == 0 then Circuit([], false) else Recorded(Replay(rs, n - 1), rs[n - 1].now, rs[n - 1].p).0
  }

  function Times(rs: seq<Record>, n: nat): seq<int>
    requires n <= |rs|
  {
    if n == 0 then [] else Times(rs, n - 1) + [rs[n - 1].now]
  }

  /** How many of the first n + 1 restarts the policy of the last of them counts. */
  function InWindow(rs: seq<Record>, n: nat): nat
    requires n < |rs|
  {
    |Since(Times(rs, n + 1), rs[n].Cutoff())|
  }

  function Later(a: int, b: int): int { if a < b then b else a }

  /** The latest cutoff that any of the first n filtered with: what is older is forgotten. */
  function MaxCut(rs: seq<Record>, n: nat): int
    requires 0 < n <= |rs|
  {
    if n == 1 then rs[0].Cutoff() else Later(MaxCut(rs, n - 1), rs[n - 1].Cutoff())
  }

  /** How many of the first n + 1 restarts the circuit still counts. */
  function Held(rs: seq<Record>, n: nat): nat
    requires n < |rs|
  {
    |Since(Times(rs, n + 1), MaxCut(rs, n + 1))|
  }

  lemma {:induction false} SinceTwice(log: seq<int>, a: int, b: int)
    ensures Since(Since(log, a), b) == Since(log, Later(a, b))
  {
    if log != [] {
      SinceTwice(log[..|log| - 1], a, b);
      SinceJoins(Since(log[..|log| - 1], a), [log[|log| - 1]], b);
    }
  }

  lemma {:induction false} SinceJoins(a: seq<int>, b: seq<int>, cutoff: int)
    ensures Since(a + b, cutoff) == Since(a, cutoff) + Since(b, cutoff)
  {
    if b == [] {
      assert a + b == a;
    } else {
      assert (a + b)[..|a + b| - 1] == a + b[..|b| - 1];
      SinceJoins(a, b[..|b| - 1], cutoff);
    }
  }

  lemma SinceRefilters(log: seq<int>, earlier: int, now: int, cutoff: int)
    requires earlier <= now && cutoff <= now
    ensures Since(Since(log, earlier) + [now], cutoff) == Since(log + [now], Later(earlier, cutoff))
  {
    SinceTwice(log, earlier, cutoff);
    SinceJoins(log, [now], Later(earlier, cutoff));
    SinceJoins(Since(log, earlier), [now], cutoff);
  }

  lemma RecordCounts(c: Circuit, now: int, p: Policy, all: seq<int>)
    requires Usable(p) && !c.open && Since(c.hist + [now], now - p.window) == all
    ensures var c' := Recorded(c, now, p).0;
            (c'.open <==> |all| >= p.threshold) && (!c'.open ==> c'.hist == all)
  {}

  /** The circuit decides by what it holds, and while closed it holds all from the latest cutoff on. */
  ghost predicate Complete(rs: seq<Record>, n: nat)
    requires n <= |rs|
  {
    n > 0 ==>
      && (Replay(rs, n).open <==> Held(rs, n - 1) >= rs[n - 1].p.threshold)
      && (!Replay(rs, n).open ==> Replay(rs, n).hist == Since(Times(rs, n), MaxCut(rs, n)))
  }

  /** The first n were recorded while the circuit was closed, under usable policies, none before an earlier cutoff. */
  predicate Made(rs: seq<Record>, n: nat)
    requires n <= |rs|
  {
    n > 0 ==>
      && Made(rs, n - 1) && Usable(rs[n - 1].p) && !Replay(rs, n - 1).open
      && MaxCut(rs, n) <= rs[n - 1].now
  }

  /** While the circuit is closed, a clock that does not go back is all it takes. */
  lemma {:induction false} ForwardIsMade(rs: seq<Record>, n: nat)
    requires n <= |rs| && forall j :: 0 <= j < n ==> Usable(rs[j].p) && !Replay(rs, j).open
    requires forall j :: 0 < j < n ==> rs[j - 1].now <= rs[j].now
    ensures Made(rs, n)
  {
    if n > 0 {
      ForwardIsMade(rs, n - 1);
    }
  }

  lemma ReplayStep(rs: seq<Record>, n: nat)
    requires n < |rs| && Usable(rs[n].p) && !Replay(rs, n).open && Complete(rs, n) && MaxCut(rs, n + 1) <= rs[n].now
    ensures Complete(rs, n + 1)
  {
    var earlier := if n == 0 then rs[0].Cutoff() else MaxCut(rs, n);
    var c, now := Replay(rs, n), rs[n].now;
    assert c.hist == Since(Times(rs, n), earlier);
    SinceRefilters(Times(rs, n), earlier, now, rs[n].Cutoff());
    RecordCounts(c, now, rs[n].p, Since(Times(rs, n) + [now], MaxCut(rs, n + 1)));
    assert Times(rs, n + 1) == Times(rs, n) + [now];
  }

  lemma {:induction false} ReplayIsComplete(rs: seq<Record>, n: nat)
    requires n <= |rs| && Made(rs, n)
    ensures Complete(rs, n)
  {
    if n > 0 {
      ReplayIsComplete(rs, n - 1);
      ReplayStep(rs, n - 1);
    }
  }

  lemma HeldIsLess(rs: seq<Record>, n: nat)
    requires n < |rs|
    ensures Held(rs, n) <= InWindow(rs, n)
  {
    SinceTwice(Times(rs, n + 1), rs[n].Cutoff(), MaxCut(rs, n + 1));
  }

  /**
   Under policies that change in any way: the circuit opens exactly when the restarts since the
   latest cutoff of all reach the threshold. So it never opens early, and its decision is the
   one the newest policy demands exactly unless the threshold lies between what is held and
   what is in the newest window.
   */
  lemma ChangedPolicyIff(rs: seq<Record>, n: nat)
    requires 0 < n <= |rs| && Made(rs, n)
    ensures var held, due, threshold := Held(rs, n - 1), InWindow(rs, n - 1), rs[n - 1].p.threshold;
            && (Replay(rs, n).open <==> held >= threshold)
            && (Replay(rs, n).open ==> due >= threshold)
            && ((Replay(rs, n).open <==> due >= threshold) <==> !(held < threshold <= due))
  {
    ReplayIsComplete(rs, n);
    HeldIsLess(rs, n - 1);
  }

  /** No window reaches back further than the one before. */
  predicate NeverFurtherBack(rs: seq<Record>, n: nat)
    requires n <= |rs|
  {
    n > 1 ==> NeverFurtherBack(rs, n - 1) && rs[n - 2].Cutoff() <= rs[n - 1].Cutoff()
  }

  lemma {:induction false} NewestCutIsLatest(rs: seq<Record>, n: nat)
    requires 0 < n <= |rs| && NeverFurtherBack(rs, n)
    ensures MaxCut(rs, n) == rs[n - 1].Cutoff()
  {
    if n > 1 {
      NewestCutIsLatest(rs, n - 1);
    }
  }

  /** The restart found fewer than the threshold then in force in the window then in force. */
  predicate FindsFewer(rs: seq<Record>, n: nat)
    requires n < |rs|
  {
    InWindow(rs, n) < rs[n].p.threshold
  }

  lemma NewestDecides(rs: seq<Record>, n: nat)
    requires 0 < n <= |rs| && Made(rs, n) && NeverFurtherBack(rs, n)
    ensures Replay(rs, n).open <==> !FindsFewer(rs, n - 1)
  {
    ChangedPolicyIff(rs, n);
    NewestCutIsLatest(rs, n);
  }

  /**
   In particular, as long as no window reaches back further than the one before: every restart
   but the last found fewer than the threshold then in force in the window then in force, and
   the circuit is open exactly if the last one did not.
   */
  lemma {:induction false} PolicyMayChange(rs: seq<Record>, n: nat)
    requires 0 < n <= |rs| && Made(rs, n) && NeverFurtherBack(rs, n)
    ensures forall j :: 0 <= j < n - 1 ==> FindsFewer(rs, j)
    ensures Replay(rs, n).open <==> !FindsFewer(rs, n - 1)
  {
    NewestDecides(rs, n);
    if n > 1 {
      NewestDecides(rs, n - 1);
      PolicyMayChange(rs, n - 1);
    }
  }

  lemma SinceOfTwo(a: int, b: int, cutoff: int)
    requires b >= cutoff
    ensures Since([a] + [b], cutoff) == if a >= cutoff then [a, b] else [b]
  {}

  lemma AllRecent(h: seq<int>, cutoff: int)
    requires forall i :: 0 <= i < |h| ==> h[i] >= cutoff
    ensures Since(h, cutoff) == h
  {}

  /**
   Otherwise it can miss: a window that shrinks and grows again forgets the first of three
   restarts, although all three fit in the wide one.
   */
  lemma ShrunkWindowForgets(narrow: Policy, wide: Policy, a: int, b: int, c: int)
    requires narrow.enabled && wide.enabled && narrow.threshold == wide.threshold == 3
    requires a < b - narrow.window < b <= c <= a + wide.window
    ensures var after := Recorded(Circuit([a], false), b, narrow).0;
            after == Circuit([b], false) && !Recorded(after, c, wide).1
    ensures |Since([a, b] + [c], c - wide.window)| == 3
  {
    SinceOfTwo(a, b, b - narrow.window);
    SinceOfTwo(b, c, c - wide.window);
    AllRecent([a, b] + [c], c - wide.window);
  }

  // ---------------------------------------------------------------- the alert tracker

  const HISTORY_MAX: nat := 64

  /** One server's part of the tracker. */
  datatype Watch = Watch(hist: seq<int>, alerted: bool)

  function Sampled(w: Watch, now: int, window: int, threshold: int): (Watch, bool, nat) {
    var kept := Kept(w.hist, now, window, HISTORY_MAX);
    var fire := threshold > 0 && |kept| >= threshold && !w.alerted;
    (Watch(kept, w.alerted || fire), fire, |kept|)
  }

  function Pruned(w: Watch, now: int, window: int): Watch {
    if w.alerted then w else Watch(Since(w.hist, now - window), false)
  }

  class RestartTracker {
    var hist: map<int, seq<int>>
    var alerted: set<int>

    function View(id: int): Watch
      reads this
    {
      Watch(if id in hist then hist[id] else [], id in alerted)
    }

    constructor ()
      ensures hist == map[] && alerted == {}
    {
      hist, alerted := map[], {};
    }

    method Record(id: int, now: int, windowSec: int, threshold: int) returns (fire: bool, count: nat)
      modifies this
      ensures (View(id), fire, count) == Sampled(old(View(id)), now, windowSec, threshold)
      ensures forall other :: other != id ==> View(other) == old(View(other))
    {
      var before := if id in hist then hist[id] else [];
      var kept := Admit(before, now, windowSec, HISTORY_MAX);
      hist := hist[id := kept];
      count := |kept|;
      fire := threshold > 0 && count >= threshold && id !in alerted;
      if fire {
        alerted := alerted + {id};
      }
    }

    method Prune(now: int, windowSec: int)
      modifies this
      ensures forall id :: View(id) == Pruned(old(View(id)), now, windowSec)
    {
      var todo := hist.Keys;
      while todo != {}
        invariant alerted == old(alerted) && todo <= old(hist.Keys)
        invariant forall id :: id in todo || id !in old(hist.Keys) ==> View(id) == old(View(id))
        invariant forall id :: id in old(hist.Keys) - todo ==> View(id) == Pruned(old(View(id)), now, windowSec)
        decreases |todo|
      {
        HasId(todo);
        var id :| id in todo;
        assert View(id) == old(View(id));
        todo := todo - {id};
        if id !in alerted {
          var kept := Filter(View(id).hist, now - windowSec);
          if |kept| == 0 {
            hist := hist - {id};
          } else {
            hist := hist[id := kept];
          }
        }
      }
    }

    method Recover(id: int)
      modifies this
      ensures View(id) == Watch([], false)
      ensures forall other :: other != id ==> View(other) == old(View(other))
    {
      alerted := alerted - {id};
      hist := hist - {id};
    }

    method MarkAlerted(id: int)
      modifies this
      ensures View(id) == old(View(id)).(alerted := true)
      ensures forall other :: other != id ==> View(other) == old(View(other))
    {
      alerted := alerted + {id};
    }

    method UnmarkAlerted(id: int)
      modifies this
      ensures View(id) == old(View(id)).(alerted := false)
      ensures forall other :: other != id ==> View(other) == old(View(other))
    {
      alerted := alerted - {id};
    }
  }

  // ---------------------------------------------------------------- both against the ideal watcher

  datatype Op = Sample(now: int) | Sweep(now: int) | Reset | Mark | Unmark

  /** Remembers every restart since the last reset, and ignores sweeps. */
  datatype Ideal = Ideal(log: seq<int>, latched: bool)

  function IdealStep(l: Ideal, op: Op, window: int, threshold: int): (Ideal, bool) {
    match op
    case Sample(now) =>
      var log := l.log + [now];
      var fire := threshold > 0 && !l.latched && |Since(log, now - window)| >= threshold;
      (Ideal(log, l.latched || fire), fire)
    case Sweep(_) => (l, false)
    case Reset => (Ideal([], false), false)
    case Mark => (l.(latched := true), false)
    case Unmark => (l.(latched := false), false)
  }

  function TrackerStep(w: Watch, op: Op, window: int, threshold: int): (Watch, bool) {
    match op
    case Sample(now) => var (w', fire, _) := Sampled(w, now, window, threshold); (w', fire)
    case Sweep(now) => (Pruned(w, now, window), false)
    case Reset => (Watch([], false), false)
    case Mark => (w.(alerted := true), false)
    case Unmark => (w.(alerted := false), false)
  }

  function CircuitStep(c: Circuit, op: Op, p: Policy): (Circuit, bool) {
    match op
    case Sample(now) => var (c', trips, _) := Recorded(c, now, p); (c', trips)
    case Reset => (Circuit([], false), false)
    case _ => (c, false)
  }

  function IdealFires(l: Ideal, ops: seq<Op>, window: int, threshold: int): seq<bool>
    decreases |ops|
  {
    if ops == [] then []
    else var (l', fire) := IdealStep(l, ops[0], window, threshold); [fire] + IdealFires(l', ops[1..], window, threshold)
  }

  function TrackerFires(w: Watch, ops: seq<Op>, window: int, threshold: int): seq<bool>
    decreases |ops|
  {
    if ops == [] then []
    else var (w', fire) := TrackerStep(w, ops[0], window, threshold); [fire] + TrackerFires(w', ops[1..], window,
        threshold)
  }

  function CircuitTrips(c: Circuit, ops: seq<Op>, p: Policy): seq<bool>
    decreases |ops|
  {
    if ops == [] then []
    else var (c', trips) := CircuitStep(c, ops[0], p); [trips] + CircuitTrips(c', ops[1..], p)
  }

  function OpTime(clock: int, op: Op): int { if op.Sample? || op.Sweep? then op.now else clock }

  predicate InOrder(clock: int, ops: seq<Op>)
    decreases |ops|
  {
    ops == [] || (clock <= OpTime(clock, ops[0]) && InOrder(OpTime(clock, ops[0]), ops[1..]))
  }

  /** What both twins see: the marks are the watcher's own. */
  predicate Shared(ops: seq<Op>) { forall op :: op in ops ==> op.Sample? || op.Sweep? || op.Reset? }

  /** A history filtered at some moment up to now stands for the whole log. */
  ghost predicate Stands(hist: seq<int>, log: seq<int>, clock: int, window: int, cap: nat) {
    && Sorted(log) && (log != [] ==> log[|log| - 1] <= clock)
    && exists cutoff :: cutoff <= clock - window && Holds(hist, log, cutoff, cap)
  }

  lemma SampleStands(hist: seq<int>, log: seq<int>, clock: int, window: int, cap: nat, now: int)
    requires Stands(hist, log, clock, window, cap) && clock <= now
    ensures var kept := Kept(hist, now, window, cap);
            && Stands(kept, log + [now], now, window, cap)
            && |kept| == Clipped(|Since(log + [now], now - window)|, cap)
  {
    var cutoff :| cutoff <= clock - window && Holds(hist, log, cutoff, cap);
    KeptRefines(hist, log, cutoff, now, window, cap);
  }

  lemma SweepStands(hist: seq<int>, log: seq<int>, clock: int, window: int, cap: nat, now: int)
    requires Stands(hist, log, clock, window, cap) && clock <= now
    ensures Stands(Since(hist, now - window), log, now, window, cap)
  {
    var cutoff :| cutoff <= clock - window && Holds(hist, log, cutoff, cap);
    FilterRefines(log, cutoff, now - window, cap, []);
    assert log + [] == log && hist + [] == hist;
    assert Holds(Since(hist, now - window), log, now - window, cap);
  }

  lemma TrackerStepIsIdeal(w: Watch, l: Ideal, clock: int, op: Op, window: int, threshold: int)
    requires threshold <= HISTORY_MAX && clock <= OpTime(clock, op)
    requires Stands(w.hist, l.log, clock, window, HISTORY_MAX) && w.alerted == l.latched
    ensures var (w', fire) := TrackerStep(w, op, window, threshold);
            var (l', ideal) := IdealStep(l, op, window, threshold);
            && fire == ideal && w'.alerted == l'.latched
            && Stands(w'.hist, l'.log, OpTime(clock, op), window, HISTORY_MAX)
  {
    match op
    case Sample(now) => SampleStands(w.hist, l.log, clock, window, HISTORY_MAX, now);
    case Sweep(now) =>
      if !w.alerted {
        SweepStands(w.hist, l.log, clock, window, HISTORY_MAX, now);
      }
    case Reset => assert Holds([], [], clock - window, HISTORY_MAX);
    case _ =>
  }

  /** Up to its cap, the tracker announces exactly what the ideal watcher announces: sweeps never matter. */
  lemma {:induction false} TrackerIsIdeal(w: Watch, l: Ideal, clock: int, ops: seq<Op>, window: int, threshold: int)
    requires threshold <= HISTORY_MAX && InOrder(clock, ops)
    requires Stands(w.hist, l.log, clock, window, HISTORY_MAX) && w.alerted == l.latched
    ensures TrackerFires(w, ops, window, threshold) == IdealFires(l, ops, window, threshold)
    decreases |ops|
  {
    if ops != [] {
      TrackerStepIsIdeal(w, l, clock, ops[0], window, threshold);
      TrackerIsIdeal(TrackerStep(w, ops[0], window, threshold).0, IdealStep(l, ops[0], window, threshold).0,
                     OpTime(clock, ops[0]), ops[1..], window, threshold);
    }
  }

  /** Above the cap it never announces anything. */
  lemma {:induction false} TrackerIsBlindAboveCap(w: Watch, ops: seq<Op>, window: int, threshold: int)
    requires threshold > HISTORY_MAX
    ensures forall fire :: fire in TrackerFires(w, ops, window, threshold) ==> !fire
    decreases |ops|
  {
    if ops != [] {
      TrackerIsBlindAboveCap(TrackerStep(w, ops[0], window, threshold).0, ops[1..], window, threshold);
    }
  }

  lemma StandsLater(hist: seq<int>, log: seq<int>, clock: int, window: int, cap: nat, now: int)
    requires Stands(hist, log, clock, window, cap) && clock <= now
    ensures Stands(hist, log, now, window, cap)
  {}

  lemma RecordedFires(c: Circuit, now: int, p: Policy, count: nat)
    requires Usable(p) && |Kept(c.hist, now, p.window, Cap(p.threshold))| == Clipped(count, Cap(p.threshold))
    ensures var (c', trips, _) := Recorded(c, now, p);
            && (trips <==> !c.open && count >= p.threshold) && c'.open == (c.open || trips)
            && c'.hist == Kept(c.hist, now, p.window, Cap(p.threshold))
  {}

  lemma IdealSample(l: Ideal, now: int, window: int, threshold: int, count: nat)
    requires count == |Since(l.log + [now], now - window)|
    ensures var (l', fire) := IdealStep(l, Sample(now), window, threshold);
            && fire == (threshold > 0 && !l.latched && count >= threshold)
            && l'.log == l.log + [now] && l'.latched == (l.latched || fire)
  {}

  lemma CircuitSampleIsIdeal(c: Circuit, l: Ideal, now: int, p: Policy, count: nat)
    requires Usable(p) && c.open == l.latched && count == |Since(l.log + [now], now - p.window)|
    requires |Kept(c.hist, now, p.window, Cap(p.threshold))| == Clipped(count, Cap(p.threshold))
    ensures var (c', trips) := CircuitStep(c, Sample(now), p);
            var (l', fire) := IdealStep(l, Sample(now), p.window, p.threshold);
            && trips == fire && c'.open == l'.latched
            && c'.hist == Kept(c.hist, now, p.window, Cap(p.threshold)) && l'.log == l.log + [now]
  {
    RecordedFires(c, now, p, count);
    IdealSample(l, now, p.window, p.threshold, count);
  }

  lemma CircuitTurnIsIdeal(c: Circuit, l: Ideal, clock: int, now: int, p: Policy, cap: nat)
    requires Usable(p) && clock <= now && cap == Cap(p.threshold)
    requires Stands(c.hist, l.log, clock, p.window, cap) && c.open == l.latched
    ensures var (c', trips) := CircuitStep(c, Sample(now), p);
            var (l', fire) := IdealStep(l, Sample(now), p.window, p.threshold);
            trips == fire && c'.open == l'.latched && Stands(c'.hist, l'.log, now, p.window, cap)
  {
    SampleStands(c.hist, l.log, clock, p.window, cap, now);
    CircuitSampleIsIdeal(c, l, now, p, |Since(l.log + [now], now - p.window)|);
  }

  lemma CircuitStepIsIdeal(c: Circuit, l: Ideal, clock: int, op: Op, p: Policy, cap: nat)
    requires Usable(p) && cap == Cap(p.threshold)
    requires (op.Sample? || op.Sweep? || op.Reset?) && clock <= OpTime(clock, op)
    requires Stands(c.hist, l.log, clock, p.window, cap) && c.open == l.latched
    ensures var c', l' := CircuitStep(c, op, p), IdealStep(l, op, p.window, p.threshold);
            c'.1 == l'.1 && c'.0.open == l'.0.latched && Stands(c'.0.hist, l'.0.log, OpTime(clock, op), p.window, cap)
  {
    match op
    case Sample(now) => CircuitTurnIsIdeal(c, l, clock, now, p, cap);
    case Reset => assert Holds([], [], clock - p.window, cap);
    case Sweep(now) => StandsLater(c.hist, l.log, clock, p.window, cap, now);
  }

  lemma TailIsShared(clock: int, ops: seq<Op>)
    requires InOrder(clock, ops) && Shared(ops) && ops != []
    ensures clock <= OpTime(clock, ops[0]) && InOrder(OpTime(clock, ops[0]), ops[1..]) && Shared(ops[1..])
    ensures ops[0].Sample? || ops[0].Sweep? || ops[0].Reset?
  {
    assert ops[0] in ops;
    assert forall op :: op in ops[1..] ==> op in ops;
  }

  lemma FiresFromTails(c: Circuit, l: Ideal, ops: seq<Op>, p: Policy)
    requires ops != []
    requires CircuitStep(c, ops[0], p).1 == IdealStep(l, ops[0], p.window, p.threshold).1
    requires CircuitTrips(CircuitStep(c, ops[0], p).0, ops[1..], p)
        == IdealFires(IdealStep(l, ops[0], p.window, p.threshold).0, ops[1..], p.window, p.threshold)
    ensures CircuitTrips(c, ops, p) == IdealFires(l, ops, p.window, p.threshold)
  {
    TripsUnfold(c, ops, p);
    FiresUnfold(l, ops, p.window, p.threshold);
  }

  /** The circuit trips exactly when the ideal watcher fires, for every usable policy. */
  lemma {:induction false} CircuitIsIdeal(c: Circuit, l: Ideal, clock: int, ops: seq<Op>, p: Policy, cap: nat)
    requires Usable(p) && InOrder(clock, ops) && Shared(ops) && cap == Cap(p.threshold)
    requires Stands(c.hist, l.log, clock, p.window, cap) && c.open == l.latched
    ensures CircuitTrips(c, ops, p) == IdealFires(l, ops, p.window, p.threshold)
    decreases |ops|
  {
    if ops != [] {
      var op := ops[0];
      var c', l' := CircuitStep(c, op, p).0, IdealStep(l, op, p.window, p.threshold).0;
      TailIsShared(clock, ops);
      CircuitStepIsIdeal(c, l, clock, op, p, cap);
      assert Stands(c'.hist, l'.log, OpTime(clock, op), p.window, cap) && c'.open == l'.latched;
      CircuitIsIdeal(c', l', OpTime(clock, op), ops[1..], p, cap);
      FiresFromTails(c, l, ops, p);
    }
  }

  lemma TwinsAgree(ops: seq<Op>, clock: int, p: Policy)
    requires Usable(p) && p.threshold <= HISTORY_MAX && InOrder(clock, ops) && Shared(ops)
    ensures TrackerFires(Watch([], false), ops, p.window, p.threshold) == CircuitTrips(Circuit([], false), ops, p)
  {
    assert Holds([], [], clock - p.window, HISTORY_MAX) && Holds([], [], clock - p.window, Cap(p.threshold));
    TrackerIsIdeal(Watch([], false), Ideal([], false), clock, ops, p.window, p.threshold);
    CircuitIsIdeal(Circuit([], false), Ideal([], false), clock, ops, p, Cap(p.threshold));
  }

  function Burst<T>(n: nat, one: T): seq<T> { seq(n, _ => one) }

  lemma {:induction false} BurstIsOrdered(n: nat, now: int)
    ensures InOrder(now, Burst(n, Sample(now)))
  {
    if n > 0 {
      BurstIsOrdered(n - 1, now);
      assert Burst(n, Sample(now))[1..] == Burst(n - 1, Sample(now));
    }
  }

  lemma BurstStep(k: nat, now: int, p: Policy)
    requires Usable(p) && k < p.threshold
    ensures var (c, trips, _) := Recorded(Circuit(Burst(k, now), false), now, p);
            if k + 1 < p.threshold then c == Circuit(Burst(k + 1, now), false) else trips
  {
    assert Burst(k, now) + [now] == Burst(k + 1, now);
    AllRecent(Burst(k + 1, now), now - p.window);
  }

  lemma BurstTail<T>(n: nat, one: T)
    requires n > 0
    ensures Burst(n, one)[0] == one && Burst(n, one)[1..] == Burst(n - 1, one)
  {}

  lemma FiresUnfold(l: Ideal, ops: seq<Op>, window: int, threshold: int)
    requires ops != []
    ensures var (l', fire) := IdealStep(l, ops[0], window, threshold);
            IdealFires(l, ops, window, threshold) == [fire] + IdealFires(l', ops[1..], window, threshold)
  {}

  lemma TripsUnfold(c: Circuit, ops: seq<Op>, p: Policy)
    requires ops != []
    ensures var (c', trips) := CircuitStep(c, ops[0], p);
            CircuitTrips(c, ops, p) == [trips] + CircuitTrips(c', ops[1..], p)
  {}

  /** A burst of threshold restarts trips the circuit, k of them being recorded already. */
  lemma {:induction false} BurstTrips(k: nat, now: int, p: Policy)
    requires Usable(p) && k < p.threshold
    ensures true in CircuitTrips(Circuit(Burst(k, now), false), Burst(p.threshold - k, Sample(now)), p)
    decreases p.threshold - k
  {
    BurstTail(p.threshold - k, Sample(now));
    TripsUnfold(Circuit(Burst(k, now), false), Burst(p.threshold - k, Sample(now)), p);
    BurstStep(k, now, p);
    if k + 1 < p.threshold {
      BurstTrips(k + 1, now, p);
    }
  }

  predicate AgreeOn(p: Policy, ops: seq<Op>, clock: int) {
    InOrder(clock, ops) && Shared(ops) ==>
      TrackerFires(Watch([], false), ops, p.window, p.threshold) == CircuitTrips(Circuit([], false), ops, p)
  }

  lemma TwinsDisagreeAboveCap(p: Policy)
    requires Usable(p) && p.threshold > HISTORY_MAX
    ensures exists ops, clock :: !AgreeOn(p, ops, clock)
  {
    var ops := Burst(p.threshold, Sample(0));
    BurstIsOrdered(p.threshold, 0);
    BurstTrips(0, 0, p);
    assert Burst(0, 0) == [];
    TrackerIsBlindAboveCap(Watch([], false), ops, p.window, p.threshold);
    assert !AgreeOn(p, ops, 0);
  }

  /** On the same restarts, the twins always agree exactly when the threshold fits the tracker's cap. */
  lemma TwinsAgreeIff(p: Policy)
    requires Usable(p)
    ensures (forall ops, clock :: AgreeOn(p, ops, clock)) <==> p.threshold <= HISTORY_MAX
  {
    if p.threshold <= HISTORY_MAX {
      forall ops, clock
        ensures AgreeOn(p, ops, clock)
      {
        if InOrder(clock, ops) && Shared(ops) {
          TwinsAgree(ops, clock, p);
        }
      }
    } else {
      TwinsDisagreeAboveCap(p);
    }
  }

  // ---------------------------------------------------------------- the watcher and the stored alert

  /** One server's part of the tracker, and whether its alert is stored as open. */
  datatype Desk = Desk(w: Watch, alert: bool)

  /** What the watcher receives; stored says whether writing the alert works. */
  datatype Notice =
    | Tripped(stored: bool)
    | Recovered(stored: bool)
    | SweepDue(now: int)
    | Restarted(now: int, stored: bool)

  function Handled(d: Desk, n: Notice, enabled: bool, window: int, threshold: int): Desk {
    match n
    case Tripped(stored) => if stored then Desk(d.w.(alerted := true), true) else d
    case Recovered(stored) => Desk(Watch([], false), d.alert && !stored)
    case SweepDue(now) => Desk(Pruned(d.w, now, window), d.alert)
    case Restarted(now, stored) =>
      if !enabled then d
      else
        var (w, fire, _) := Sampled(d.w, now, window, threshold);
        if !fire then Desk(w, d.alert)
        else if stored then Desk(w, true)
        else Desk(w.(alerted := false), d.alert)
  }

  function HandledAll(d: Desk, ns: seq<Notice>, enabled: bool, window: int, threshold: int): Desk {
    if ns == [] then d
    else Handled(HandledAll(d, ns[..|ns| - 1], enabled, window, threshold), ns[|ns| - 1], enabled, window, threshold)
  }

  /**
   Over any run, whatever writes fail, the tracker counts a server as alerted only while its alert is
   stored as open.
  */
  lemma {:induction false} AlertedIsStored(d: Desk, ns: seq<Notice>, enabled: bool, window: int, threshold: int)
    requires d.w.alerted ==> d.alert
    ensures var d' := HandledAll(d, ns, enabled, window, threshold); d'.w.alerted ==> d'.alert
  {
    if ns != [] {
      AlertedIsStored(d, ns[..|ns| - 1], enabled, window, threshold);
    }
  }

  /**
   The circuit's transition and the restart that caused it arrive one after the other. When
   the first write of the alert fails, the second notice tries again, provided the tracker's
   own count has reached the threshold too: the alert is stored exactly if one of them works.
   */
  lemma TransitionIsRetried(d: Desk, now: int, window: int, threshold: int, first: bool, second: bool)
    requires !d.alert && !d.w.alerted && 0 < threshold <= HISTORY_MAX
    requires |Since(d.w.hist + [now], now - window)| >= threshold
    ensures var d' := Handled(Handled(d, Tripped(first), true, window, threshold), Restarted(now, second), true,
        window, threshold);
            (d'.alert <==> first || second) && (d'.w.alerted <==> d'.alert)
  {}

  // ---------------------------------------------------------------- seconds against nanoseconds

  function Seconds(log: seq<int>): (r: seq<int>)
    ensures |r| == |log| && forall i :: 0 <= i < |log| ==> r[i] == log[i] / SECOND
  {
    seq(|log|, i requires 0 <= i < |log| => log[i] / SECOND)
  }

  /** Older than the circuit's window, but in the second that the tracker still counts. */
  predicate InEdgeSecond(t: int, now: int, windowSec: int) {
    t < now - windowSec * SECOND && t / SECOND >= now / SECOND - windowSec
  }

  /**
   The tracker reads the clock in whole seconds, so it never counts less than the circuit,
   and counts the same exactly when no restart lies in the edge second.
   */
  lemma {:induction false} TrackerCountsNoLess(log: seq<int>, now: int, windowSec: int)
    ensures var circuit, tracker := |Since(log, now - windowSec * SECOND)|, |Since(Seconds(log),
        now / SECOND - windowSec)|;
            && circuit <= tracker
            && (circuit == tracker <==> forall i :: 0 <= i < |log| ==> !InEdgeSecond(log[i], now, windowSec))
  {
    if log != [] {
      var front, t := log[..|log| - 1], log[|log| - 1];
      assert Seconds(log)[..|log| - 1] == Seconds(front);
      TrackerCountsNoLess(front, now, windowSec);
      assert t >= now - windowSec * SECOND ==> t / SECOND >= now / SECOND - windowSec;
      assert forall i :: 0 <= i < |front| ==> log[i] == front[i];
    }
  }
}
