/**
 The fixed-window limiter for requests by address (internal/api/ratelimit.go). Times are
 whole seconds; window is the configured length in whole seconds.
 */
module RateLimit {
  import opened Collections

  /** What the limiter holds for one key. */
  datatype Entry = Gone | Live(count: int, reset: int)

  function Allowed(e: Entry, max: int, window: int, now: int): (Entry, bool) {
    if e.Gone? || now >= e.reset then (Live(1, now + window), true)
    else if e.count >= max then (e, false)
    else (e.(count := e.count + 1), true)
  }

  function Swept(e: Entry, now: int): Entry { if e.Live? && now >= e.reset then Gone else e }

  class RateLimiter {
    var m: map<string, (int, int)>
    const max: int
    const window: int

    function View(key: string): Entry
      reads this
    {
      if key in m then Live(m[key].0, m[key].1) else Gone
    }

    constructor (max: int, window: int)
      ensures this.max == max && this.window == window && m == map[]
    {
      this.max, this.window, m := max, window, map[];
    }

    method Allow(key: string, now: int) returns (ok: bool)
      modifies this`m
      ensures (View(key), ok) == Allowed(old(View(key)), max, window, now)
      ensures forall other :: other != key ==> View(other) == old(View(other))
    {
      if key !in m || now >= m[key].1 {
        m := m[key := (1, now + window)];
        return true;
      }
      if m[key].0 >= max {
        return false;
      }
      m := m[key := (m[key].0 + 1, m[key].1)];
      return true;
    }

    method Sweep(now: int)
      modifies this`m
      ensures forall key :: View(key) == Swept(old(View(key)), now)
    {
      var todo := m.Keys;
      while todo != {}
        invariant todo <= old(m.Keys)
        invariant forall key :: key in todo || key !in old(m.Keys) ==> View(key) == old(View(key))
        invariant forall key :: key in old(m.Keys) - todo ==> View(key) == Swept(old(View(key)), now)
        decreases |todo|
      {
        HasKey(todo);
        var key :| key in todo;
        assert View(key) == old(View(key));
        todo := todo - {key};
        if now >= m[key].1 {
          m := m - {key};
        }
      }
    }
  }

  // ---------------------------------------------------------------- runs of one key

  /** Calls of other keys do not touch the entry. */
  datatype Event = Call(now: int) | Sweep(now: int)

  predicate InOrder(clock: int, events: seq<Event>)
    decreases |events|
  {
    events == [] || (clock <= events[0].now && InOrder(events[0].now, events[1..]))
  }

  function Answers(e: Entry, events: seq<Event>, max: int, window: int): seq<bool>
    decreases |events|
  {
    if events == [] then []
    else if events[0].Sweep? then Answers(Swept(e, events[0].now), events[1..], max, window)
    else
      var (e', ok) := Allowed(e, max, window, events[0].now);
      [ok] + Answers(e', events[1..], max, window)
  }

  function Calls(events: seq<Event>): seq<Event>
    decreases |events|
  {
    if events == [] then [] else (if events[0].Call? then [events[0]] else []) + Calls(events[1..])
  }

  /** The same entry, or one that has been swept where the other has run out. */
  predicate Alike(swept: Entry, kept: Entry, clock: int) {
    swept == kept || (swept.Gone? && kept.Live? && kept.reset <= clock)
  }

  /** Sweeping, however often and whenever, never changes an answer. */
  lemma {:induction false} SweepsAreInvisible(swept: Entry, kept: Entry, clock: int, events: seq<Event>, max: int,
      window: int)
    requires InOrder(clock, events) && Alike(swept, kept, clock)
    ensures Answers(swept, events, max, window) == Answers(kept, Calls(events), max, window)
    decreases |events|
  {
    if events != [] {
      var now := events[0].now;
      if events[0].Sweep? {
        assert Calls(events) == Calls(events[1..]);
        SweepsAreInvisible(Swept(swept, now), kept, now, events[1..], max, window);
      } else {
        var (s', ok) := Allowed(swept, max, window, now);
        var (k', also) := Allowed(kept, max, window, now);
        assert ok == also && s' == k';
        assert Calls(events)[0] == events[0] && Calls(events)[1..] == Calls(events[1..]);
        SweepsAreInvisible(s', k', now, events[1..], max, window);
      }
    }
  }

  // ---------------------------------------------------------------- how much gets through

  /** The times of the calls admitted, in order. */
  datatype Track = Track(e: Entry, log: seq<int>)

  function Step(t: Track, event: Event, max: int, window: int): Track {
    match event
    case Sweep(now) => t.(e := Swept(t.e, now))
    case Call(now) =>
      var (e', ok) := Allowed(t.e, max, window, now);
      Track(e', if ok then t.log + [now] else t.log)
  }

  function Exec(t: Track, events: seq<Event>, max: int, window: int): Track
    decreases |events|
  {
    if events == [] then t else Exec(Step(t, events[0], max, window), events[1..], max, window)
  }

  const FRESH := Track(Gone, [])

  /** A limit below one still lets the first call of each window through. */
  function Limit(max: int): int { if max < 1 then 1 else max }

  /** Where the window of the i-th admitted call began: a call opens a new one once the last has run out. */
  function Start(log: seq<int>, window: int, i: nat): (s: nat)
    requires i < |log|
    ensures s <= i
  {
    if i == 0 || log[i] >= log[Start(log, window, i - 1)] + window then i else Start(log, window, i - 1)
  }

  lemma {:induction false} StartOfPrefix(log: seq<int>, now: int, window: int, i: nat)
    requires i < |log|
    ensures Start(log + [now], window, i) == Start(log, window, i)
  {
    if i > 0 {
      StartOfPrefix(log, now, window, i - 1);
    }
  }

  lemma {:induction false} StartIsStart(log: seq<int>, window: int, j: nat)
    requires j < |log|
    ensures var c := Start(log, window, j);
            c == 0 || log[c] >= log[Start(log, window, c - 1)] + window
  {
    if j > 0 && Start(log, window, j) < j {
      StartIsStart(log, window, j - 1);
    }
  }

  ghost predicate Bounded(log: seq<int>, max: int, window: int) {
    forall i :: 0 <= i < |log| ==> i - Start(log, window, i) < Limit(max)
  }

  /** The entry counts the calls of the last window, until that has run out. */
  predicate Counts(t: Track, window: int, clock: int) {
    if t.log == [] then t.e.Gone?
    else
      var last := |t.log| - 1;
      var b := Start(t.log, window, last);
      t.e == Live(last - b + 1, t.log[b] + window) || (t.e.Gone? && t.log[b] + window <= clock)
  }

  ghost predicate Inv(t: Track, max: int, window: int, clock: int) {
    && Sorted(t.log) && (t.log != [] ==> t.log[|t.log| - 1] <= clock)
    && Bounded(t.log, max, window) && Counts(t, window, clock)
  }

  /** Where the new call's window began, and what the entry says of it. */
  lemma AdmittedStart(t: Track, now: int, max: int, window: int, clock: int)
    requires Inv(t, max, window, clock) && clock <= now && Allowed(t.e, max, window, now).1
    ensures var log, n, e := t.log + [now], |t.log|, Allowed(t.e, max, window, now).0;
            var b := Start(log, window, n);
            e == Live(n - b + 1, log[b] + window) && n - b < Limit(max)
  {
    var log, n := t.log + [now], |t.log|;
    if n > 0 {
      StartOfPrefix(t.log, now, window, n - 1);
      var b := Start(t.log, window, n - 1);
      assert Start(log, window, n - 1) == b && log[b] == t.log[b];
    }
  }

  lemma AdmitKeeps(t: Track, now: int, max: int, window: int, clock: int)
    requires Inv(t, max, window, clock) && clock <= now && Allowed(t.e, max, window, now).1
    ensures Inv(Track(Allowed(t.e, max, window, now).0, t.log + [now]), max, window, now)
  {
    AdmittedStart(t, now, max, window, clock);
    var log := t.log + [now];
    forall i | 0 <= i < |log|
      ensures i - Start(log, window, i) < Limit(max)
    {
      if i < |t.log| {
        StartOfPrefix(t.log, now, window, i);
      }
    }
  }

  lemma StepKeeps(t: Track, event: Event, max: int, window: int, clock: int)
    requires Inv(t, max, window, clock) && clock <= event.now
    ensures Inv(Step(t, event, max, window), max, window, event.now)
  {
    if event.Call? && Allowed(t.e, max, window, event.now).1 {
      AdmitKeeps(t, event.now, max, window, clock);
    }
  }

  lemma {:induction false} Always(t: Track, events: seq<Event>, max: int, window: int, clock: int) returns (end: int)
    requires Inv(t, max, window, clock) && InOrder(clock, events)
    ensures Inv(Exec(t, events, max, window), max, window, end)
    decreases |events|
  {
    if events == [] {
      end := clock;
    } else {
      StepKeeps(t, events[0], max, window, clock);
      end := Always(Step(t, events[0], max, window), events[1..], max, window, events[0].now);
    }
  }

  /** Calls admitted within less than one window's length belong to at most two windows. */
  lemma TwoWindows(log: seq<int>, max: int, window: int, i: nat, j: nat)
    requires Sorted(log) && Bounded(log, max, window) && i <= j < |log| && log[j] < log[i] + window
    ensures j - i + 1 <= 2 * Limit(max) - 1
  {
    var c := Start(log, window, j);
    if c > i {
      StartIsStart(log, window, j);
      var d := Start(log, window, c - 1);
      assert log[c] <= log[j];
      assert d < i;
    }
  }

  /**
   Over any run with a clock that does not go back, every half-open interval as long as the
   window admits at most 2 * max - 1 calls of a key (one, if max is below one).
   */
  lemma AtMostTwiceLessOne(events: seq<Event>, clock: int, max: int, window: int, i: nat, j: nat)
    requires InOrder(clock, events)
    requires i <= j < |Exec(FRESH, events, max, window).log|
    requires Exec(FRESH, events, max, window).log[j] < Exec(FRESH, events, max, window).log[i] + window
    ensures j - i + 1 <= 2 * Limit(max) - 1
  {
    var _ := Always(FRESH, events, max, window, clock);
    TwoWindows(Exec(FRESH, events, max, window).log, max, window, i, j);
  }

  // ---------------------------------------------------------------- the bound is reached

  function CallsAt(n: nat, now: int): seq<Event> { seq(n, _ => Call(now)) }

  function Times(n: nat, now: int): seq<int> { seq(n, _ => now) }

  lemma {:induction false} ExecJoins(t: Track, a: seq<Event>, b: seq<Event>, max: int, window: int)
    ensures Exec(t, a + b, max, window) == Exec(Exec(t, a, max, window), b, max, window)
    decreases |a|
  {
    if a == [] {
      assert a + b == b;
    } else {
      assert (a + b)[0] == a[0] && (a + b)[1..] == a[1..] + b;
      ExecJoins(Step(t, a[0], max, window), a[1..], b, max, window);
    }
  }

  /** Calls are let through while the window has room. */
  lemma {:induction false} Filled(log: seq<int>, count: int, reset: int, n: nat, now: int, max: int, window: int)
    requires now < reset && count + n <= max
    ensures Exec(Track(Live(count, reset), log), CallsAt(n, now), max, window) == Track(Live(count + n, reset),
        log + Times(n, now))
    decreases n
  {
    if n == 0 {
      assert log + Times(n, now) == log;
    } else {
      assert CallsAt(n, now)[1..] == CallsAt(n - 1, now);
      Filled(log + [now], count + 1, reset, n - 1, now, max, window);
      assert log + [now] + Times(n - 1, now) == log + Times(n, now);
    }
  }

  /** One call opens a window, the rest of it passes in its last second, and a whole one right after. */
  function Squeeze(max: nat, window: int, t0: int): seq<Event>
    requires max >= 1
  {
    CallsAt(1, t0) + CallsAt(max - 1, t0 + window - 1) + CallsAt(max, t0 + window)
  }

  /** A whole window's worth of calls at one moment, once the last window has run out. */
  lemma Opened(t: Track, n: nat, now: int, max: int, window: int)
    requires (t.e.Gone? || now >= t.e.reset) && 1 <= n <= max && window >= 1
    ensures Exec(t, CallsAt(n, now), max, window) == Track(Live(n, now + window), t.log + [now] + Times(n - 1, now))
  {
    assert CallsAt(n, now)[1..] == CallsAt(n - 1, now);
    Filled(t.log + [now], 1, now + window, n - 1, now, max, window);
  }

  lemma SqueezeFills(t: Track, max: nat, window: int, t0: int)
    requires t.e.Gone? && t.log == [] && max >= 1 && window >= 1
    ensures Exec(t, CallsAt(1, t0) + CallsAt(max - 1, t0 + window - 1), max, window) ==
            Track(Live(max, t0 + window), [t0] + Times(max - 1, t0 + window - 1))
  {
    ExecJoins(t, CallsAt(1, t0), CallsAt(max - 1, t0 + window - 1), max, window);
    Opened(t, 1, t0, max, window);
    assert t.log + [t0] + Times(0, t0) == [t0];
    Filled([t0], 1, t0 + window, max - 1, t0 + window - 1, max, window);
  }

  lemma ExecInTwo(t: Track, a: seq<Event>, b: seq<Event>, mid: Track, end: Track, max: int, window: int)
    requires Exec(t, a, max, window) == mid && Exec(mid, b, max, window) == end
    ensures Exec(t, a + b, max, window) == end
  {
    ExecJoins(t, a, b, max, window);
  }

  lemma SqueezePasses(t: Track, max: nat, window: int, t0: int)
    requires t.e.Gone? && t.log == [] && max >= 1 && window >= 1
    ensures Exec(t, Squeeze(max, window, t0), max, window).log ==
            [t0] + Times(max - 1, t0 + window - 1) + [t0 + window] + Times(max - 1, t0 + window)
  {
    var front, back := CallsAt(1, t0) + CallsAt(max - 1, t0 + window - 1), CallsAt(max, t0 + window);
    var full := Track(Live(max, t0 + window), [t0] + Times(max - 1, t0 + window - 1));
    SqueezeFills(t, max, window, t0);
    Opened(full, max, t0 + window, max, window);
    var end := Track(Live(max, t0 + window + window), full.log + [t0 + window] + Times(max - 1, t0 + window));
    ExecInTwo(t, front, back, full, end, max, window);
  }

  lemma SqueezeInOrder(max: nat, window: int, t0: int)
    requires max >= 1 && window >= 1
    ensures InOrder(t0, Squeeze(max, window, t0))
  {
    var opening, rest, next := CallsAt(1, t0), CallsAt(max - 1, t0 + window - 1), CallsAt(max, t0 + window);
    CallsInOrder(t0 + window - 1, max, t0 + window, []);
    assert next + [] == next;
    CallsInOrder(t0, max - 1, t0 + window - 1, next);
    CallsInOrder(t0, 1, t0, rest + next);
    assert Squeeze(max, window, t0) == opening + (rest + next);
  }

  lemma SqueezeIsTogether(max: nat, window: int, t0: int)
    requires max >= 1 && window >= 2
    ensures Together(Squeeze(max, window, t0), t0, max, window, 1, 2 * max - 1)
  {
    SqueezePasses(FRESH, max, window, t0);
    SqueezeInOrder(max, window, t0);
    var log := Exec(FRESH, Squeeze(max, window, t0), max, window).log;
    assert log[2 * max - 1] == t0 + window && log[1] >= t0 + window - 1;
  }

  /** The bound is the best one: 2 * max - 1 calls can pass within less than the window's length. */
  lemma BoundIsReached(max: nat, window: int, t0: int)
    requires max >= 1 && window >= 2
    ensures exists events, i: nat, j: nat :: Together(events, t0, max, window, i, j) && j - i + 1 == 2 * max - 1
  {
    SqueezeIsTogether(max, window, t0);
  }

  /** Calls i to j of a run are admitted within less than the window's length. */
  ghost predicate Together(events: seq<Event>, clock: int, max: int, window: int, i: nat, j: nat) {
    var log := Exec(FRESH, events, max, window).log;
    InOrder(clock, events) && i <= j < |log| && log[j] < log[i] + window
  }

  /** In windows of one unit, a call that opens one is later than the call before it. */
  lemma OpensLater(log: seq<int>, window: int, j: nat)
    requires window == 1 && j < |log|
    ensures var c := Start(log, window, j); c > 0 ==> log[c - 1] < log[c]
  {
    var c := Start(log, window, j);
    if c > 0 {
      StartIsStart(log, window, j);
      var d := Start(log, window, c - 1);
      assert d == c - 1 || log[c - 1] < log[d] + window;
    }
  }

  /** So calls that pass together in windows of one unit or less belong to one window. */
  lemma OneWindow(log: seq<int>, max: int, window: int, i: nat, j: nat)
    requires Sorted(log) && Bounded(log, max, window) && window <= 1 && i <= j < |log| && log[j] < log[i] + window
    ensures j - i + 1 <= Limit(max)
  {
    assert i == j || log[i] <= log[j];
    OpensLater(log, window, j);
  }

  /** No window's length ever sees more than the limit, over all runs, exactly if limit or window is at most one. */
  lemma LimitHoldsIff(max: int, window: int)
    ensures (forall events, clock, i: nat, j: nat :: Together(events, clock, max, window, i, j) ==>
               j - i + 1 <= Limit(max)) <==> max <= 1 || window <= 1
  {
    if max <= 1 || window <= 1 {
      forall events, clock, i: nat, j: nat | Together(events, clock, max, window, i, j)
        ensures j - i + 1 <= Limit(max)
      {
        if max <= 1 {
          AtMostTwiceLessOne(events, clock, max, window, i, j);
        } else {
          var _ := Always(FRESH, events, max, window, clock);
          OneWindow(Exec(FRESH, events, max, window).log, max, window, i, j);
        }
      }
    } else {
      var events := Squeeze(max, window, 0);
      SqueezeIsTogether(max, window, 0);
      assert Together(events, 0, max, window, 1, 2 * max - 1);
    }
  }

  lemma {:induction false} CallsInOrder(clock: int, n: nat, now: int, tail: seq<Event>)
    requires clock <= now && InOrder(now, tail)
    ensures InOrder(clock, CallsAt(n, now) + tail)
    decreases n
  {
    if n == 0 {
      assert CallsAt(n, now) + tail == tail;
      LaterIsInOrder(clock, now, tail);
    } else {
      CallsInOrder(now, n - 1, now, tail);
      assert (CallsAt(n, now) + tail)[1..] == CallsAt(n - 1, now) + tail;
    }
  }

  lemma LaterIsInOrder(clock: int, now: int, events: seq<Event>)
    requires clock <= now && InOrder(now, events)
    ensures InOrder(clock, events)
  {}
}
