/**
 When a queued plan will start at the latest (internal/api/user.go). A user's plans form
 renewal lines; in each line the usable plans hold the slot, and the queued ones follow in
 the order of the list, each for its own number of days.
 */
module QueueActivations {
  import opened Collections
  import opened Text

  datatype Status = Queued | Active | Ended

  /** quota: some of the traffic is left. periodic: the traffic refills. expiry is 0 for a plan without an end. */
  datatype Bucket = Bucket(
    id: int, plan: bool, packageId: int, queueKey: string, status: Status, expiry: int, days: int, quota: bool,
        periodic: bool)

  const DAY: int := 86400

  predicate Counts(b: Bucket) { b.plan && b.packageId > 0 }

  function KeyOf(b: Bucket): string
    requires Counts(b)
  {
    if b.queueKey == "" then "pkg:" + Decimal(b.packageId) else b.queueKey
  }

  predicate InLine(b: Bucket, key: string) { Counts(b) && KeyOf(b) == key }

  predicate Waits(b: Bucket, key: string) { InLine(b, key) && b.status.Queued? }

  predicate NotExpired(b: Bucket, now: int) { b.expiry == 0 || b.expiry > now }

  predicate Heads(b: Bucket, key: string, now: int) {
    InLine(b, key) && b.status.Active? && NotExpired(b, now) && (b.quota || b.periodic)
  }

  // ---------------------------------------------------------------- what a line promises

  predicate HasHead(bs: seq<Bucket>, n: nat, key: string, now: int)
    requires n <= |bs|
  {
    exists m :: 0 <= m < n && Heads(bs[m], key, now)
  }

  /** The latest end among the usable plans; 0 if none of them ends. */
  function Base(bs: seq<Bucket>, n: nat, key: string, now: int): (r: int)
    requires n <= |bs|
    ensures r >= 0
  {
    if n == 0 then 0
    else
      var rest := Base(bs, n - 1, key, now);
      if Heads(bs[n - 1], key, now) && bs[n - 1].expiry > rest then bs[n - 1].expiry else rest
  }

  lemma {:induction false} BaseIsLatest(bs: seq<Bucket>, n: nat, key: string, now: int)
    requires n <= |bs|
    ensures forall m :: 0 <= m < n && Heads(bs[m], key, now) ==> bs[m].expiry <= Base(bs, n, key, now)
    ensures Base(bs, n, key, now) > 0 ==>
          exists m :: 0 <= m < n && Heads(bs[m], key, now) && bs[m].expiry == Base(bs, n, key, now)
  {
    if n > 0 {
      BaseIsLatest(bs, n - 1, key, now);
    }
  }

  /** The days of the queued plans of the line among the first n. */
  function Ahead(bs: seq<Bucket>, n: nat, key: string): int
    requires n <= |bs|
  {
    if n == 0 then 0 else Ahead(bs, n - 1, key) + if Waits(bs[n - 1], key) then bs[n - 1].days else 0
  }

  /** 0: unknown, because the plan in the slot never ends. Without a plan in the slot, now. */
  function DueAt(bs: seq<Bucket>, m: nat, now: int): int
    requires m < |bs| && Counts(bs[m])
  {
    var key := KeyOf(bs[m]);
    var head, base := HasHead(bs, |bs|, key, now), Base(bs, |bs|, key, now);
    if head && base == 0 then 0 else (if head then base else now) + DAY * Ahead(bs, m, key)
  }

  // ---------------------------------------------------------------- the computation

  /** queued holds positions in the list of buckets. */
  datatype Line = Line(base: int, hasHead: bool, queued: seq<nat>)

  ghost predicate QueueOf(bs: seq<Bucket>, n: nat, key: string, queued: seq<nat>)
    requires n <= |bs|
  {
    && (forall k :: 0 <= k < |queued| ==> queued[k] < n && Waits(bs[queued[k]], key))
    && (forall j, k :: 0 <= j < k < |queued| ==> queued[j] < queued[k])
    && (forall m: nat :: m < n && Waits(bs[m], key) ==> m in queued)
  }

  ghost predicate LineOf(bs: seq<Bucket>, n: nat, key: string, now: int, l: Line)
    requires n <= |bs|
  {
    l.base == Base(bs, n, key, now) && l.hasHead == HasHead(bs, n, key, now) && QueueOf(bs, n, key, l.queued)
  }

  ghost predicate LinesOf(bs: seq<Bucket>, n: nat, now: int, lines: map<string, Line>)
    requires n <= |bs|
  {
    && (forall key :: key in lines ==> LineOf(bs, n, key, now, lines[key]))
    && (forall m :: 0 <= m < n && Counts(bs[m]) ==> KeyOf(bs[m]) in lines)
  }

  lemma LineStays(bs: seq<Bucket>, n: nat, key: string, now: int, l: Line)
    requires n < |bs| && LineOf(bs, n, key, now, l) && !InLine(bs[n], key)
    ensures LineOf(bs, n + 1, key, now, l)
  {}

  lemma LinesStay(bs: seq<Bucket>, n: nat, now: int, lines: map<string, Line>)
    requires n < |bs| && LinesOf(bs, n, now, lines)
    ensures forall key :: key in lines && !InLine(bs[n], key) ==> LineOf(bs, n + 1, key, now, lines[key])
  {
    forall key | key in lines && !InLine(bs[n], key)
      ensures LineOf(bs, n + 1, key, now, lines[key])
    {
      LineStays(bs, n, key, now, lines[key]);
    }
  }

  lemma NewLine(bs: seq<Bucket>, n: nat, key: string, now: int)
    requires n <= |bs| && forall m :: 0 <= m < n ==> !InLine(bs[m], key)
    ensures LineOf(bs, n, key, now, Line(0, false, []))
  {
    BaseIsLatest(bs, n, key, now);
  }

  lemma WaitingExtends(bs: seq<Bucket>, n: nat, key: string, now: int, l: Line)
    requires n < |bs| && LineOf(bs, n, key, now, l) && Waits(bs[n], key)
    ensures LineOf(bs, n + 1, key, now, l.(queued := l.queued + [n]))
  {
    OneMoreWaits(bs, n, key, l.queued);
    assert !Heads(bs[n], key, now);
  }

  lemma HeadExtends(bs: seq<Bucket>, n: nat, key: string, now: int, l: Line)
    requires n < |bs| && LineOf(bs, n, key, now, l) && Heads(bs[n], key, now)
    ensures LineOf(bs, n + 1, key, now,
              l.(hasHead := true, base := if bs[n].expiry > l.base then bs[n].expiry else l.base))
  {}

  lemma OtherExtends(bs: seq<Bucket>, n: nat, key: string, now: int, l: Line)
    requires n < |bs| && LineOf(bs, n, key, now, l) && !Heads(bs[n], key, now) && !Waits(bs[n], key)
    ensures LineOf(bs, n + 1, key, now, l)
  {}

  lemma OneMoreWaits(bs: seq<Bucket>, n: nat, key: string, queued: seq<nat>)
    requires n < |bs| && Waits(bs[n], key) && QueueOf(bs, n, key, queued)
    ensures QueueOf(bs, n + 1, key, queued + [n])
  {
    var more := queued + [n];
    assert more[|queued|] == n;
    forall m: nat | m < n + 1 && Waits(bs[m], key)
      ensures m in more
    {
      if m < n {
        assert m in queued;
      }
    }
  }

  method Extend(bs: seq<Bucket>, n: nat, now: int, l: Line) returns (r: Line)
    requires n < |bs| && Counts(bs[n]) && LineOf(bs, n, KeyOf(bs[n]), now, l)
    ensures LineOf(bs, n + 1, KeyOf(bs[n]), now, r)
  {
    var b := bs[n];
    r := l;
    if b.status.Queued? {
      r := r.(queued := r.queued + [n]);
      WaitingExtends(bs, n, KeyOf(b), now, l);
    } else if b.status.Active? && NotExpired(b, now) && (b.quota || b.periodic) {
      HeadExtends(bs, n, KeyOf(b), now, l);
      r := r.(hasHead := true, base := if b.expiry > r.base then b.expiry else r.base);
    } else {
      OtherExtends(bs, n, KeyOf(b), now, l);
    }
  }

  method CollectLines(bs: seq<Bucket>, now: int) returns (lines: map<string, Line>)
    ensures LinesOf(bs, |bs|, now, lines)
  {
    lines := map[];
    for n := 0 to |bs|
      invariant LinesOf(bs, n, now, lines)
      invariant forall key :: key in lines ==> exists m :: 0 <= m < n && InLine(bs[m], key)
    {
      var b := bs[n];
      LinesStay(bs, n, now, lines);
      if Counts(b) {
        var key := KeyOf(b);
        if key !in lines {
          NewLine(bs, n, key, now);
        }
        var l := Extend(bs, n, now, if key in lines then lines[key] else Line(0, false, []));
        lines := lines[key := l];
        assert InLine(bs[n], key);
      }
    }
  }

  ghost predicate UniqueIds(bs: seq<Bucket>) {
    forall i, j :: 0 <= i < j < |bs| ==> bs[i].id != bs[j].id
  }

  /** The days of the first k queued plans are those ahead of the next one. */
  lemma {:induction false} AheadOfNone(bs: seq<Bucket>, a: nat, n: nat, key: string)
    requires a <= n <= |bs| && forall m :: a <= m < n ==> !Waits(bs[m], key)
    ensures Ahead(bs, n, key) == Ahead(bs, a, key)
    decreases n
  {
    if a < n {
      AheadOfNone(bs, a, n - 1, key);
    }
  }

  lemma NextInQueue(bs: seq<Bucket>, key: string, queued: seq<nat>, k: nat)
    requires QueueOf(bs, |bs|, key, queued) && k < |queued|
    ensures k == 0 ==> Ahead(bs, queued[k], key) == 0
    ensures k + 1 < |queued| ==> Ahead(bs, queued[k + 1], key) == Ahead(bs, queued[k], key) + bs[queued[k]].days
  {
    if k == 0 {
      forall m | 0 <= m < queued[0]
        ensures !Waits(bs[m], key)
      {}
      AheadOfNone(bs, 0, queued[0], key);
    }
    if k + 1 < |queued| {
      forall m | queued[k] + 1 <= m < queued[k + 1]
        ensures !Waits(bs[m], key)
      {
        if Waits(bs[m], key) {
          var j :| 0 <= j < |queued| && queued[j] == m;
          assert false;
        }
      }
      AheadOfNone(bs, queued[k] + 1, queued[k + 1], key);
    }
  }

  predicate Waiting(b: Bucket, id: int) { Counts(b) && b.status.Queued? && b.id == id }

  /** Where each id stands in the list. */
  ghost predicate Positions(bs: seq<Bucket>, pos: map<int, nat>) {
    forall m :: 0 <= m < |bs| ==> bs[m].id in pos && pos[bs[m].id] == m
  }

  /** The answers to be given, by position. */
  ghost predicate Expected(bs: seq<Bucket>, now: int, due: seq<int>) {
    |due| == |bs| && forall m :: 0 <= m < |bs| && Counts(bs[m]) ==> due[m] == DueAt(bs, m, now)
  }

  /** The plans of the lines in done have their answer, and nothing else has one. */
  ghost predicate Filled(bs: seq<Bucket>, due: seq<int>, pos: map<int, nat>, done: set<string>, out: map<int, int>)
    requires |due| == |bs|
  {
    && (forall m :: 0 <= m < |bs| && Counts(bs[m]) && bs[m].status.Queued? && KeyOf(bs[m]) in done ==>
          bs[m].id in out && out[bs[m].id] == due[m])
    && (forall id :: id in out ==>
          id in pos && pos[id] < |bs| && Waiting(bs[pos[id]], id) && KeyOf(bs[pos[id]]) in done)
  }

  /** The first k plans of the queue have their answers, beside those given before. */
  ghost predicate Partly(bs: seq<Bucket>, due: seq<int>, pos: map<int, nat>, queued: seq<nat>, was: map<int, int>,
      out: map<int, int>, k: nat)
    requires k <= |queued| && |due| == |bs| && forall j :: 0 <= j < |queued| ==> queued[j] < |bs|
  {
    && (forall j :: 0 <= j < k ==> bs[queued[j]].id in out && out[bs[queued[j]].id] == due[queued[j]])
    && (forall id :: id in was ==> id in out && out[id] == was[id])
    && (forall id :: id in out && id !in was ==> id in pos && pos[id] in queued && bs[pos[id]].id == id)
  }

  lemma PartlyStep(bs: seq<Bucket>, due: seq<int>, pos: map<int, nat>, key: string, queued: seq<nat>,
                   was: map<int, int>, out: map<int, int>, k: nat, done: set<string>)
    requires |due| == |bs| && Positions(bs, pos) && QueueOf(bs, |bs|, key, queued)
    requires Filled(bs, due, pos, done, was) && key !in done
    requires k < |queued| && Partly(bs, due, pos, queued, was, out, k)
    ensures Partly(bs, due, pos, queued, was, out[bs[queued[k]].id := due[queued[k]]], k + 1)
  {}

  lemma PartlyEnds(bs: seq<Bucket>, due: seq<int>, pos: map<int, nat>, key: string, queued: seq<nat>,
                   was: map<int, int>, out: map<int, int>, done: set<string>)
    requires |due| == |bs| && QueueOf(bs, |bs|, key, queued)
    requires Filled(bs, due, pos, done, was) && Partly(bs, due, pos, queued, was, out, |queued|)
    ensures Filled(bs, due, pos, done + {key}, out)
  {}

  /** The moment the slot becomes free, if that is known. */
  function Start(l: Line, now: int): int { if !l.hasHead then now else l.base }

  predicate Known(l: Line) { !l.hasHead || l.base != 0 }

  ghost predicate Dues(bs: seq<Bucket>, now: int, key: string, l: Line, due: seq<int>)
    requires |due| == |bs| && forall j :: 0 <= j < |l.queued| ==> l.queued[j] < |bs|
  {
    forall k :: 0 <= k < |l.queued| ==>
      due[l.queued[k]] == if Known(l) then Start(l, now) + DAY * Ahead(bs, l.queued[k], key) else 0
  }

  lemma DuesOfLine(bs: seq<Bucket>, now: int, key: string, l: Line, due: seq<int>)
    requires Expected(bs, now, due) && LineOf(bs, |bs|, key, now, l)
    ensures QueueOf(bs, |bs|, key, l.queued) && Dues(bs, now, key, l, due)
  {}

  /** The running sum of the queue. */
  ghost predicate CursorAt(bs: seq<Bucket>, key: string, queued: seq<nat>, start: int, cursor: int, k: nat)
    requires forall j :: 0 <= j < |queued| ==> queued[j] < |bs|
  {
    k < |queued| ==> cursor == start + DAY * Ahead(bs, queued[k], key)
  }

  lemma CursorMoves(bs: seq<Bucket>, key: string, queued: seq<nat>, start: int, cursor: int, k: nat)
    requires QueueOf(bs, |bs|, key, queued)
    ensures CursorAt(bs, key, queued, start, start, 0)
    ensures k < |queued| && CursorAt(bs, key, queued, start, cursor, k) ==>
              CursorAt(bs, key, queued, start, cursor + bs[queued[k]].days * DAY, k + 1)
  {
    if queued != [] {
      NextInQueue(bs, key, queued, 0);
    }
    if k < |queued| {
      NextInQueue(bs, key, queued, k);
    }
  }

  /** The first k plans have their answers, and the cursor stands at the next one. */
  ghost predicate Midway(bs: seq<Bucket>, now: int, key: string, l: Line, due: seq<int>, pos: map<int, nat>,
                         was: map<int, int>, out: map<int, int>, cursor: int, k: nat)
    requires k <= |l.queued| && |due| == |bs| && forall j :: 0 <= j < |l.queued| ==> l.queued[j] < |bs|
  {
    (Known(l) ==> CursorAt(bs, key, l.queued, Start(l, now), cursor, k)) && Partly(bs, due, pos, l.queued, was, out, k)
  }

  lemma Turn(bs: seq<Bucket>, now: int, key: string, l: Line, due: seq<int>, pos: map<int, nat>,
             was: map<int, int>, out: map<int, int>, done: set<string>, cursor: int, k: nat)
    requires |due| == |bs| && Positions(bs, pos) && QueueOf(bs, |bs|, key, l.queued) && Dues(bs, now, key, l, due)
    requires Filled(bs, due, pos, done, was) && key !in done
    requires k < |l.queued| && Midway(bs, now, key, l, due, pos, was, out, cursor, k)
    ensures var b := bs[l.queued[k]];
            Midway(bs, now, key, l, due, pos, was, out[b.id := if Known(l) then cursor else 0],
              cursor + b.days * DAY, k + 1)
  {
    TurnGives(bs, now, key, l, due, cursor, k);
    PartlyStep(bs, due, pos, key, l.queued, was, out, k, done);
    CursorMoves(bs, key, l.queued, Start(l, now), cursor, k);
  }

  lemma TurnGives(bs: seq<Bucket>, now: int, key: string, l: Line, due: seq<int>, cursor: int, k: nat)
    requires |due| == |bs| && QueueOf(bs, |bs|, key, l.queued) && Dues(bs, now, key, l, due) && k < |l.queued|
    requires Known(l) ==> CursorAt(bs, key, l.queued, Start(l, now), cursor, k)
    ensures due[l.queued[k]] == if Known(l) then cursor else 0
  {}

  /** One line's queue, in order, from the moment the slot becomes free. */
  method FillLine(bs: seq<Bucket>, now: int, key: string, l: Line, was: map<int, int>,
                  ghost due: seq<int>, ghost pos: map<int, nat>, ghost done: set<string>)
    returns (out: map<int, int>)
    requires |due| == |bs| && Positions(bs, pos) && QueueOf(bs, |bs|, key, l.queued) && Dues(bs, now, key, l, due)
    requires Filled(bs, due, pos, done, was) && key !in done
    ensures Filled(bs, due, pos, done + {key}, out)
  {
    out := was;
    var cursor := Start(l, now);
    CursorMoves(bs, key, l.queued, Start(l, now), cursor, 0);
    for k := 0 to |l.queued|
      invariant Midway(bs, now, key, l, due, pos, was, out, cursor, k)
    {
      Turn(bs, now, key, l, due, pos, was, out, done, cursor, k);
      var b := bs[l.queued[k]];
      out := out[b.id := if Known(l) then cursor else 0];
      cursor := cursor + b.days * DAY;
    }
    PartlyEnds(bs, due, pos, key, l.queued, was, out, done);
  }

  /** The lines, in any order. */
  method FillLines(bs: seq<Bucket>, now: int, lines: map<string, Line>, ghost due: seq<int>, ghost pos: map<int, nat>)
    returns (out: map<int, int>)
    requires Expected(bs, now, due) && Positions(bs, pos)
    requires forall key :: key in lines ==> LineOf(bs, |bs|, key, now, lines[key])
    ensures Filled(bs, due, pos, lines.Keys, out)
  {
    out := map[];
    var todo := lines.Keys;
    ghost var done: set<string> := {};
    while todo != {}
      invariant forall key :: key in lines <==> key in todo || key in done
      invariant forall key :: key in todo ==> key !in done
      invariant Filled(bs, due, pos, done, out)
      decreases |todo|
    {
      HasKey(todo);
      var key :| key in todo;
      DuesOfLine(bs, now, key, lines[key], due);
      out := FillLine(bs, now, key, lines[key], out, due, pos, done);
      todo := todo - {key};
      done := done + {key};
    }
    assert done == lines.Keys;
  }

  lemma FindPositions(bs: seq<Bucket>) returns (pos: map<int, nat>)
    requires UniqueIds(bs)
    ensures Positions(bs, pos)
  {
    pos := map[];
    for n := 0 to |bs|
      invariant forall m :: 0 <= m < n ==> bs[m].id in pos && pos[bs[m].id] == m
    {
      pos := pos[bs[n].id := n];
    }
  }

  lemma FindExpected(bs: seq<Bucket>, now: int) returns (due: seq<int>)
    ensures Expected(bs, now, due)
  {
    due := seq(|bs|, m requires 0 <= m < |bs| => if Counts(bs[m]) then DueAt(bs, m, now) else 0);
  }

  /**
   Every queued plan of a line, and nothing else, gets the end of the plan in the slot (now,
   if the slot is free) plus the days of the queued plans before it in its line; or 0 if the
   plan in the slot never ends.
   */
  method QueueActivations(bs: seq<Bucket>, now: int) returns (out: map<int, int>)
    requires UniqueIds(bs)
    ensures forall m :: 0 <= m < |bs| && Counts(bs[m]) && bs[m].status.Queued? ==>
              bs[m].id in out && out[bs[m].id] == DueAt(bs, m, now)
    ensures forall id :: id in out ==> exists m :: 0 <= m < |bs| && Waiting(bs[m], id)
  {
    ghost var pos := FindPositions(bs);
    ghost var due := FindExpected(bs, now);
    var lines := CollectLines(bs, now);
    out := FillLines(bs, now, lines, due, pos);
    FilledAll(bs, now, due, pos, lines.Keys, out);
  }

  lemma FilledAll(bs: seq<Bucket>, now: int, due: seq<int>, pos: map<int, nat>, keys: set<string>, out: map<int, int>)
    requires Expected(bs, now, due) && Filled(bs, due, pos, keys, out)
    requires forall m :: 0 <= m < |bs| && Counts(bs[m]) ==> KeyOf(bs[m]) in keys
    ensures forall m :: 0 <= m < |bs| && Counts(bs[m]) && bs[m].status.Queued? ==>
              bs[m].id in out && out[bs[m].id] == DueAt(bs, m, now)
    ensures forall id :: id in out ==> exists m :: 0 <= m < |bs| && Waiting(bs[m], id)
  {}

  // ---------------------------------------------------------------- what the answer means

  lemma {:induction false} OthersDoNotCount(bs: seq<Bucket>, x: nat, other: Bucket, n: nat, key: string, now: int)
    requires x < |bs| && n <= |bs| && !InLine(bs[x], key) && !InLine(other, key)
    ensures Base(bs[x := other], n, key, now) == Base(bs, n, key, now)
    ensures Ahead(bs[x := other], n, key) == Ahead(bs, n, key)
    ensures HasHead(bs[x := other], n, key, now) == HasHead(bs, n, key, now)
  {
    if n > 0 {
      OthersDoNotCount(bs, x, other, n - 1, key, now);
    }
    if HasHead(bs, n, key, now) {
      var m :| 0 <= m < n && Heads(bs[m], key, now);
      assert Heads(bs[x := other][m], key, now);
    }
    if HasHead(bs[x := other], n, key, now) {
      var m :| 0 <= m < n && Heads(bs[x := other][m], key, now);
      assert Heads(bs[m], key, now);
    }
  }

  /** No plan of another line has any influence. */
  lemma LinesAreIndependent(bs: seq<Bucket>, m: nat, x: nat, other: Bucket, now: int)
    requires m < |bs| && x < |bs| && Counts(bs[m]) && x != m
    requires !InLine(bs[x], KeyOf(bs[m])) && !InLine(other, KeyOf(bs[m]))
    ensures DueAt(bs[x := other], m, now) == DueAt(bs, m, now)
  {
    OthersDoNotCount(bs, x, other, |bs|, KeyOf(bs[m]), now);
    OthersDoNotCount(bs, x, other, m, KeyOf(bs[m]), now);
  }

  /** The answer is 0 for the whole queue exactly when a usable plan is in the slot and none of them ends. */
  lemma UnknownIff(bs: seq<Bucket>, m: nat, now: int)
    requires m < |bs| && Counts(bs[m]) && now > 0
    requires forall i :: 0 <= i < |bs| ==> bs[i].days >= 0
    ensures DueAt(bs, m, now) == 0 <==>
            var key := KeyOf(bs[m]);
            && HasHead(bs, |bs|, key, now)
            && forall i :: 0 <= i < |bs| && Heads(bs[i], key, now) ==> bs[i].expiry == 0
  {
    AheadIsNotNegative(bs, m, KeyOf(bs[m]));
    BaseIsLatest(bs, |bs|, KeyOf(bs[m]), now);
  }

  lemma {:induction false} AheadIsNotNegative(bs: seq<Bucket>, n: nat, key: string)
    requires n <= |bs| && forall i :: 0 <= i < |bs| ==> bs[i].days >= 0
    ensures Ahead(bs, n, key) >= 0
  {
    if n > 0 {
      AheadIsNotNegative(bs, n - 1, key);
    }
  }

  // ---------------------------------------------------------------- when the plans of a line really start

  /**
   One line as time passes (internal/store/userplans.go): the ends of the plans in the slot
   that are not used up, the days of those that wait, and the moments at which the others started.
   */
  datatype Turns = Turns(clock: int, ends: seq<int>, waiting: seq<int>, started: seq<int>)

  /** Vacate: a plan in the slot is used up, refunded or revoked. Advance: the oldest queued plan is promoted. */
  datatype Step = Tick(t: int) | Vacate(i: nat) | Advance

  predicate LastsUntil(end: int, t: int) { end == 0 || end >= t }

  /** Promotion is prompt: while plans wait, time passes only as long as some plan holds the slot. */
  predicate Enabled(r: Turns, step: Step) {
    match step
    case Tick(t) => r.clock <= t && (r.waiting != [] ==> exists i :: 0 <= i < |r.ends| && LastsUntil(r.ends[i], t))
    case Vacate(i) => i < |r.ends|
    case Advance => r.waiting != [] && forall i :: 0 <= i < |r.ends| ==> r.ends[i] != 0 && r.ends[i] <= r.clock
  }

  /** A promoted plan ends after its days, or never if it has none; whoever held the slot is retired. */
  function Next(r: Turns, step: Step): Turns
    requires Enabled(r, step)
  {
    match step
    case Tick(t) => r.(clock := t)
    case Vacate(i) => r.(ends := r.ends[..i] + r.ends[i + 1..])
    case Advance =>
      var days := r.waiting[0];
      Turns(r.clock, [if days > 0 then r.clock + days * DAY else 0], r.waiting[1..], r.started + [r.clock])
  }

  function Apply(r: Turns, step: Step): Turns { if Enabled(r, step) then Next(r, step) else r }

  function Exec(r: Turns, steps: seq<Step>): Turns {
    if steps == [] then r else Apply(Exec(r, steps[..|steps| - 1]), steps[|steps| - 1])
  }

  predicate StartsBy(r: Turns, k: nat, t: int) { k < |r.started| ==> r.started[k] <= t }

  predicate StartsAt(r: Turns, k: nat, t: int) { k < |r.started| && r.started[k] == t }

  /** The time base, plus the first n of these days. */
  function Due(base: int, days: seq<int>, n: nat): int
    requires n <= |days|
  {
    if n == 0 then base else Due(base, days, n - 1) + DAY * days[n - 1]
  }

  /** No plan in the slot and none of the first k in the queue is without an end. */
  predicate AllEnd(ends: seq<int>, days: seq<int>, k: nat)
    requires k <= |days|
  {
    (forall i :: 0 <= i < |ends| ==> ends[i] != 0) && (forall j :: 0 <= j < k ==> days[j] > 0)
  }

  /** The line when the question is asked: base is its latest end, or now if the slot is free. */
  predicate Asked(r: Turns, base: int) {
    && r.started == [] && r.clock > 0
    && (forall i :: 0 <= i < |r.ends| ==> r.ends[i] == 0 || r.clock < r.ends[i] <= base)
    && (if r.ends == [] then base == r.clock else exists i :: 0 <= i < |r.ends| && r.ends[i] == base)
  }

  /** Until plan k has started, neither the clock nor a plan in the slot runs past what is due next. */
  predicate OnTime(r: Turns, base: int, days: seq<int>, k: nat)
    requires k < |days|
  {
    var n := |r.started|;
    && StartsBy(r, k, Due(base, days, k))
    && (n <= k ==>
      && r.waiting == days[n..] && 0 < r.clock <= Due(base, days, n)
      && forall i :: 0 <= i < |r.ends| ==> 0 < r.ends[i] <= Due(base, days, n))
  }

  lemma StepIsOnTime(r: Turns, step: Step, base: int, days: seq<int>, k: nat)
    requires k < |days| && forall j :: 0 <= j < k ==> days[j] > 0
    requires OnTime(r, base, days, k) && Enabled(r, step)
    ensures OnTime(Next(r, step), base, days, k)
  {}

  lemma {:induction false} NoneStartsLater(r: Turns, steps: seq<Step>, base: int, k: nat)
    requires k < |r.waiting| && Asked(r, base) && AllEnd(r.ends, r.waiting, k)
    ensures OnTime(Exec(r, steps), base, r.waiting, k)
  {
    if steps == [] {
      assert r.waiting[0..] == r.waiting;
    } else {
      var front := steps[..|steps| - 1];
      NoneStartsLater(r, front, base, k);
      if Enabled(Exec(r, front), steps[|steps| - 1]) {
        StepIsOnTime(Exec(r, front), steps[|steps| - 1], base, r.waiting, k);
      }
    }
  }

  ghost predicate Leads(r: Turns, r': Turns) { exists steps :: Exec(r, steps) == r' }

  lemma Onward(r: Turns, mid: Turns, step: Step) returns (r': Turns)
    requires Leads(r, mid) && Enabled(mid, step)
    ensures Leads(r, r') && r' == Next(mid, step)
  {
    var steps :| Exec(r, steps) == mid;
    assert (steps + [step])[..|steps|] == steps;
    r' := Exec(r, steps + [step]);
  }

  lemma Here(r: Turns)
    ensures Leads(r, r)
  {
    assert Exec(r, []) == r;
  }

  lemma {:induction false} VacateAll(r: Turns, mid: Turns) returns (r': Turns)
    requires Leads(r, mid)
    ensures Leads(r, r') && r' == mid.(ends := [])
    decreases |mid.ends|
  {
    r' := mid;
    if mid.ends != [] {
      r' := Onward(r, mid, Vacate(0));
      r' := VacateAll(r, r');
    }
  }

  /** If nobody holds the slot for long, the next n plans all start at once. */
  lemma {:induction false} StartAtOnce(r: Turns, mid: Turns, n: nat) returns (r': Turns)
    requires Leads(r, mid) && n <= |mid.waiting|
    ensures Leads(r, r') && r'.clock == mid.clock && r'.waiting == mid.waiting[n..] && r'.ends == []
    ensures |r'.started| == |mid.started| + n && mid.started <= r'.started
    ensures forall i :: |mid.started| <= i < |r'.started| ==> r'.started[i] == mid.clock
    decreases n
  {
    r' := VacateAll(r, mid);
    if n > 0 {
      r' := Onward(r, r', Advance);
      r' := StartAtOnce(r, r', n - 1);
    }
  }

  /** A plan without an end in the slot delays the rest of the line beyond any t. */
  lemma Delays(r: Turns, mid: Turns, t: int, n: nat) returns (r': Turns)
    requires Leads(r, mid) && 0 in mid.ends && n < |mid.waiting|
    ensures Leads(r, r') && |r'.started| == |mid.started| + n + 1 && r'.started[|mid.started| + n] > t
  {
    var i :| 0 <= i < |mid.ends| && mid.ends[i] == 0;
    var t' := if mid.clock > t then mid.clock else t + 1;
    assert LastsUntil(mid.ends[i], t');
    r' := Onward(r, mid, Tick(t'));
    r' := StartAtOnce(r, r', n + 1);
  }

  /** Plan j of the queue, which has no days, gets the slot. */
  lemma ReachEndless(r: Turns, j: nat) returns (r': Turns)
    requires j < |r.waiting| && r.waiting[j] <= 0
    ensures Leads(r, r') && 0 in r'.ends && r'.waiting == r.waiting[j + 1..] && |r'.started| == |r.started| + j + 1
  {
    Here(r);
    r' := StartAtOnce(r, r, j);
    r' := Onward(r, r', Advance);
  }

  lemma NoBound(r: Turns, k: nat, t: int) returns (r': Turns)
    requires k < |r.waiting| && r.started == [] && !AllEnd(r.ends, r.waiting, k)
    ensures Leads(r, r') && k < |r'.started| && r'.started[k] > t
  {
    Here(r);
    if 0 in r.ends {
      r' := Delays(r, r, t, k);
    } else {
      var j :| 0 <= j < k && r.waiting[j] <= 0;
      r' := ReachEndless(r, j);
      r' := Delays(r, r', t, k - j - 1);
    }
  }

  /** With every plan run to its end, each starts exactly when due. */
  lemma {:induction false} RunToTheEnd(r: Turns, base: int, k: nat) returns (r': Turns)
    requires k < |r.waiting| && Asked(r, base) && AllEnd(r.ends, r.waiting, k)
    ensures Leads(r, r') && |r'.started| == k && r'.waiting == r.waiting[k..] && 0 < r'.clock == Due(base, r.waiting, k)
    ensures forall i :: 0 <= i < |r'.ends| ==> 0 < r'.ends[i] <= r'.clock
    decreases k
  {
    if k == 0 {
      Here(r);
      r' := r;
      if r.ends != [] {
        var i :| 0 <= i < |r.ends| && r.ends[i] == base;
        assert LastsUntil(r.ends[i], base);
        r' := Onward(r, r, Tick(base));
      }
    } else {
      r' := RunToTheEnd(r, base, k - 1);
      r' := Onward(r, r', Advance);
      assert LastsUntil(r'.ends[0], r'.ends[0]);
      r' := Onward(r, r', Tick(r'.ends[0]));
    }
  }

  /**
   For the whole line: without plans that never end, plan k can start exactly as late as due,
   and no later; with one, in the slot or ahead in the queue, there is no latest moment.
   */
  lemma LatestStart(r: Turns, base: int, k: nat, t: int)
    requires k < |r.waiting| && Asked(r, base)
    ensures AllEnd(r.ends, r.waiting, k) ==> forall steps :: StartsBy(Exec(r, steps), k, Due(base, r.waiting, k))
    ensures AllEnd(r.ends, r.waiting, k) ==> exists steps :: StartsAt(Exec(r, steps), k, Due(base, r.waiting, k))
    ensures !AllEnd(r.ends, r.waiting, k) ==> exists steps :: !StartsBy(Exec(r, steps), k, t)
  {
    if AllEnd(r.ends, r.waiting, k) {
      forall steps ensures StartsBy(Exec(r, steps), k, Due(base, r.waiting, k)) {
        NoneStartsLater(r, steps, base, k);
      }
      var r' := RunToTheEnd(r, base, k);
      r' := Onward(r, r', Advance);
      var steps :| Exec(r, steps) == r';
      assert StartsAt(Exec(r, steps), k, Due(base, r.waiting, k));
    } else {
      var r' := NoBound(r, k, t);
      var steps :| Exec(r, steps) == r';
      assert !StartsBy(Exec(r, steps), k, t);
    }
  }

  // ---------------------------------------------------------------- the answer and the line

  function EndsOf(bs: seq<Bucket>, n: nat, key: string, now: int): seq<int>
    requires n <= |bs|
  {
    if n == 0 then []
    else EndsOf(bs, n - 1, key, now) + if Heads(bs[n - 1], key, now) then [bs[n - 1].expiry] else []
  }

  function DaysOf(bs: seq<Bucket>, n: nat, key: string): seq<int>
    requires n <= |bs|
  {
    if n == 0 then [] else DaysOf(bs, n - 1, key) + if Waits(bs[n - 1], key) then [bs[n - 1].days] else []
  }

  function TurnsOf(bs: seq<Bucket>, key: string, now: int): Turns {
    Turns(now, EndsOf(bs, |bs|, key, now), DaysOf(bs, |bs|, key), [])
  }

  /** The place of plan m in the queue of its line. */
  function PlaceOf(bs: seq<Bucket>, m: nat, key: string): nat
    requires m < |bs|
  {
    |DaysOf(bs, m, key)|
  }

  lemma {:induction false} DaysGrow(bs: seq<Bucket>, m: nat, n: nat, key: string)
    requires m <= n <= |bs|
    ensures DaysOf(bs, m, key) <= DaysOf(bs, n, key)
    decreases n
  {
    if m < n {
      DaysGrow(bs, m, n - 1, key);
    }
  }

  lemma {:induction false} DueIsAhead(bs: seq<Bucket>, m: nat, key: string, base: int, days: seq<int>)
    requires m <= |bs| && DaysOf(bs, m, key) <= days
    ensures Due(base, days, |DaysOf(bs, m, key)|) == base + DAY * Ahead(bs, m, key)
    ensures forall j :: 0 <= j < m && Waits(bs[j], key) ==> bs[j].days in days[..|DaysOf(bs, m, key)|]
    ensures forall d :: d in DaysOf(bs, m, key) ==> exists j :: 0 <= j < m && Waits(bs[j], key) && bs[j].days == d
  {
    if m > 0 {
      var before := DaysOf(bs, m - 1, key);
      DueIsAhead(bs, m - 1, key, base, days);
      assert days[..|DaysOf(bs, m, key)|] == before + if Waits(bs[m - 1], key) then [bs[m - 1].days] else [];
    }
  }

  lemma {:induction false} EndsAreHeads(bs: seq<Bucket>, n: nat, key: string, now: int)
    requires n <= |bs|
    ensures forall m :: 0 <= m < n && Heads(bs[m], key, now) ==> bs[m].expiry in EndsOf(bs, n, key, now)
    ensures forall e :: e in EndsOf(bs, n, key, now) ==>
              exists m :: 0 <= m < n && Heads(bs[m], key, now) && bs[m].expiry == e
    ensures EndsOf(bs, n, key, now) != [] ==> HasHead(bs, n, key, now)
  {
    if n > 0 {
      EndsAreHeads(bs, n - 1, key, now);
    }
  }

  /** Neither a plan in the slot nor one ahead of plan m in its queue lasts for ever. */
  predicate EndsBefore(bs: seq<Bucket>, m: nat, now: int)
    requires m < |bs| && Counts(bs[m])
  {
    var key := KeyOf(bs[m]);
    && (forall i :: 0 <= i < |bs| && Heads(bs[i], key, now) ==> bs[i].expiry != 0)
    && (forall i :: 0 <= i < m && Waits(bs[i], key) ==> bs[i].days > 0)
  }

  lemma HeadsEndIff(bs: seq<Bucket>, key: string, now: int)
    ensures var ends := EndsOf(bs, |bs|, key, now);
            (forall i :: 0 <= i < |ends| ==> ends[i] != 0) <==>
            forall m :: 0 <= m < |bs| && Heads(bs[m], key, now) ==> bs[m].expiry != 0
  {
    var ends := EndsOf(bs, |bs|, key, now);
    EndsAreHeads(bs, |bs|, key, now);
    assert (forall i :: 0 <= i < |ends| ==> ends[i] != 0) <==> 0 !in ends;
  }

  lemma QueuedEndIff(bs: seq<Bucket>, m: nat, key: string)
    requires m <= |bs|
    ensures var days := DaysOf(bs, m, key);
            (forall j :: 0 <= j < |days| ==> days[j] > 0) <==>
            forall i :: 0 <= i < m && Waits(bs[i], key) ==> bs[i].days > 0
  {
    var days := DaysOf(bs, m, key);
    DueIsAhead(bs, m, key, 0, days);
    assert days[..|days|] == days;
    assert forall j :: 0 <= j < |days| ==> days[j] in days;
  }

  lemma PlaceInLine(bs: seq<Bucket>, m: nat, now: int, base: int)
    requires m < |bs| && Counts(bs[m]) && bs[m].status.Queued?
    ensures var key := KeyOf(bs[m]);
            var r, k := TurnsOf(bs, key, now), PlaceOf(bs, m, key);
            && k < |r.waiting| && (EndsBefore(bs, m, now) <==> AllEnd(r.ends, r.waiting, k))
            && Due(base, r.waiting, k) == base + DAY * Ahead(bs, m, key)
  {
    var key := KeyOf(bs[m]);
    DaysGrow(bs, m, m + 1, key);
    DaysGrow(bs, m + 1, |bs|, key);
    DueIsAhead(bs, m, key, base, DaysOf(bs, |bs|, key));
    HeadsEndIff(bs, key, now);
    QueuedEndIff(bs, m, key);
    var r, k := TurnsOf(bs, key, now), PlaceOf(bs, m, key);
    assert forall j :: 0 <= j < k ==> r.waiting[j] == DaysOf(bs, m, key)[j];
  }

  /** The moment from which the queue of a line is counted. */
  function BaseFor(bs: seq<Bucket>, key: string, now: int): int {
    if HasHead(bs, |bs|, key, now) then Base(bs, |bs|, key, now) else now
  }

  lemma LineIsAsked(bs: seq<Bucket>, key: string, now: int)
    requires now > 0
    ensures Asked(TurnsOf(bs, key, now), BaseFor(bs, key, now))
  {
    EndsAreHeads(bs, |bs|, key, now);
    BaseIsLatest(bs, |bs|, key, now);
    var ends, base := EndsOf(bs, |bs|, key, now), BaseFor(bs, key, now);
    forall i | 0 <= i < |ends|
      ensures ends[i] == 0 || now < ends[i] <= base
    {
      assert ends[i] in ends;
    }
    if HasHead(bs, |bs|, key, now) {
      var m :| 0 <= m < |bs| && Heads(bs[m], key, now) && (base == 0 || bs[m].expiry == base);
      assert bs[m].expiry == base;
      assert base in ends;
    }
  }

  /**
   The time given to a queued plan is the latest one at which it can start, over every run of
   its line, exactly if neither a plan in the slot nor one ahead in the queue is without an
   end. Otherwise it can start later than any t whatever.
   */
  lemma AnswerIsLatestIff(bs: seq<Bucket>, m: nat, now: int, t: int)
    requires m < |bs| && Counts(bs[m]) && bs[m].status.Queued? && now > 0
    ensures var r, k := TurnsOf(bs, KeyOf(bs[m]), now), PlaceOf(bs, m, KeyOf(bs[m]));
            && (EndsBefore(bs, m, now) <==> forall steps :: StartsBy(Exec(r, steps), k, DueAt(bs, m, now)))
            && (EndsBefore(bs, m, now) ==> exists steps :: StartsAt(Exec(r, steps), k, DueAt(bs, m, now)))
            && (!EndsBefore(bs, m, now) ==> exists steps :: !StartsBy(Exec(r, steps), k, t))
  {
    var key := KeyOf(bs[m]);
    var base := BaseFor(bs, key, now);
    LineIsAsked(bs, key, now);
    PlaceInLine(bs, m, now, base);
    LatestStart(TurnsOf(bs, key, now), base, PlaceOf(bs, m, key), t);
    LatestStart(TurnsOf(bs, key, now), base, PlaceOf(bs, m, key), DueAt(bs, m, now));
  }

  /** Two lists of three plans whose last one is told e, and can start after any t. */
  lemma CanStartAfter(bs: seq<Bucket>, now: int, e: int, t: int)
    requires |bs| == 3 && 0 < now < e && Counts(bs[0]) && bs[0].expiry == e && Heads(bs[0], KeyOf(bs[0]), now)
    requires forall i :: 0 <= i < 3 ==> InLine(bs[i], KeyOf(bs[0]))
    requires bs[2].status.Queued? && Counts(bs[2])
    requires
      || (bs[1].status.Queued? && bs[1].days == 0)
      || (Heads(bs[1], KeyOf(bs[0]), now) && bs[1].expiry == 0)
    ensures DueAt(bs, 2, now) == e
    ensures exists steps ::
              !StartsBy(Exec(TurnsOf(bs, KeyOf(bs[2]), now), steps), PlaceOf(bs, 2, KeyOf(bs[2])), t)
  {
    var key := KeyOf(bs[0]);
    assert Ahead(bs, 0, key) == 0 && Ahead(bs, 1, key) == 0 && Ahead(bs, 2, key) == 0;
    assert Base(bs, 0, key, now) == 0 && Base(bs, 1, key, now) == e && Base(bs, 2, key, now) == e;
    AnswerIsLatestIff(bs, 2, now, t);
  }
}
