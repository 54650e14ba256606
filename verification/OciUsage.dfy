/**
 Reading a month's outbound transfer from a paged usage report
 (internal/officialusage/officialusage.go).

 Which line items are transfers, which of those are outbound, and what their unit means is
 decided by substring tests on their names; an item carries the outcome of those tests.
 Quantities are exact rationals, byte counts must fit a signed 64-bit integer.
 */
module OciUsage {
  import opened Wrappers

  const MAX_INT64: int := 0x7FFF_FFFF_FFFF_FFFF
  const MAX_PAGES: nat := 100

  /** A rational in lowest terms or not; the denominator is positive. */
  datatype Rat = Rat(num: int, den: int)

  predicate Valid(q: Rat) { q.den > 0 }

  /**
   transfer, outbound: what the names say. quantity: None if missing, malformed or negative.
   multiplier: bytes per unit, None if the unit is not a known amount of data. over: the
   item belongs to the tier above the free one.
   */
  datatype Item = Item(transfer: bool, outbound: bool, quantity: Option<Rat>, multiplier: Option<nat>, over: bool)

  predicate Sane(i: Item) { i.quantity.Some? ==> Valid(i.quantity.value) && i.quantity.value.num >= 0 }

  // ---------------------------------------------------------------- rounding

  /** Integer division that truncates toward zero, as big.Int's QuoRem does. */
  function Quo(n: int, d: int): int
    requires d > 0
  {
    if n >= 0 then n / d else -((-n) / d)
  }

  function Rem(n: int, d: int): int
    requires d > 0
  {
    n - Quo(n, d) * d
  }

  function Rounded(n: int, d: int): int
    requires d > 0
  {
    if 2 * Rem(n, d) >= d then Quo(n, d) + 1 else Quo(n, d)
  }

  /** q is n / d rounded to the nearest integer, halves upward: q - 1/2 <= n/d < q + 1/2. */
  predicate IsHalfUp(q: int, n: int, d: int) { (2 * q - 1) * d <= 2 * n < (2 * q + 1) * d }

  lemma RemBounds(n: int, d: int)
    requires d > 0
    ensures n >= 0 ==> 0 <= Rem(n, d) < d
    ensures n <= 0 ==> -d < Rem(n, d) <= 0
  {}

  lemma HalfUpIsUnique(p: int, q: int, n: int, d: int)
    requires d > 0 && IsHalfUp(p, n, d) && IsHalfUp(q, n, d)
    ensures p == q
  {}

  lemma Grows(a: int, b: int, d: int)
    requires d > 0 && b <= a
    ensures b * d <= a * d
  {}

  /**
   The rounding is half up exactly when the fraction cut off a negative number is at most a
   half; so it always is for the quantities that reach it, which are not negative.
   */
  lemma RoundedIsHalfUpIff(n: int, d: int)
    requires d > 0
    ensures IsHalfUp(Rounded(n, d), n, d) <==> -d <= 2 * Rem(n, d)
    ensures n >= 0 ==> IsHalfUp(Rounded(n, d), n, d)
  {}

  function Fit(n: int): Option<int> { if -MAX_INT64 - 1 <= n <= MAX_INT64 then Some(n) else None }

  /** None: the unit is unknown, or the amount does not fit. */
  method QuantityToBytes(q: Rat, multiplier: Option<nat>) returns (bytes: Option<int>)
    requires Valid(q)
    ensures bytes.Some? && q.num >= 0 ==>
              multiplier.Some? && 0 <= bytes.value <= MAX_INT64
                && IsHalfUp(bytes.value, q.num * multiplier.value, q.den)
    ensures bytes.None? && q.num >= 0 && multiplier.Some? ==>
              forall b :: IsHalfUp(b, q.num * multiplier.value, q.den) ==> b > MAX_INT64
    ensures bytes == if multiplier.Some? then Fit(Rounded(q.num * multiplier.value, q.den)) else None
  {
    if multiplier.None? {
      return None;
    }
    var numerator := q.num * multiplier.value;
    var quotient := Quo(numerator, q.den);
    var remainder := numerator - quotient * q.den;
    if 2 * remainder >= q.den {
      quotient := quotient + 1;
    }
    RoundedIsHalfUpIff(numerator, q.den);
    if q.num >= 0 {
      RemBounds(numerator, q.den);
      NonNegative(numerator, q.den);
      forall b | IsHalfUp(b, numerator, q.den)
        ensures b == quotient
      {
        HalfUpIsUnique(b, quotient, numerator, q.den);
      }
    }
    if quotient < -MAX_INT64 - 1 || quotient > MAX_INT64 {
      return None;
    }
    return Some(quotient);
  }

  lemma NonNegative(n: int, d: int)
    requires d > 0 && n >= 0
    ensures Rounded(n, d) >= 0
  {
    var q := n / d;
    if q < 0 {
      Grows(-1, q, d);
    }
  }

  // ---------------------------------------------------------------- one page

  datatype Report = Report(used: int, items: nat, transfers: nat, recognized: nat, skipped: nat, overage: bool)

  const EMPTY := Report(0, 0, 0, 0, 0, false)

  /** What an item contributes: nothing, a refusal of the whole report, a skip, or bytes. */
  datatype Reading = Ignored | Malformed | Skipped | Counted(bytes: nat, over: bool)

  function Read(i: Item): (r: Reading)
    requires Sane(i)
  {
    if !i.transfer then Ignored
    else if !i.outbound then Skipped
    else if i.quantity.None? then Malformed
    else if i.multiplier.None? then Skipped
    else
      var n, d := i.quantity.value.num * i.multiplier.value, i.quantity.value.den;
      NonNegative(n, d);
      if Rounded(n, d) <= MAX_INT64 then Counted(Rounded(n, d), i.over) else Skipped
  }

  ghost predicate AllSane(items: seq<Item>) { forall k :: 0 <= k < |items| ==> Sane(items[k]) }

  ghost function Readings(items: seq<Item>): (r: seq<Reading>)
    requires AllSane(items)
    ensures |r| == |items| && forall k :: 0 <= k < |items| ==> r[k] == Read(items[k])
  {
    seq(|items|, k requires 0 <= k < |items| => Read(items[k]))
  }

  predicate WellFormed(rs: seq<Reading>) { Malformed !in rs }

  function Plus(a: Report, b: Report): Report {
    Report(a.used + b.used, a.items + b.items, a.transfers + b.transfers, a.recognized + b.recognized,
           a.skipped + b.skipped, a.overage || b.overage)
  }

  function One(r: Reading): Report {
    match r
    case Ignored => Report(0, 1, 0, 0, 0, false)
    case Malformed => Report(0, 1, 1, 0, 0, false)
    case Skipped => Report(0, 1, 1, 0, 1, false)
    case Counted(bytes, over) => Report(bytes, 1, 1, 1, 0, over)
  }

  /** The exact, unbounded tally of the first n items read. */
  function TallyTo(rs: seq<Reading>, n: nat): (r: Report)
    requires n <= |rs|
    ensures r.used >= 0
  {
    if n == 0 then EMPTY else Plus(TallyTo(rs, n - 1), One(rs[n - 1]))
  }

  function Tally(rs: seq<Reading>): Report { TallyTo(rs, |rs|) }

  /** Refused exactly when an item is malformed or the true sum does not fit. */
  predicate Refused(rs: seq<Reading>) { !WellFormed(rs) || Tally(rs).used > MAX_INT64 }

  lemma {:induction false} TallyGrows(rs: seq<Reading>, n: nat, m: nat)
    requires n <= m <= |rs|
    ensures TallyTo(rs, n).used <= TallyTo(rs, m).used
    decreases m
  {
    if n < m {
      TallyGrows(rs, n, m - 1);
    }
  }

  method ReadItem(item: Item) returns (r: Reading)
    requires Sane(item)
    ensures r == Read(item)
  {
    if !item.transfer {
      return Ignored;
    }
    if !item.outbound {
      return Skipped;
    }
    if item.quantity.None? {
      return Malformed;
    }
    var bytes := QuantityToBytes(item.quantity.value, item.multiplier);
    if bytes.None? {
      return Skipped;
    }
    return Counted(bytes.value, item.over);
  }

  /** One turn of the loop over the items. */
  method Account(report: Report, reading: Reading) returns (r: Result<Report>)
    requires 0 <= report.used <= MAX_INT64
    ensures r.Err? <==> reading.Malformed? || report.used + One(reading).used > MAX_INT64
    ensures r.Ok? ==> r.value == Plus(report, One(reading))
  {
    var next := report.(items := report.items + 1);
    if reading.Ignored? {
      return Ok(next);
    }
    next := next.(transfers := next.transfers + 1);
    if reading.Malformed? {
      return Err;
    }
    if reading.Skipped? {
      return Ok(next.(skipped := next.skipped + 1));
    }
    if reading.bytes > MAX_INT64 - next.used {
      return Err;
    }
    return Ok(next.(used := next.used + reading.bytes, recognized := next.recognized + 1,
        overage := next.overage || reading.over));
  }

  method ReadItems(items: seq<Item>) returns (rs: seq<Reading>)
    requires AllSane(items)
    ensures rs == Readings(items)
  {
    rs := [];
    for k := 0 to |items|
      invariant |rs| == k && forall j :: 0 <= j < k ==> rs[j] == Readings(items)[j]
    {
      var r := ReadItem(items[k]);
      rs := rs + [r];
    }
  }

  method Total(rs: seq<Reading>) returns (r: Result<Report>)
    ensures r.Err? <==> Refused(rs)
    ensures r.Ok? ==> r.value == Tally(rs)
  {
    var report := EMPTY;
    for k := 0 to |rs|
      invariant forall j :: 0 <= j < k ==> rs[j] != Malformed
      invariant report == TallyTo(rs, k) && report.used <= MAX_INT64
    {
      TallyGrows(rs, k + 1, |rs|);
      var next := Account(report, rs[k]);
      if next.Err? {
        return Err;
      }
      report := next.value;
    }
    return Ok(report);
  }

  method ParseReport(items: seq<Item>) returns (r: Result<Report>)
    requires AllSane(items)
    ensures r.Err? <==> Refused(Readings(items))
    ensures r.Ok? ==> r.value == Tally(Readings(items))
  {
    var rs := ReadItems(items);
    r := Total(rs);
  }

  /** Every transfer is either counted or skipped. */
  lemma {:induction false} TransfersAddUp(rs: seq<Reading>, n: nat)
    requires WellFormed(rs) && n <= |rs|
    ensures TallyTo(rs, n).transfers == TallyTo(rs, n).recognized + TallyTo(rs, n).skipped
  {
    if n > 0 {
      assert rs[n - 1] in rs;
      TransfersAddUp(rs, n - 1);
    }
  }

  /** A tally without skips counted everything but the items that are no transfers. */
  lemma {:induction false} NoneSkipped(rs: seq<Reading>, n: nat)
    requires WellFormed(rs) && n <= |rs| && TallyTo(rs, n).skipped == 0
    ensures forall k :: 0 <= k < n ==> rs[k].Counted? || rs[k].Ignored?
  {
    if n > 0 {
      assert rs[n - 1] in rs;
      NoneSkipped(rs, n - 1);
    }
  }

  // ---------------------------------------------------------------- many pages

  lemma {:induction false} TallyOfPrefix(a: seq<Reading>, b: seq<Reading>, n: nat)
    requires n <= |a|
    ensures TallyTo(a + b, n) == TallyTo(a, n)
  {
    if n > 0 {
      TallyOfPrefix(a, b, n - 1);
    }
  }

  lemma TallyNext(rs: seq<Reading>, n: nat)
    requires n < |rs|
    ensures TallyTo(rs, n + 1) == Plus(TallyTo(rs, n), One(rs[n]))
  {}

  lemma PlusAssociates(a: Report, b: Report, c: Report)
    ensures Plus(Plus(a, b), c) == Plus(a, Plus(b, c)) && Plus(a, EMPTY) == a
  {}

  lemma {:induction false} TallyJoins(a: seq<Reading>, b: seq<Reading>, n: nat)
    requires n <= |b|
    ensures TallyTo(a + b, |a| + n) == Plus(TallyTo(a, |a|), TallyTo(b, n))
    decreases n
  {
    var whole, m := a + b, |a|;
    if n == 0 {
      TallyOfPrefix(a, b, m);
      PlusAssociates(TallyTo(a, m), EMPTY, EMPTY);
    } else {
      var k := n - 1;
      TallyJoins(a, b, k);
      TallyNext(whole, m + k);
      TallyNext(b, k);
      assert whole[m + k] == b[k];
      PlusAssociates(TallyTo(a, m), TallyTo(b, k), One(b[k]));
    }
  }

  /** The readings of two pages, one after the other, are those of their items together. */
  lemma ReadingsJoin(a: seq<Item>, b: seq<Item>)
    requires AllSane(a) && AllSane(b)
    ensures AllSane(a + b) && Readings(a + b) == Readings(a) + Readings(b)
  {}

  /** Adding the reports of two pages is reading their items together, refusals included. */
  lemma PagesJoin(a: seq<Reading>, b: seq<Reading>)
    ensures Tally(a + b) == Plus(Tally(a), Tally(b))
    ensures Refused(a + b) <==> Refused(a) || Refused(b) || Tally(a).used + Tally(b).used > MAX_INT64
  {
    TallyJoins(a, b, |b|);
  }

  method Add(r: Report, other: Report) returns (sum: Result<Report>)
    ensures sum.Err? <==> r.used + other.used > MAX_INT64
    ensures sum.Ok? ==> sum.value == Plus(r, other)
  {
    if other.used > MAX_INT64 - r.used {
      return Err;
    }
    return Ok(Plus(r, other));
  }

  /** One answer of the service: None if the request failed. An empty token ends the list. */
  datatype Page = Page(items: Option<seq<Item>>, next: string)

  ghost predicate SanePages(pages: seq<Page>) {
    forall n :: 0 <= n < |pages| && pages[n].items.Some? ==> AllSane(pages[n].items.value)
  }

  /** An answer for every request that can be made. */
  predicate Enough(pages: seq<Page>) { |pages| == MAX_PAGES + 1 }

  /** The items of the first n pages, in order. */
  ghost function Items(pages: seq<Page>, n: nat): (r: seq<Item>)
    requires SanePages(pages) && n <= |pages|
    ensures AllSane(r)
  {
    if n == 0 then []
    else
      var p := pages[n - 1].items;
      Items(pages, n - 1) + if p.Some? then p.value else []
  }

  ghost function ReadPages(pages: seq<Page>, n: nat): seq<Reading>
    requires SanePages(pages) && n <= |pages|
  {
    Readings(Items(pages, n))
  }

  datatype Usage = Failed | Known(used: int, remaining: int)

  /** The pages follow each other to the last one, without a failure, a repeated token or a refusal. */
  ghost predicate Followed(pages: seq<Page>, n: nat)
    requires SanePages(pages)
  {
    && 0 < n <= |pages| && pages[n - 1].next == ""
    && (forall k :: 0 <= k < n - 1 ==> pages[k].next != "")
    && (forall k :: 0 <= k < n ==> pages[k].items.Some?)
    && (forall i, k :: 0 <= i < k < n ==> pages[i].next != pages[k].next)
    && !Refused(ReadPages(pages, n))
  }

  /** What a known usage rests on; at most one n can qualify. */
  ghost predicate Readable(pages: seq<Page>, n: nat)
    requires SanePages(pages)
  {
    Followed(pages, n) && Tally(ReadPages(pages, n)).skipped == 0 && Tally(ReadPages(pages, n)).transfers > 0
  }

  lemma RefusedStays(a: seq<Reading>, b: seq<Reading>)
    requires Refused(a) && a <= b
    ensures Refused(b)
  {
    assert b == a + b[|a|..];
    PagesJoin(a, b[|a|..]);
  }

  lemma {:induction false} ItemsGrow(pages: seq<Page>, n: nat, m: nat)
    requires SanePages(pages) && n <= m <= |pages|
    ensures Items(pages, n) <= Items(pages, m)
    decreases m
  {
    if n < m {
      ItemsGrow(pages, n, m - 1);
    }
  }

  /** n pages have been read, and each names another one. */
  ghost predicate Midway(pages: seq<Page>, n: nat, seen: set<string>)
  {
    && n <= |pages|
    && (forall k :: 0 <= k < n ==> pages[k].items.Some? && pages[k].next != "" && pages[k].next in seen)
    && (forall t :: t in seen ==> exists k :: 0 <= k < n && pages[k].next == t)
    && (forall i, k :: 0 <= i < k < n ==> pages[i].next != pages[k].next)
  }

  ghost predicate Unknown(pages: seq<Page>)
    requires SanePages(pages)
  {
    forall m :: 0 < m <= |pages| ==> !Followed(pages, m)
  }

  lemma ReadPagesGrow(pages: seq<Page>, n: nat, m: nat)
    requires SanePages(pages) && n <= m <= |pages|
    ensures ReadPages(pages, n) <= ReadPages(pages, m)
  {
    ItemsGrow(pages, n, m);
  }

  lemma FailureEndsIt(pages: seq<Page>, n: nat, seen: set<string>)
    requires SanePages(pages) && n < |pages| && Midway(pages, n, seen)
    requires pages[n].items.None? || Refused(ReadPages(pages, n + 1))
    ensures Unknown(pages)
  {
    forall m | 0 < m <= |pages|
      ensures !Followed(pages, m)
    {
      if m <= n {
        assert pages[m - 1].next != "";
      } else if Refused(ReadPages(pages, n + 1)) {
        ReadPagesGrow(pages, n + 1, m);
        RefusedStays(ReadPages(pages, n + 1), ReadPages(pages, m));
      }
    }
  }

  lemma BadTokenEndsIt(pages: seq<Page>, n: nat, seen: set<string>)
    requires SanePages(pages) && n < |pages| && Midway(pages, n, seen)
    requires Enough(pages) && pages[n].next != "" && (pages[n].next in seen || n == MAX_PAGES)
    ensures Unknown(pages)
  {}

  /** A page's own report, added to that of the pages before it. */
  method AddPage(pages: seq<Page>, n: nat, report: Report) returns (r: Result<Report>)
    requires SanePages(pages) && n < |pages| && !Refused(ReadPages(pages, n)) && report == Tally(ReadPages(pages, n))
    ensures r.Err? <==> pages[n].items.None? || Refused(ReadPages(pages, n + 1))
    ensures r.Ok? ==> r.value == Tally(ReadPages(pages, n + 1))
  {
    if pages[n].items.None? {
      return Err;
    }
    var parsed := ParseReport(pages[n].items.value);
    ReadingsJoin(Items(pages, n), pages[n].items.value);
    PagesJoin(ReadPages(pages, n), Readings(pages[n].items.value));
    if parsed.Err? {
      return Err;
    }
    r := Add(report, parsed.value);
  }

  lemma MidwayStep(pages: seq<Page>, n: nat, seen: set<string>)
    requires n < |pages| && Midway(pages, n, seen) && pages[n].items.Some?
    requires pages[n].next != "" && pages[n].next !in seen
    ensures Midway(pages, n + 1, seen + {pages[n].next})
  {}

  lemma NothingYet(pages: seq<Page>, n: nat)
    requires SanePages(pages) && n == 0
    ensures Midway(pages, n, {}) && !Refused(ReadPages(pages, n)) && Tally(ReadPages(pages, n)) == EMPTY
  {}

  ghost predicate Going(pages: seq<Page>, n: nat, seen: set<string>, report: Report)
    requires SanePages(pages)
  {
    n == |seen| <= MAX_PAGES && Midway(pages, n, seen) && !Refused(ReadPages(pages, n))
        && report == Tally(ReadPages(pages, n))
  }

  lemma LastPage(pages: seq<Page>, n: nat, seen: set<string>)
    requires SanePages(pages) && n < |pages| && Midway(pages, n, seen) && pages[n].items.Some?
    requires pages[n].next == "" && !Refused(ReadPages(pages, n + 1))
    ensures Followed(pages, n + 1)
  {}

  datatype Turn = Stop(r: Result<Report>) | Go(seen: set<string>, report: Report)

  method OneRequest(pages: seq<Page>, n: nat, seen: set<string>, report: Report) returns (t: Turn)
    requires SanePages(pages) && Enough(pages) && Going(pages, n, seen, report)
    ensures t.Go? ==> Going(pages, n + 1, t.seen, t.report)
    ensures t.Stop? && t.r.Err? ==> Unknown(pages)
    ensures t.Stop? && t.r.Ok? ==> Followed(pages, n + 1) && t.r.value == Tally(ReadPages(pages, n + 1))
  {
    var sum := AddPage(pages, n, report);
    if sum.Err? {
      FailureEndsIt(pages, n, seen);
      return Stop(Err);
    }
    var next := pages[n].next;
    if next == "" {
      LastPage(pages, n, seen);
      return Stop(sum);
    }
    if next in seen || |seen| >= MAX_PAGES {
      BadTokenEndsIt(pages, n, seen);
      return Stop(Err);
    }
    MidwayStep(pages, n, seen);
    return Go(seen + {next}, sum.value);
  }

  /** The paging loop. Whatever the service answers, at most 101 requests are made. */
  method FollowPages(pages: seq<Page>) returns (r: Result<Report>, requests: nat)
    requires SanePages(pages) && Enough(pages)
    ensures 1 <= requests <= MAX_PAGES + 1
    ensures r.Err? ==> Unknown(pages)
    ensures r.Ok? ==> Followed(pages, requests) && r.value == Tally(ReadPages(pages, requests))
  {
    var report, seen: set<string> := EMPTY, {};
    requests := 0;
    NothingYet(pages, requests);
    while true
      invariant Going(pages, requests, seen, report)
      decreases MAX_PAGES + 1 - requests
    {
      var t := OneRequest(pages, requests, seen, report);
      requests := requests + 1;
      if t.Stop? {
        return t.r, requests;
      }
      seen, report := t.seen, t.report;
    }
  }

  lemma FollowedOnce(pages: seq<Page>, n: nat, m: nat)
    requires SanePages(pages) && Followed(pages, n) && Followed(pages, m)
    ensures n == m
  {}

  /**
   The usage is known exactly when some number of pages, the last one without a successor,
   can be read without a failure, a repeated token or a skipped transfer; it is then their
   exact sum.
   */
  method FetchOci(pages: seq<Page>, limit: int) returns (u: Usage, requests: nat)
    requires SanePages(pages) && Enough(pages) && limit >= 0
    ensures 1 <= requests <= MAX_PAGES + 1
    ensures u.Known? <==> exists n: nat :: Readable(pages, n)
    ensures u.Known? ==>
              && Readable(pages, requests) && u.used == Tally(ReadPages(pages, requests)).used
              && u.remaining == if Tally(ReadPages(pages, requests)).overage || u.used >= limit then 0
                else limit - u.used
  {
    var r;
    r, requests := FollowPages(pages);
    if r.Err? {
      return Failed, requests;
    }
    var report := r.value;
    if report.transfers == 0 || report.skipped > 0 {
      forall n: nat | Followed(pages, n)
        ensures n == requests
      {
        FollowedOnce(pages, n, requests);
      }
      return Failed, requests;
    }
    assert Readable(pages, requests);
    var remaining := if report.overage || report.used >= limit then 0 else limit - report.used;
    return Known(report.used, remaining), requests;
  }
}
