/**
 Remote backups (internal/backup/manager.go): one worker at a time, and the retention pass
 that deletes old objects and forgets their records. Record edits are taken one at a time.
 */
module BackupRetention {
  import opened Collections

  // ---------------------------------------------------------------- one worker at a time

  /** A request for a backup, and the worker it becomes. */
  datatype Actor = Idle | Preparing | Working | Finished

  datatype Office = Office(running: bool, actors: seq<Actor>)

  /**
   Enter: the section under the lock. Abort: the records could not be loaded or saved.
   Spawn: the worker starts. End: it returns, however.
   */
  datatype Step = Enter(a: nat) | Abort(a: nat) | Spawn(a: nat) | End(a: nat)

  predicate Busy(a: Actor) { a.Preparing? || a.Working? }

  function Apply(o: Office, step: Step): Office {
    if step.a >= |o.actors| then o
    else
      var was := o.actors[step.a];
      match step
      case Enter(a) => if was.Idle? && !o.running then Office(true, o.actors[a := Preparing]) else o
      case Abort(a) => if was.Preparing? then Office(false, o.actors[a := Finished]) else o
      case Spawn(a) => if was.Preparing? then o.(actors := o.actors[a := Working]) else o
      case End(a) => if was.Working? then Office(false, o.actors[a := Finished]) else o
  }

  function Exec(o: Office, steps: seq<Step>): Office {
    if steps == [] then o else Apply(Exec(o, steps[..|steps| - 1]), steps[|steps| - 1])
  }

  ghost predicate Orderly(o: Office) {
    && (forall a, b :: 0 <= a < b < |o.actors| && Busy(o.actors[a]) ==> !Busy(o.actors[b]))
    && (o.running <==> exists a :: 0 <= a < |o.actors| && Busy(o.actors[a]))
  }

  lemma ApplyKeeps(o: Office, step: Step)
    requires Orderly(o)
    ensures Orderly(Apply(o, step))
  {
    var o' := Apply(o, step);
    if step.a < |o.actors| && o' != o {
      if step.Enter? || step.Spawn? {
        assert Busy(o'.actors[step.a]);
      } else {
        assert Busy(o.actors[step.a]);
      }
    }
  }

  /** In every interleaving at most one backup is under way, and the flag is set exactly while one is. */
  lemma {:induction false} OneBackupAtATime(n: nat, steps: seq<Step>)
    ensures Orderly(Exec(Office(false, seq(n, _ => Idle)), steps))
  {
    if steps != [] {
      var front := steps[..|steps| - 1];
      OneBackupAtATime(n, front);
      ApplyKeeps(Exec(Office(false, seq(n, _ => Idle)), front), steps[|steps| - 1]);
    }
  }

  // ---------------------------------------------------------------- retention

  /** expires is 0 for a record without an end. */
  datatype Record = Record(id: int, completed: bool, started: int, expires: int, key: string)

  const MAX_RECORDS: nat := 100

  ghost predicate UniqueIds(rs: seq<Record>) {
    forall i, j :: 0 <= i < j < |rs| ==> rs[i].id != rs[j].id
  }

  ghost predicate NewestFirst(rs: seq<Record>) {
    forall i, j :: 0 <= i < j < |rs| ==> rs[i].started >= rs[j].started
  }

  /** Sorted, the same records, each once. Records that started together come in any order. */
  ghost predicate SortedFrom(s: seq<Record>, rs: seq<Record>) {
    NewestFirst(s) && UniqueIds(s) && |s| == |rs| && forall r :: r in s <==> r in rs
  }

  function InsertAt(s: seq<Record>, i: nat, r: Record): (t: seq<Record>)
    requires i <= |s|
    ensures |t| == |s| + 1
    ensures forall j :: 0 <= j < |t| ==> t[j] == if j < i then s[j] else if j == i then r else s[j - 1]
  {
    s[..i] + [r] + s[i..]
  }

  lemma InsertedMembers(s: seq<Record>, i: nat, r: Record)
    requires i <= |s|
    ensures forall x :: x in InsertAt(s, i, r) <==> x in s || x == r
  {}

  lemma InsertedIsUnique(s: seq<Record>, i: nat, r: Record)
    requires i <= |s| && UniqueIds(s) && forall k :: 0 <= k < |s| ==> s[k].id != r.id
    ensures UniqueIds(InsertAt(s, i, r))
  {}

  lemma InsertedIsSorted(s: seq<Record>, i: nat, r: Record)
    requires i <= |s| && NewestFirst(s)
    requires (i > 0 ==> s[i - 1].started >= r.started) && (i < |s| ==> s[i].started <= r.started)
    ensures NewestFirst(InsertAt(s, i, r))
  {}

  method Insert(s: seq<Record>, r: Record) returns (t: seq<Record>)
    requires NewestFirst(s) && UniqueIds(s) && forall x :: x in s ==> x.id != r.id
    ensures NewestFirst(t) && UniqueIds(t) && |t| == |s| + 1 && forall x :: x in t <==> x in s || x == r
  {
    var i := 0;
    while i < |s| && s[i].started > r.started
      invariant 0 <= i <= |s| && (i > 0 ==> s[i - 1].started > r.started)
    {
      i := i + 1;
    }
    t := InsertAt(s, i, r);
    InsertedMembers(s, i, r);
    InsertedIsUnique(s, i, r);
    InsertedIsSorted(s, i, r);
  }

  method SortNewest(rs: seq<Record>) returns (s: seq<Record>)
    requires UniqueIds(rs)
    ensures SortedFrom(s, rs)
  {
    s := [];
    for n := 0 to |rs|
      invariant NewestFirst(s) && UniqueIds(s) && |s| == n
      invariant forall r :: r in s <==> exists k :: 0 <= k < n && rs[k] == r
    {
      s := Insert(s, rs[n]);
    }
  }

  function Completed(rs: seq<Record>): (c: seq<Record>)
    ensures forall r :: r in c <==> r in rs && r.completed
  {
    if rs == [] then []
    else
      var n := |rs| - 1;
      assert rs == rs[..n] + [rs[n]];
      Completed(rs[..n]) + if rs[n].completed then [rs[n]] else []
  }

  lemma {:induction false} CompletedAreUnique(rs: seq<Record>)
    requires UniqueIds(rs)
    ensures UniqueIds(Completed(rs))
  {
    if rs != [] {
      var n := |rs| - 1;
      CompletedAreUnique(rs[..n]);
      assert forall r :: r in Completed(rs[..n]) ==> r.id != rs[n].id;
    }
  }

  predicate Expired(r: Record, now: int) { r.expires > 0 && r.expires <= now }

  /** In the sorted list of completed records, r is within the count, and it has not expired. */
  ghost predicate Keeps(order: seq<Record>, retain: int, now: int, r: Record) {
    !Expired(r, now) && exists i :: 0 <= i < |order| && order[i] == r && (retain <= 0 || i < retain)
  }

  method Keepers(order: seq<Record>, retain: int, now: int) returns (keep: set<int>)
    requires UniqueIds(order)
    ensures forall r :: r in order ==> (r.id in keep <==> Keeps(order, retain, now, r))
  {
    keep := {};
    for i := 0 to |order|
      invariant forall id :: id in keep <==>
                  exists j :: 0 <= j < i && order[j].id == id && !Expired(order[j], now) && (retain <= 0 || j < retain)
    {
      var r := order[i];
      if !(retain > 0 && i >= retain) && !Expired(r, now) {
        keep := keep + {r.id};
      }
    }
  }

  /** Due, and the store does not refuse to delete its object. */
  predicate Goes(r: Record, keep: set<int>, refused: set<int>) {
    r.completed && r.id !in keep && r.id !in refused
  }

  /** What stays of the first n records: everything but the completed ones whose object is gone. */
  function RemainingTo(rs: seq<Record>, n: nat, keep: set<int>, refused: set<int>): seq<Record>
    requires n <= |rs|
  {
    if n == 0 then []
    else RemainingTo(rs, n - 1, keep, refused) + if Goes(rs[n - 1], keep, refused) then [] else [rs[n - 1]]
  }

  function Remaining(rs: seq<Record>, keep: set<int>, refused: set<int>): seq<Record> {
    RemainingTo(rs, |rs|, keep, refused)
  }

  lemma {:induction false} RemainingMembers(rs: seq<Record>, n: nat, keep: set<int>, refused: set<int>)
    requires n <= |rs|
    ensures forall r :: r in RemainingTo(rs, n, keep, refused) <==> r in rs[..n] && !Goes(r, keep, refused)
  {
    if n > 0 {
      RemainingMembers(rs, n - 1, keep, refused);
      assert rs[..n] == rs[..n - 1] + [rs[n - 1]];
    }
  }

  function DeletedTo(rs: seq<Record>, n: nat, keep: set<int>, refused: set<int>): (keys: set<string>)
    requires n <= |rs|
    ensures forall key :: key in keys <==> exists k :: 0 <= k < n && rs[k].key == key && Goes(rs[k], keep, refused)
  {
    if n == 0 then {}
    else DeletedTo(rs, n - 1, keep, refused) + if Goes(rs[n - 1], keep, refused) then {rs[n - 1].key} else {}
  }

  method Sift(rs: seq<Record>, keep: set<int>, refused: set<int>)
    returns (remaining: seq<Record>, deleted: set<string>)
    ensures remaining == Remaining(rs, keep, refused) && deleted == DeletedTo(rs, |rs|, keep, refused)
  {
    remaining, deleted := [], {};
    for n := 0 to |rs|
      invariant remaining == RemainingTo(rs, n, keep, refused) && deleted == DeletedTo(rs, n, keep, refused)
    {
      var r := rs[n];
      if r.completed && r.id !in keep {
        if r.id in refused {
          remaining := remaining + [r];
        } else {
          deleted := deleted + {r.key};
        }
      } else {
        remaining := remaining + [r];
      }
    }
  }

  /**
   refused: the records whose object the store fails to delete. A completed record is dropped
   exactly when it is beyond the count or expired and its object was deleted; every other
   record stays, in its place. The objects deleted are those named by a dropped record, even
   if a kept record names the same.
   */
  method Cleanup(rs: seq<Record>, retain: int, now: int, refused: set<int>)
    returns (remaining: seq<Record>, deleted: set<string>, ghost order: seq<Record>)
    requires UniqueIds(rs)
    ensures SortedFrom(order, Completed(rs))
    ensures forall r ::
          r in remaining <==> r in rs && (!r.completed || Keeps(order, retain, now, r) || r.id in refused)
    ensures forall key :: key in deleted <==>
              exists k :: 0 <= k < |rs| && rs[k].key == key && rs[k].completed
                && !Keeps(order, retain, now, rs[k]) && rs[k].id !in refused
    ensures exists keep :: remaining == Remaining(rs, keep, refused)
  {
    CompletedAreUnique(rs);
    var sorted := SortNewest(Completed(rs));
    order := sorted;
    var keep := Keepers(sorted, retain, now);
    remaining, deleted := Sift(rs, keep, refused);
    RemainingMembers(rs, |rs|, keep, refused);
    assert rs[..|rs|] == rs;
    assert forall k :: 0 <= k < |rs| && rs[k].completed ==> rs[k] in order;
  }

  // ---------------------------------------------------------------- the count, without the order

  /** The records that started after r. */
  ghost function NewerIds(rs: seq<Record>, r: Record): set<int> {
    set x | x in rs && x.started > r.started :: x.id
  }

  ghost predicate DistinctStarts(rs: seq<Record>) {
    forall a, b :: a in rs && b in rs && a != b ==> a.started != b.started
  }

  function FirstIds(order: seq<Record>, n: nat): set<int>
    requires n <= |order|
  {
    if n == 0 then {} else FirstIds(order, n - 1) + {order[n - 1].id}
  }

  lemma {:induction false} FirstIdsMembers(order: seq<Record>, n: nat)
    requires n <= |order|
    ensures forall id :: id in FirstIds(order, n) <==> exists j :: 0 <= j < n && order[j].id == id
  {
    if n > 0 {
      FirstIdsMembers(order, n - 1);
    }
  }

  lemma NotAmongFirst(order: seq<Record>, n: nat)
    requires n < |order| && UniqueIds(order)
    ensures order[n].id !in FirstIds(order, n)
  {
    FirstIdsMembers(order, n);
    forall j | 0 <= j < n
      ensures order[j].id != order[n].id
    {}
  }

  lemma {:induction false} FirstIdsCount(order: seq<Record>, n: nat)
    requires n <= |order| && UniqueIds(order)
    ensures |FirstIds(order, n)| == n
  {
    if n > 0 {
      FirstIdsCount(order, n - 1);
      NotAmongFirst(order, n - 1);
      var before, id := FirstIds(order, n - 1), order[n - 1].id;
      assert FirstIds(order, n) == before + {id};
    }
  }

  lemma PlaceIsNewerCount(rs: seq<Record>, order: seq<Record>, i: nat)
    requires SortedFrom(order, rs) && DistinctStarts(rs) && i < |order|
    ensures |NewerIds(rs, order[i])| == i
  {
    var newer, first := NewerIds(rs, order[i]), FirstIds(order, i);
    FirstIdsMembers(order, i);
    forall id | id in newer
      ensures id in first
    {
      var x :| x in rs && x.started > order[i].started && x.id == id;
      assert x in order;
      var j :| 0 <= j < |order| && order[j] == x;
      assert j < i;
    }
    forall id | id in first
      ensures id in newer
    {
      var j :| 0 <= j < i && order[j].id == id;
      assert order[j] in order && order[i] in order;
      assert order[j].started != order[i].started && order[j].started >= order[i].started;
    }
    assert newer == first;
    FirstIdsCount(order, i);
  }

  lemma KeepsAt(order: seq<Record>, i: nat, retain: int, now: int)
    requires UniqueIds(order) && i < |order|
    ensures Keeps(order, retain, now, order[i]) <==> !Expired(order[i], now) && (retain <= 0 || i < retain)
  {}

  /**
   If no two completed records started together, a completed record is kept exactly when it
   has not expired and fewer than retain completed records are newer (or there is no count).
   */
  lemma KeepsIff(rs: seq<Record>, order: seq<Record>, retain: int, now: int, i: nat)
    requires SortedFrom(order, Completed(rs)) && DistinctStarts(Completed(rs)) && i < |order|
    ensures Keeps(order, retain, now, order[i]) <==>
            !Expired(order[i], now) && (retain <= 0 || |NewerIds(Completed(rs), order[i])| < retain)
  {
    PlaceIsNewerCount(Completed(rs), order, i);
    KeepsAt(order, i, retain, now);
  }

  // ---------------------------------------------------------------- records against objects

  /** The list of records, and the objects in the bucket. */
  datatype Vault = Vault(records: seq<Record>, objects: set<string>)

  /** Every completed record has its object. */
  ghost predicate Backed(v: Vault) { forall r :: r in v.records && r.completed ==> r.key in v.objects }

  /** Every object has a completed record. */
  ghost predicate Tracked(v: Vault) {
    forall key :: key in v.objects ==> exists r :: r in v.records && r.completed && r.key == key
  }

  ghost predicate UniqueKeys(v: Vault) {
    forall a, b :: a in v.records && b in v.records && a.key == b.key ==> a == b
  }

  ghost function Dropped(v: Vault, keep: set<int>, refused: set<int>): set<string> {
    DeletedTo(v.records, |v.records|, keep, refused)
  }

  /** The objects of the records whose deletion was refused, and happened nevertheless. */
  ghost function Gone(v: Vault, lost: set<int>): set<string> { set r | r in v.records && r.id in lost :: r.key }

  /** The deletions of some records that are due are reported as failed although they happened. */
  ghost predicate Misreported(v: Vault, keep: set<int>, refused: set<int>, lost: set<int>) {
    forall id :: id in lost ==>
      id in refused && exists r :: r in v.records && r.id == id && r.completed && id !in keep
  }

  /** The retention pass, whose last act, saving the list, may fail. */
  ghost function Cleaned(v: Vault, keep: set<int>, refused: set<int>, lost: set<int>, saved: bool): Vault {
    Vault(if saved then Remaining(v.records, keep, refused) else v.records,
          v.objects - Dropped(v, keep, refused) - Gone(v, lost))
  }

  /** A record that goes and a completed one that stays name the same object. */
  ghost predicate Shared(v: Vault, keep: set<int>, refused: set<int>) {
    exists a, b :: a in v.records && b in v.records && Goes(a, keep, refused) && b.completed && !Goes(b, keep, refused)
      && a.key == b.key
  }

  lemma CleanedMembers(v: Vault, keep: set<int>, refused: set<int>)
    ensures forall r :: r in Remaining(v.records, keep, refused) <==> r in v.records && !Goes(r, keep, refused)
    ensures forall key :: key in Dropped(v, keep, refused) <==>
              exists r :: r in v.records && r.key == key && Goes(r, keep, refused)
  {
    RemainingMembers(v.records, |v.records|, keep, refused);
    assert v.records[..|v.records|] == v.records;
  }

  lemma StaysUnbacked(v: Vault, keep: set<int>, refused: set<int>, lost: set<int>, saved: bool, r: Record)
    requires r in v.records && r.completed && (saved ==> !Goes(r, keep, refused))
    requires r.key in Dropped(v, keep, refused) + Gone(v, lost)
    ensures !Backed(Cleaned(v, keep, refused, lost, saved))
  {
    CleanedMembers(v, keep, refused);
    assert r in Cleaned(v, keep, refused, lost, saved).records;
  }

  lemma CleanupBreaks(v: Vault, keep: set<int>, refused: set<int>, lost: set<int>, saved: bool)
    requires Misreported(v, keep, refused, lost)
    requires lost != {} || (if saved then Shared(v, keep, refused) else Dropped(v, keep, refused) != {})
    ensures !Backed(Cleaned(v, keep, refused, lost, saved))
  {
    CleanedMembers(v, keep, refused);
    if lost != {} {
      HasId(lost);
      var id :| id in lost;
      var r :| r in v.records && r.id == id && r.completed && id !in keep;
      StaysUnbacked(v, keep, refused, lost, saved, r);
    } else if saved {
      var a, b :| a in v.records && b in v.records && Goes(a, keep, refused) && b.completed && !Goes(b, keep, refused)
        && a.key == b.key;
      StaysUnbacked(v, keep, refused, lost, saved, b);
    } else {
      HasKey(Dropped(v, keep, refused));
      var key :| key in Dropped(v, keep, refused);
      var r :| r in v.records && r.key == key && Goes(r, keep, refused);
      StaysUnbacked(v, keep, refused, lost, saved, r);
    }
  }

  lemma CleanupHolds(v: Vault, keep: set<int>, refused: set<int>, lost: set<int>, saved: bool)
    requires Backed(v) && Tracked(v) && lost == {}
    requires if saved then !Shared(v, keep, refused) else Dropped(v, keep, refused) == {}
    ensures Backed(Cleaned(v, keep, refused, lost, saved)) && Tracked(Cleaned(v, keep, refused, lost, saved))
  {
    var v' := Cleaned(v, keep, refused, lost, saved);
    CleanedMembers(v, keep, refused);
    assert Gone(v, lost) == {};
    forall key | key in v'.objects
      ensures exists r :: r in v'.records && r.completed && r.key == key
    {
      var r :| r in v.records && r.completed && r.key == key;
      assert r in v'.records;
    }
  }

  /**
   Records and objects stay in step, both ways, exactly if no deletion is misreported, and if
   the list was saved and no two records name one object of which only one goes, or if nothing
   was deleted.
   */
  lemma CleanupKeepsStepIff(v: Vault, keep: set<int>, refused: set<int>, lost: set<int>, saved: bool)
    requires Backed(v) && Tracked(v) && Misreported(v, keep, refused, lost)
    ensures var v' := Cleaned(v, keep, refused, lost, saved);
            Backed(v') && Tracked(v') <==>
              lost == {} && if saved then !Shared(v, keep, refused) else Dropped(v, keep, refused) == {}
  {
    if lost == {} && if saved then !Shared(v, keep, refused) else Dropped(v, keep, refused) == {} {
      CleanupHolds(v, keep, refused, lost, saved);
    } else {
      CleanupBreaks(v, keep, refused, lost, saved);
    }
  }

  /** In particular, with a key for each record: exactly unless objects were deleted and the list was not saved. */
  lemma UniqueKeysKeepStepIff(v: Vault, keep: set<int>, refused: set<int>, saved: bool)
    requires Backed(v) && Tracked(v) && UniqueKeys(v)
    ensures var v' := Cleaned(v, keep, refused, {}, saved);
            Backed(v') && Tracked(v') <==> saved || Dropped(v, keep, refused) == {}
  {
    CleanupKeepsStepIff(v, keep, refused, {}, saved);
  }

  /** Saving more than the limit keeps the newest ones only. */
  ghost predicate SavedAs(rs: seq<Record>, kept: seq<Record>) {
    if |rs| <= MAX_RECORDS then kept == rs
    else exists s :: SortedFrom(s, rs) && kept == s[..MAX_RECORDS]
  }

  lemma SavedIsShorter(rs: seq<Record>, kept: seq<Record>)
    requires UniqueIds(rs) && SavedAs(rs, kept) && |rs| > MAX_RECORDS
    ensures exists r :: r in rs && r !in kept
  {
    var s: seq<Record> :| SortedFrom(s, rs) && kept == s[..MAX_RECORDS];
    var r := s[MAX_RECORDS];
    assert r in s;
    assert r !in kept;
  }

  /**
   Starting a backup adds a record. It loses none exactly while the list is below the limit;
   at the limit a record is forgotten, and if it was a completed one its object stays behind.
   */
  lemma StartLosesNoneIff(v: Vault, r: Record, kept: seq<Record>)
    requires UniqueIds(v.records + [r]) && SavedAs(v.records + [r], kept)
    ensures (forall x :: x in v.records + [r] ==> x in kept) <==> |v.records| < MAX_RECORDS
  {
    if |v.records| >= MAX_RECORDS {
      SavedIsShorter(v.records + [r], kept);
    }
  }

  /** Whatever is saved is among what was to be saved. */
  lemma SavedMembers(rs: seq<Record>, kept: seq<Record>)
    requires SavedAs(rs, kept)
    ensures forall x :: x in kept ==> x in rs
  {
    if |rs| > MAX_RECORDS {
      var s: seq<Record> :| SortedFrom(s, rs) && kept == s[..MAX_RECORDS];
      assert forall x :: x in kept ==> x in s;
    }
  }

  /** After a start every object still has a record exactly if each completed one has a kept one for its object. */
  lemma StartKeepsTrackedIff(v: Vault, r: Record, kept: seq<Record>)
    requires SavedAs(v.records + [r], kept) && !r.completed
    requires Backed(v) && Tracked(v)
    ensures Tracked(Vault(kept, v.objects)) <==>
            forall x :: x in v.records && x.completed ==> exists y :: y in kept && y.completed && y.key == x.key
  {
    SavedMembers(v.records + [r], kept);
  }

  lemma FewerThanAll(rs: seq<Record>, x: Record)
    requires UniqueIds(rs) && x in rs
    ensures |NewerIds(rs, x)| < |rs|
  {
    var all := FirstIds(rs, |rs|);
    FirstIdsMembers(rs, |rs|);
    FirstIdsCount(rs, |rs|);
    forall id | id in NewerIds(rs, x)
      ensures id in all && id != x.id
    {
      var y :| y in rs && y.started > x.started && y.id == id;
      var j :| 0 <= j < |rs| && rs[j] == y;
      var k :| 0 <= k < |rs| && rs[k] == x;
      assert j != k;
    }
    assert x.id in all;
    SubsetSize(NewerIds(rs, x), all);
  }

  /** If no two records started together, saving keeps exactly those with fewer newer ones than the limit. */
  lemma SavedIff(rs: seq<Record>, kept: seq<Record>, x: Record)
    requires UniqueIds(rs) && SavedAs(rs, kept) && DistinctStarts(rs) && x in rs
    ensures x in kept <==> |NewerIds(rs, x)| < MAX_RECORDS
  {
    if |rs| <= MAX_RECORDS {
      FewerThanAll(rs, x);
    } else {
      var s: seq<Record> :| SortedFrom(s, rs) && kept == s[..MAX_RECORDS];
      var i :| 0 <= i < |s| && s[i] == x;
      PlaceIsNewerCount(rs, s, i);
      assert forall j :: 0 <= j < MAX_RECORDS && s[j] == x ==> j == i;
      if i < MAX_RECORDS {
        assert kept[i] == x;
      }
    }
  }

  /**
   So, if no two records started together, a start leaves an object behind exactly if it has a
   completed record, and all its completed records have as many newer ones as the limit allows.
   */
  lemma StartLeavesOrphanIff(v: Vault, r: Record, kept: seq<Record>)
    requires UniqueIds(v.records + [r]) && DistinctStarts(v.records + [r])
    requires SavedAs(v.records + [r], kept) && !r.completed
    requires Backed(v) && Tracked(v)
    ensures !Tracked(Vault(kept, v.objects)) <==>
            exists x :: x in v.records && x.completed &&
              forall y :: y in v.records && y.completed && y.key == x.key ==>
                |NewerIds(v.records + [r], y)| >= MAX_RECORDS
  {
    StartKeepsTrackedIff(v, r, kept);
    SavedMembers(v.records + [r], kept);
    forall x | x in v.records
      ensures x in kept <==> |NewerIds(v.records + [r], x)| < MAX_RECORDS
    {
      SavedIff(v.records + [r], kept, x);
    }
    assert forall y :: y in kept && y.completed ==> y in v.records;
  }

  /** For instance, if the list is full of completed records older than the new one. */
  lemma FullListLeavesOrphan(v: Vault, r: Record, kept: seq<Record>)
    requires UniqueIds(v.records + [r]) && SavedAs(v.records + [r], kept) && |v.records| >= MAX_RECORDS
    requires Backed(v) && UniqueKeys(Vault(v.records + [r], v.objects))
    requires (forall x :: x in v.records ==> x.completed && x.started < r.started)
    ensures !Tracked(Vault(kept, v.objects))
  {
    SavedIsShorter(v.records + [r], kept);
    var s: seq<Record> :| SortedFrom(s, v.records + [r]) && kept == s[..MAX_RECORDS];
    var x :| x in v.records + [r] && x !in kept;
    assert s[0] in s && s[0] in kept;
    assert x != r;
    assert x in v.records && x.key in v.objects;
    forall y | y in kept && y.completed
      ensures y.key != x.key
    {
      assert y in s;
    }
  }

  // ---------------------------------------------------------------- whole runs

  /** What the object store says of a request. Lost: it reports a failure although it did it. */
  datatype Told = Done | Refused | Lost

  /** The worker. Holding: the object is in the bucket, and its record not yet completed. Retaining: it cleans up. */
  datatype Job = Resting | Started(r: Record) | Holding(r: Record) | Retaining

  datatype Site = Site(v: Vault, job: Job)

  /**
   Begin: a record is added, kept being the list saved. Put: the upload, or a failure before
   it. Complete: the record is updated. Retain: the retention pass. Delete: an administrator
   deletes a record, and its object first. saved: the list could be saved. Crash: the panel is
   lost, and the worker with it.
   */
  datatype Act =
    | Begin(r: Record, kept: seq<Record>, saved: bool)
    | Put(told: Told)
    | Complete(expires: int, saved: bool)
    | Retain(keep: set<int>, refused: set<int>, lost: set<int>, saved: bool)
    | Delete(id: int, told: Told, saved: bool)
    | Crash

  ghost predicate Enabled(s: Site, act: Act) {
    match act
    case Begin(r, kept, _) =>
      s.job.Resting? && !r.completed && UniqueIds(s.v.records + [r]) && SavedAs(s.v.records + [r], kept)
    case Put(_) => s.job.Started?
    case Complete(_, _) => s.job.Holding?
    case Retain(keep, refused, lost, _) => s.job.Retaining? && Misreported(s.v, keep, refused, lost)
    case Delete(id, _, _) => HasRecord(s.v, id)
    case Crash => true
  }

  ghost predicate HasRecord(v: Vault, id: int) { exists r :: r in v.records && r.id == id }

  /** Is the record of this id a completed one? */
  ghost predicate HasObject(v: Vault, id: int) { exists r :: r in v.records && r.id == id && r.completed }

  ghost function KeysOf(v: Vault, id: int): set<string> {
    set r | r in v.records && r.id == id && r.completed :: r.key
  }

  function Without(rs: seq<Record>, id: int): (out: seq<Record>)
    ensures forall r :: r in out <==> r in rs && r.id != id
  {
    if rs == [] then []
    else
      assert rs == rs[..|rs| - 1] + [rs[|rs| - 1]];
      Without(rs[..|rs| - 1], id) + if rs[|rs| - 1].id == id then [] else [rs[|rs| - 1]]
  }

  function Updated(rs: seq<Record>, r: Record): seq<Record> {
    seq(|rs|, i requires 0 <= i < |rs| => if rs[i].id == r.id then r else rs[i])
  }

  /** The list never grows here, so that saving it cuts nothing off. */
  ghost function Next(s: Site, act: Act): Site
    requires Enabled(s, act)
  {
    var v := s.v;
    match act
    case Begin(r, kept, saved) => if saved then Site(v.(records := kept), Started(r)) else s
    case Put(told) =>
      var key := s.job.r.key;
      if told.Refused? then s.(job := Resting)
      else Site(v.(objects := v.objects + {key}), if told.Done? then Holding(s.job.r) else Resting)
    case Complete(expires, saved) =>
      var r := s.job.r.(completed := true, expires := expires);
      Site(if saved then v.(records := Updated(v.records, r)) else v, Retaining)
    case Retain(keep, refused, lost, saved) => Site(Cleaned(v, keep, refused, lost, saved), Resting)
    case Delete(id, told, saved) =>
      if !HasObject(v, id) then s.(v := if saved then v.(records := Without(v.records, id)) else v)
      else if told.Refused? then s
      else
        var objects := v.objects - KeysOf(v, id);
        s.(v := Vault(if told.Done? && saved then Without(v.records, id) else v.records, objects))
    case Crash => s.(job := Resting)
  }

  /** A step that is not enabled changes nothing. */
  ghost function After(s: Site, act: Act): Site { if Enabled(s, act) then Next(s, act) else s }

  ghost function Keys(rs: seq<Record>): set<string> { set r | r in rs && r.completed :: r.key }

  function InHand(job: Job): set<string> { if job.Holding? then {job.r.key} else {} }

  /** The bucket holds exactly the objects of the completed records, and the one the worker is about to record. */
  ghost predicate InStep(s: Site) { s.v.objects == Keys(s.v.records) + InHand(s.job) }

  lemma InStepIff(s: Site)
    requires !s.job.Holding?
    ensures InStep(s) <==> Backed(s.v) && Tracked(s.v)
  {
    if Backed(s.v) && Tracked(s.v) {
      assert s.v.objects == Keys(s.v.records);
    }
  }

  /** Ids are unique, and the record the worker is to complete is not completed yet. */
  ghost predicate Tidy(s: Site) {
    && UniqueIds(s.v.records)
    && (s.job.Started? || s.job.Holding? ==> !HasObject(s.v, s.job.r.id))
  }

  /** For every kind of step, what it takes to keep records and objects in step. */
  ghost predicate Harmless(s: Site, act: Act)
    requires Enabled(s, act)
  {
    var v := s.v;
    match act
    // Each completed record has a kept one for its object.
    case Begin(_, kept, saved) => saved ==> Keys(v.records) <= Keys(kept)
    // An upload reported as failed did not happen, unless another record has that object.
    case Put(told) => told.Lost? ==> s.job.r.key in Keys(v.records)
    // The record is still there and can be saved, unless another one has that object.
    case Complete(_, saved) => (saved && HasRecord(v, s.job.r.id)) || s.job.r.key in Keys(v.records)
    case Retain(keep, refused, lost, saved) =>
      lost == {} && if saved then !Shared(v, keep, refused) else Dropped(v, keep, refused) == {}
    // The deletion is not misreported, the list is saved, and nobody else has that object.
    case Delete(id, told, saved) =>
      !HasObject(v, id) || told.Refused? ||
      (told.Done? && saved && KeysOf(v, id) !! Keys(Without(v.records, id)) + InHand(s.job))
    case Crash => s.job.Holding? ==> s.job.r.key in Keys(v.records)
  }

  lemma {:induction false} RemainingIsUnique(rs: seq<Record>, n: nat, keep: set<int>, refused: set<int>)
    requires UniqueIds(rs) && n <= |rs|
    ensures UniqueIds(RemainingTo(rs, n, keep, refused))
  {
    if n > 0 {
      RemainingIsUnique(rs, n - 1, keep, refused);
      RemainingMembers(rs, n - 1, keep, refused);
      assert forall r :: r in rs[..n - 1] ==> r.id != rs[n - 1].id;
    }
  }

  lemma {:induction false} WithoutIsUnique(rs: seq<Record>, id: int)
    requires UniqueIds(rs)
    ensures UniqueIds(Without(rs, id))
  {
    if rs != [] {
      var front, last := rs[..|rs| - 1], rs[|rs| - 1];
      WithoutIsUnique(front, id);
      assert forall r :: r in front ==> r.id != last.id;
    }
  }

  lemma SavedIsUnique(rs: seq<Record>, kept: seq<Record>)
    requires UniqueIds(rs) && SavedAs(rs, kept)
    ensures UniqueIds(kept)
  {}

  lemma UpdatedMembers(rs: seq<Record>, r: Record)
    ensures forall x :: x in Updated(rs, r) ==> x == r || (x in rs && x.id != r.id)
    ensures forall x :: x in rs && x.id != r.id ==> x in Updated(rs, r)
    ensures (exists x :: x in rs && x.id == r.id) ==> r in Updated(rs, r)
  {
    forall x | x in rs
      ensures if x.id != r.id then x in Updated(rs, r) else r in Updated(rs, r)
    {
      var i :| 0 <= i < |rs| && rs[i] == x;
      assert Updated(rs, r)[i] in Updated(rs, r);
    }
  }

  lemma BeginIsTidy(s: Site, r: Record, kept: seq<Record>, saved: bool)
    requires Tidy(s) && Enabled(s, Begin(r, kept, saved))
    ensures Tidy(Next(s, Begin(r, kept, saved)))
  {
    SavedIsUnique(s.v.records + [r], kept);
    SavedMembers(s.v.records + [r], kept);
    forall x | x in s.v.records
      ensures x.id != r.id
    {
      var i :| 0 <= i < |s.v.records| && s.v.records[i] == x;
      assert (s.v.records + [r])[i] == x && (s.v.records + [r])[|s.v.records|] == r;
    }
  }

  lemma StepIsTidy(s: Site, act: Act)
    requires Tidy(s) && Enabled(s, act)
    ensures Tidy(Next(s, act))
  {
    match act
    case Begin(r, kept, saved) => BeginIsTidy(s, r, kept, saved);
    case Retain(keep, refused, lost, saved) => RemainingIsUnique(s.v.records, |s.v.records|, keep, refused);
    case Delete(id, told, saved) => WithoutIsUnique(s.v.records, id);
    case _ =>
  }

  lemma BeginInStepIff(s: Site, act: Act)
    requires InStep(s) && act.Begin? && Enabled(s, act)
    ensures InStep(Next(s, act)) <==> Harmless(s, act)
  {
    SavedMembers(s.v.records + [act.r], act.kept);
    assert Keys(act.kept) <= Keys(s.v.records);
  }

  lemma PutInStepIff(s: Site, act: Act)
    requires InStep(s) && act.Put? && Enabled(s, act)
    ensures InStep(Next(s, act)) <==> Harmless(s, act)
  {}

  lemma CompletedKeys(s: Site, r: Record)
    requires !HasObject(s.v, r.id) && r.completed
    ensures Keys(Updated(s.v.records, r)) ==
            if HasRecord(s.v, r.id) then Keys(s.v.records) + {r.key} else Keys(s.v.records)
  {
    UpdatedMembers(s.v.records, r);
  }

  lemma CompleteInStepIff(s: Site, act: Act)
    requires Tidy(s) && InStep(s) && act.Complete? && Enabled(s, act)
    ensures InStep(Next(s, act)) <==> Harmless(s, act)
  {
    CompletedKeys(s, s.job.r.(completed := true, expires := act.expires));
  }

  lemma RetainInStepIff(s: Site, act: Act)
    requires InStep(s) && act.Retain? && Enabled(s, act)
    ensures InStep(Next(s, act)) <==> Harmless(s, act)
  {
    InStepIff(s);
    InStepIff(Next(s, act));
    CleanupKeepsStepIff(s.v, act.keep, act.refused, act.lost, act.saved);
  }

  lemma WithoutKeys(v: Vault, id: int)
    ensures Keys(v.records) == Keys(Without(v.records, id)) + KeysOf(v, id)
    ensures HasObject(v, id) ==> exists key :: key in KeysOf(v, id)
  {
    if HasObject(v, id) {
      var r :| r in v.records && r.id == id && r.completed;
      assert r.key in KeysOf(v, id);
    }
  }

  lemma DeleteInStepIff(s: Site, act: Act)
    requires InStep(s) && act.Delete? && Enabled(s, act)
    ensures InStep(Next(s, act)) <==> Harmless(s, act)
  {
    WithoutKeys(s.v, act.id);
    assert !HasObject(s.v, act.id) ==> KeysOf(s.v, act.id) == {};
  }

  /** For every kind of step the exact condition under which it keeps records and objects in step. */
  lemma StepKeepsStepIff(s: Site, act: Act)
    requires Tidy(s) && InStep(s) && Enabled(s, act)
    ensures InStep(Next(s, act)) <==> Harmless(s, act)
  {
    match act
    case Begin(_, _, _) => BeginInStepIff(s, act);
    case Put(_) => PutInStepIff(s, act);
    case Complete(_, _) => CompleteInStepIff(s, act);
    case Retain(_, _, _, _) => RetainInStepIff(s, act);
    case Delete(_, _, _) => DeleteInStepIff(s, act);
    case Crash =>
  }

  const EMPTY := Site(Vault([], {}), Resting)

  /** The state after the first n steps, from an empty list and bucket. */
  ghost function At(acts: seq<Act>, n: nat): Site
    requires n <= |acts|
  {
    if n == 0 then EMPTY else After(At(acts, n - 1), acts[n - 1])
  }

  ghost predicate AllInStep(acts: seq<Act>, n: nat)
    requires n <= |acts|
  {
    InStep(At(acts, n)) && (n > 0 ==> AllInStep(acts, n - 1))
  }

  ghost predicate AllHarmless(acts: seq<Act>, n: nat)
    requires n <= |acts|
  {
    n > 0 ==>
      && AllHarmless(acts, n - 1)
      && (Enabled(At(acts, n - 1), acts[n - 1]) ==> Harmless(At(acts, n - 1), acts[n - 1]))
  }

  lemma {:induction false} AlwaysTidy(acts: seq<Act>, n: nat)
    requires n <= |acts|
    ensures Tidy(At(acts, n))
  {
    if n > 0 {
      AlwaysTidy(acts, n - 1);
      if Enabled(At(acts, n - 1), acts[n - 1]) {
        StepIsTidy(At(acts, n - 1), acts[n - 1]);
      }
    }
  }

  /**
   Over any run of backups, retention passes, deletions and losses of the panel: the bucket
   matches the records all along exactly if every step is harmless.
   */
  lemma {:induction false} RunInStepIff(acts: seq<Act>, n: nat)
    requires n <= |acts|
    ensures AllInStep(acts, n) <==> AllHarmless(acts, n)
  {
    if n > 0 {
      RunInStepIff(acts, n - 1);
      AlwaysTidy(acts, n - 1);
      var s := At(acts, n - 1);
      if InStep(s) && Enabled(s, acts[n - 1]) {
        StepKeepsStepIff(s, acts[n - 1]);
      }
    }
  }

  // ---------------------------------------------------------------- two backups of one second

  ghost predicate Reachable(s: Site) { exists acts: seq<Act> :: At(acts, |acts|) == s }

  lemma {:induction false} AtPrefix(acts: seq<Act>, more: seq<Act>, n: nat)
    requires n <= |acts|
    ensures At(acts + more, n) == At(acts, n)
  {
    if n > 0 {
      AtPrefix(acts, more, n - 1);
    }
  }

  lemma Onward(s: Site, act: Act) returns (s': Site)
    requires Reachable(s) && Enabled(s, act)
    ensures Reachable(s') && s' == Next(s, act)
  {
    var acts: seq<Act> :| At(acts, |acts|) == s;
    AtPrefix(acts, [act], |acts|);
    s' := At(acts + [act], |acts + [act]|);
  }

  function Backup(r: Record): Record { r.(completed := true, expires := 0) }

  /** A backup that goes well, up to the retention pass. */
  lemma OneMoreBackup(s: Site, r: Record) returns (s': Site)
    requires Reachable(s) && s.job.Resting? && !r.completed && UniqueIds(s.v.records + [r])
    requires |s.v.records| < MAX_RECORDS
    ensures Reachable(s') && s' == Site(Vault(s.v.records + [Backup(r)], s.v.objects + {r.key}), Retaining)
  {
    s' := Onward(s, Begin(r, s.v.records + [r], true));
    s' := Onward(s', Put(Done));
    s' := Onward(s', Complete(0, true));
    var rs := s.v.records + [r];
    assert rs[|s.v.records|] == r;
    assert Updated(rs, Backup(r)) == s.v.records + [Backup(r)];
  }

  lemma NothingRetained(s: Site, keep: set<int>) returns (s': Site)
    requires Reachable(s) && s.job.Retaining? && forall r :: r in s.v.records ==> r.id in keep
    ensures Reachable(s') && s' == s.(job := Resting)
  {
    s' := Onward(s, Retain(keep, {}, {}, true));
    AllRemain(s.v.records, |s.v.records|, keep);
    CleanedMembers(s.v, keep, {});
    assert s.v.records[..|s.v.records|] == s.v.records;
    assert Dropped(s.v, keep, {}) == {} && Gone(s.v, {}) == {};
  }

  lemma {:induction false} AllRemain(rs: seq<Record>, n: nat, keep: set<int>)
    requires n <= |rs| && forall r :: r in rs ==> r.id in keep
    ensures RemainingTo(rs, n, keep, {}) == rs[..n]
  {
    if n > 0 {
      AllRemain(rs, n - 1, keep);
    }
  }

  /** The ids kept are those the retention rule keeps. */
  ghost predicate ByRule(v: Vault, retain: int, now: int, keep: set<int>) {
    exists order: seq<Record> :: SortedFrom(order, Completed(v.records)) &&
      forall r :: r in order ==> (r.id in keep <==> Keeps(order, retain, now, r))
  }

  lemma RuleKeepsFirst(a: Record, b: Record, now: int)
    requires a.completed && b.completed && a.id != b.id && a.started == b.started && a.expires == 0
    ensures ByRule(Vault([a] + [b], {a.key}), 1, now, {a.id})
  {
    var rs := [a] + [b];
    assert rs[..1] == [a] && [a][..0] == [];
    assert Completed(rs) == Completed([a]) + [b] && Completed([a]) == Completed([]) + [a] == [a];
    assert SortedFrom(rs, Completed(rs));
    assert rs[0] == a && Keeps(rs, 1, now, a);
  }

  lemma BothBackedUp(a: Record, b: Record) returns (s: Site)
    requires !a.completed && !b.completed && a.id != b.id && a.key == b.key
    ensures Reachable(s) && s == Site(Vault([Backup(a)] + [Backup(b)], {a.key}), Retaining)
  {
    s := At([], 0);
    assert Reachable(s);
    s := OneMoreBackup(s, a);
    assert s.v.records == [Backup(a)] && s.v.objects == {a.key};
    s := NothingRetained(s, {a.id});
    s := OneMoreBackup(s, b);
    assert s.v.objects == {a.key};
  }

  /** A retention pass by the rule, in which nothing fails, and after which records and objects are out of step. */
  ghost predicate Loses(s: Site, retain: int, now: int, keep: set<int>) {
    var act := Retain(keep, {}, {}, true);
    InStep(s) && ByRule(s.v, retain, now, keep) && Enabled(s, act) && !InStep(Next(s, act))
  }

  lemma SharedIsLost(s: Site, a: Record, b: Record)
    requires s == Site(Vault([a] + [b], {a.key}), Retaining)
    requires a.completed && b.completed && a.id != b.id && a.key == b.key
    ensures InStep(s) && !InStep(Next(s, Retain({a.id}, {}, {}, true)))
  {
    assert a in s.v.records && b in s.v.records;
    assert Keys(s.v.records) == {a.key};
    assert Goes(b, {a.id}, {}) && !Goes(a, {a.id}, {});
    RetainInStepIff(s, Retain({a.id}, {}, {}, true));
  }

  /**
   The name of a plain backup has a resolution of one second. Two backups begun in the same
   second name one object; with a count of one, the retention pass after the second one drops
   either record, and takes the object from the other, although nothing fails.
   */
  lemma SameSecondLosesBackup(a: Record, b: Record, now: int)
    requires !a.completed && !b.completed && a.id != b.id && a.started == b.started && a.key == b.key
    ensures exists s: Site, keep: set<int> ::
              Reachable(s) && s.v.records == [Backup(a)] + [Backup(b)] && Loses(s, 1, now, keep)
  {
    var s := BothBackedUp(a, b);
    RuleKeepsFirst(Backup(a), Backup(b), now);
    SharedIsLost(s, Backup(a), Backup(b));
    assert Loses(s, 1, now, {a.id});
  }
}
