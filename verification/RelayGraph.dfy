/**
 The graph of relay inbounds: each inbound names at most one upstream it exits through.
 Three walkers read it: the check before an inbound is saved (internal/api/sb_admin.go),
 the check of a logical route (internal/api/nodes_admin.go) and the path shown to users
 (internal/api/nodetopo.go). Saves and deletes change it (internal/store/singbox.go).
 Relay metering, which checks the graph again inside the transaction, is off here.
 */
module RelayGraph {
  import opened Wrappers

  datatype Kind = Dialable | Mixed | Other

  datatype Inbound = Inbound(upstream: int, enabled: bool, kind: Kind, egress: int, broken: bool)

  type Graph = map<int, Inbound>

  const MAX_HOPS: nat := 16

  function Up(g: Graph, id: int): int { if id in g then g[id].upstream else 0 }

  /** The n-th inbound downstream of id; 0 once the chain has ended. */
  function Follow(g: Graph, id: int, n: nat): int
    decreases n
  {
    if n == 0 then id else Follow(g, Up(g, id), n - 1)
  }

  ghost predicate Acyclic(g: Graph) {
    forall id, n: nat :: id in g && n > 0 ==> Follow(g, id, n) != id
  }

  lemma {:induction false} FollowAdds(g: Graph, id: int, a: nat, b: nat)
    ensures Follow(g, id, a + b) == Follow(g, Follow(g, id, a), b)
    decreases a
  {
    if a > 0 {
      FollowAdds(g, Up(g, id), a - 1, b);
    }
  }

  lemma FollowNext(g: Graph, id: int, n: nat)
    ensures Follow(g, id, n + 1) == Up(g, Follow(g, id, n))
  {
    FollowAdds(g, id, n, 1);
    assert Follow(g, Follow(g, id, n), 1) == Follow(g, Up(g, Follow(g, id, n)), 0);
  }

  /** Once a chain repeats itself it never leaves the graph. */
  lemma {:induction false} RepeatStays(g: Graph, id: int, i: nat, j: nat, n: nat)
    requires i < j && Follow(g, id, i) == Follow(g, id, j)
    requires forall k: nat :: k <= j ==> Follow(g, id, k) in g
    ensures Follow(g, id, n) in g
    decreases n
  {
    if n > j {
      FollowAdds(g, id, j, n - j);
      FollowAdds(g, id, i, n - j);
      RepeatStays(g, id, i, j, i + (n - j));
    }
  }

  lemma {:induction false} AfterEnd(g: Graph, id: int, n: nat, k: nat)
    requires 0 !in g && Follow(g, id, n) !in g && n <= k
    ensures Follow(g, id, k) !in g && (k > n ==> Follow(g, id, k) == 0)
    decreases k
  {
    if k > n {
      AfterEnd(g, id, n, k - 1);
      FollowNext(g, id, k - 1);
    }
  }

  // ---------------------------------------------------------------- the check before a save

  /** The chain from u ends within the depth limit and never meets x. */
  ghost predicate Ends(g: Graph, x: int, u: int, k: nat) {
    && 1 <= k <= MAX_HOPS
    && (forall i: nat :: i < k ==> Follow(g, u, i) in g && Follow(g, u, i) != x)
    && Follow(g, u, k) !in g
  }

  ghost predicate Acceptable(g: Graph, x: int, u: int) { u == 0 || (u != x && exists k :: Ends(g, x, u, k)) }

  /** x is 0 while the inbound has no id yet. A chain that dangles is taken to end there. */
  method CheckUpstream(g: Graph, x: int, u: int) returns (ok: bool)
    requires 0 !in g
    ensures ok <==> Acceptable(g, x, u)
  {
    if u == 0 {
      return true;
    }
    assert Follow(g, u, 0) == u;
    if u == x || u !in g {
      return false;
    }
    var seen := {x};
    var cur := u;
    ghost var v: nat := 0;
    while cur in g
      invariant v <= MAX_HOPS && cur == Follow(g, u, v)
      invariant forall i: nat :: i < v ==> Follow(g, u, i) in g && Follow(g, u, i) != x
      invariant forall id :: id in seen <==> id == x || exists i: nat :: i < v && Follow(g, u, i) == id
      invariant |seen| == v + 1
      decreases MAX_HOPS - v
    {
      if cur in seen || |seen| > MAX_HOPS {
        Refused(g, x, u, v);
        return false;
      }
      seen := seen + {cur};
      FollowNext(g, u, v);
      v := v + 1;
      if g[cur].upstream == 0 {
        assert Follow(g, u, v) == 0;
        assert Ends(g, x, u, v);
        return true;
      }
      cur := g[cur].upstream;
    }
    assert Ends(g, x, u, v);
    return true;
  }

  lemma Refused(g: Graph, x: int, u: int, v: nat)
    requires v <= MAX_HOPS && Follow(g, u, v) in g
    requires forall i: nat :: i < v ==> Follow(g, u, i) in g
    requires Follow(g, u, v) == x || v == MAX_HOPS || exists i: nat :: i < v && Follow(g, u, i) == Follow(g, u, v)
    ensures !exists k :: Ends(g, x, u, k)
  {
    forall k: nat | Ends(g, x, u, k)
      ensures false
    {
      assert k > v;
      if i: nat :| i < v && Follow(g, u, i) == Follow(g, u, v) {
        RepeatStays(g, u, i, v, k);
      }
    }
  }

  // ---------------------------------------------------------------- saves and deletes

  /** What an update stores. The warning clears only when the save gives the inbound an exit again. */
  function Saved(g: Graph, x: int, n: Inbound): Graph {
    var was := x in g && g[x].broken;
    g[x := n.(broken := was && n.upstream == 0 && n.egress == 0)]
  }

  /** Deleting un-chains the relays that exited through the inbound, and flags them. */
  function Deleted(g: Graph, d: int): Graph {
    map id | id in g && id != d :: if g[id].upstream == d then g[id].(upstream := 0, broken := true) else g[id]
  }

  /** nextId: ids are never used again. */
  datatype Db = Db(g: Graph, nextId: int)

  ghost predicate Valid(db: Db) {
    && 0 < db.nextId && 0 !in db.g
    && forall id :: id in db.g ==> 0 < id < db.nextId && 0 <= db.g[id].upstream < db.nextId
  }

  lemma {:induction false} AgreeOff(g: Graph, h: Graph, x: int, id: int, n: nat)
    requires forall k :: k != x ==> Up(g, k) == Up(h, k)
    requires forall i: nat :: i < n ==> Follow(g, id, i) != x
    ensures Follow(h, id, n) == Follow(g, id, n)
  {
    if n > 0 {
      AgreeOff(g, h, x, id, n - 1);
      FollowNext(g, id, n - 1);
      FollowNext(h, id, n - 1);
    }
  }

  /** A cycle through x leads from x's upstream back to x. */
  lemma CycleThrough(g: Graph, id: int, n: nat, i: nat)
    requires n > 0 && Follow(g, id, n) == id && i < n
    ensures Follow(g, Up(g, Follow(g, id, i)), n - 1) == Follow(g, id, i)
  {
    var x := Follow(g, id, i);
    FollowAdds(g, id, i, n);
    FollowAdds(g, id, n, i);
    assert Follow(g, x, n) == Follow(g, Up(g, x), n - 1);
  }

  /** Follows the stored chain from u until it meets x or n steps are done. */
  lemma {:induction false} FirstMeeting(g: Graph, u: int, x: int, n: nat) returns (i: nat)
    requires Follow(g, u, n) == x
    ensures i <= n && Follow(g, u, i) == x && forall k: nat :: k < i ==> Follow(g, u, k) != x
  {
    i := 0;
    while Follow(g, u, i) != x
      invariant i <= n && forall k: nat :: k < i ==> Follow(g, u, k) != x
      decreases n - i
    {
      i := i + 1;
    }
  }

  lemma ClosingLinkMakesCycle(g: Graph, x: int, n: Inbound, k: nat)
    requires x != 0 && Follow(g, n.upstream, k) == x
    ensures !Acyclic(Saved(g, x, n))
  {
    var h, u := Saved(g, x, n), n.upstream;
    var i := FirstMeeting(g, u, x, k);
    AgreeOff(g, h, x, u, i);
    assert Follow(h, x, i + 1) == Follow(h, Up(h, x), i) == x;
  }

  lemma OpenLinkKeepsAcyclic(g: Graph, x: int, n: Inbound)
    requires x != 0 && Acyclic(g) && forall k: nat :: Follow(g, n.upstream, k) != x
    ensures Acyclic(Saved(g, x, n))
  {
    var h, u := Saved(g, x, n), n.upstream;
    forall id, m: nat | id in h && m > 0
      ensures Follow(h, id, m) != id
    {
      assert Follow(h, id, 0) == id;
      if Follow(h, id, m) == id {
        if i: nat :| i < m && Follow(h, id, i) == x {
          CycleThrough(h, id, m, i);
          AgreeOff(g, h, x, u, m - 1);
        } else {
          AgreeOff(h, g, x, id, m);
        }
      }
    }
  }

  /**
   The exact condition for one stored save: an acyclic graph stays acyclic if and only if
   the chain from the new upstream, as stored at that moment, never meets the inbound.
   */
  lemma SaveKeepsAcyclicIff(g: Graph, x: int, n: Inbound)
    requires x != 0 && Acyclic(g)
    ensures Acyclic(Saved(g, x, n)) <==> forall k: nat :: Follow(g, n.upstream, k) != x
  {
    if k: nat :| Follow(g, n.upstream, k) == x {
      ClosingLinkMakesCycle(g, x, n, k);
    } else {
      OpenLinkKeepsAcyclic(g, x, n);
    }
  }

  lemma {:induction false} DeletedFollows(g: Graph, d: int, id: int, n: nat)
    requires 0 !in g
    ensures Follow(Deleted(g, d), id, n) == 0 || Follow(Deleted(g, d), id, n) == Follow(g, id, n)
  {
    if n > 0 {
      DeletedFollows(g, d, id, n - 1);
      FollowNext(g, id, n - 1);
      FollowNext(Deleted(g, d), id, n - 1);
    }
  }

  lemma DeleteKeepsAcyclic(g: Graph, d: int)
    requires 0 !in g && Acyclic(g)
    ensures Acyclic(Deleted(g, d))
  {
    forall id, n: nat | id in Deleted(g, d) && n > 0
      ensures Follow(Deleted(g, d), id, n) != id
    {
      DeletedFollows(g, d, id, n);
    }
  }

  lemma {:induction false} FollowBelow(db: Db, u: int, k: nat)
    requires Valid(db) && 0 <= u < db.nextId
    ensures 0 <= Follow(db.g, u, k) < db.nextId
    decreases k
  {
    if k > 0 {
      FollowBelow(db, Up(db.g, u), k - 1);
    }
  }

  lemma AcceptableNeverMeets(g: Graph, x: int, u: int, k: nat)
    requires 0 !in g && x in g && Acceptable(g, x, u)
    ensures Follow(g, u, k) != x
  {
    if u == 0 {
      assert Follow(g, 0, 0) !in g;
      AfterEnd(g, 0, 0, k);
    } else {
      var e :| Ends(g, x, u, e);
      if k >= e {
        AfterEnd(g, u, e, k);
      }
    }
  }

  // ---------------------------------------------------------------- runs of requests

  /**
   A save is two requests to the store: the check reads, and a later transaction writes what
   the check accepted. x is 0 for a new inbound.
   */
  datatype Op = Begin(x: int, n: Inbound) | Commit(i: nat) | Delete(d: int)

  datatype Admin = Admin(db: Db, accepted: seq<(int, Inbound)>)

  function Stored(db: Db, x: int, n: Inbound): Db {
    if x == 0 then Db(Saved(db.g, db.nextId, n), db.nextId + 1)
    else if x in db.g then db.(g := Saved(db.g, x, n))
    else db
  }

  ghost function Apply(a: Admin, op: Op): Admin {
    match op
    case Begin(x, n) => if x >= 0 && Acceptable(a.db.g, x, n.upstream) then a.(accepted := a.accepted + [(x, n)]) else a
    case Commit(i) =>
      if i < |a.accepted| then
        Admin(Stored(a.db, a.accepted[i].0, a.accepted[i].1), a.accepted[..i] + a.accepted[i + 1..])
      else a
    case Delete(d) => a.(db := a.db.(g := Deleted(a.db.g, d)))
  }

  ghost function Exec(a: Admin, ops: seq<Op>): Admin {
    if ops == [] then a else Apply(Exec(a, ops[..|ops| - 1]), ops[|ops| - 1])
  }

  /** Requests that do not overlap: each save commits before anything else happens. */
  datatype Request = Save(x: int, n: Inbound) | Remove(d: int)

  ghost function Serve(db: Db, r: Request): Db {
    match r
    case Save(x, n) => if x >= 0 && Acceptable(db.g, x, n.upstream) then Stored(db, x, n) else db
    case Remove(d) => db.(g := Deleted(db.g, d))
  }

  ghost function ServeAll(db: Db, rs: seq<Request>): Db {
    if rs == [] then db else Serve(ServeAll(db, rs[..|rs| - 1]), rs[|rs| - 1])
  }

  ghost predicate Sound(db: Db) { Valid(db) && Acyclic(db.g) }

  lemma StoredIsSoundIff(db: Db, x: int, n: Inbound)
    requires Sound(db) && 0 <= x && 0 <= n.upstream < db.nextId
    ensures Valid(Stored(db, x, n))
    ensures Sound(Stored(db, x, n)) <==> x !in db.g || forall k: nat :: Follow(db.g, n.upstream, k) != x
  {
    if x == 0 {
      forall k: nat
        ensures Follow(db.g, n.upstream, k) != db.nextId
      {
        FollowBelow(db, n.upstream, k);
      }
      SaveKeepsAcyclicIff(db.g, db.nextId, n);
    } else if x in db.g {
      SaveKeepsAcyclicIff(db.g, x, n);
    }
  }

  lemma ServeKeeps(db: Db, r: Request)
    requires Sound(db)
    ensures Sound(Serve(db, r))
  {
    match r
    case Remove(d) => DeleteKeepsAcyclic(db.g, d);
    case Save(x, n) =>
      if x >= 0 && Acceptable(db.g, x, n.upstream) {
        if n.upstream != 0 {
          var k :| Ends(db.g, x, n.upstream, k);
          assert Follow(db.g, n.upstream, 0) in db.g;
        }
        StoredIsSoundIff(db, x, n);
        if x in db.g {
          forall k: nat
            ensures Follow(db.g, n.upstream, k) != x
          {
            AcceptableNeverMeets(db.g, x, n.upstream, k);
          }
        }
      }
  }

  /** Over any run of requests that do not overlap, the stored graph stays acyclic. */
  lemma {:induction false} AlwaysAcyclic(db: Db, rs: seq<Request>)
    requires Sound(db)
    ensures Sound(ServeAll(db, rs))
  {
    if rs != [] {
      AlwaysAcyclic(db, rs[..|rs| - 1]);
      ServeKeeps(ServeAll(db, rs[..|rs| - 1]), rs[|rs| - 1]);
    }
  }

  function Plain(u: int): Inbound { Inbound(u, true, Dialable, 0, false) }

  lemma ExecStep(a: Admin, ops: seq<Op>, op: Op)
    ensures Exec(a, ops + [op]) == Apply(Exec(a, ops), op)
  {}

  lemma TwoIsolatedAreSound(a: int, b: int)
    requires 0 < a && 0 < b && a != b
    ensures Sound(Db(map[a := Plain(0), b := Plain(0)], a + b + 1))
  {
    var g := map[a := Plain(0), b := Plain(0)];
    forall id, n: nat | id in g && n > 0
      ensures Follow(g, id, n) != id
    {
      assert Follow(g, id, 1) == Follow(g, Up(g, id), 0) == 0;
      AfterEnd(g, id, 1, n);
    }
  }

  lemma OneHopIsAcceptable(g: Graph, x: int, u: int)
    requires 0 !in g && u in g && u != x && g[u].upstream == 0
    ensures Acceptable(g, x, u)
  {
    FollowNext(g, u, 0);
    assert Follow(g, u, 0) == u && Ends(g, x, u, 1);
  }

  lemma TwoBegins(s: Admin, x: int, n: Inbound, y: int, m: Inbound) returns (ops: seq<Op>)
    requires x > 0 && y > 0 && s.accepted == [] && Acceptable(s.db.g, x, n.upstream)
        && Acceptable(s.db.g, y, m.upstream)
    ensures Exec(s, ops) == Admin(s.db, [(x, n)] + [(y, m)])
  {
    ops := [Begin(x, n)] + [Begin(y, m)];
    ExecStep(s, [], Begin(x, n));
    assert [] + [Begin(x, n)] == [Begin(x, n)];
    ExecStep(s, [Begin(x, n)], Begin(y, m));
  }

  lemma CommitFirst(s: Admin, ops: seq<Op>, db: Db, x: int, n: Inbound, rest: seq<(int, Inbound)>)
    requires x > 0 && x in db.g && Exec(s, ops) == Admin(db, [(x, n)] + rest)
    ensures Exec(s, ops + [Commit(0)]) == Admin(db.(g := Saved(db.g, x, n)), rest)
  {}

  lemma TwoCommits(s: Admin, ops: seq<Op>, x: int, n: Inbound, y: int, m: Inbound) returns (more: seq<Op>)
    requires x > 0 && y > 0 && Exec(s, ops) == Admin(s.db, [(x, n)] + [(y, m)]) && x in s.db.g && y in s.db.g
    ensures Exec(s, more).db.g == Saved(Saved(s.db.g, x, n), y, m)
  {
    CommitFirst(s, ops, s.db, x, n, [(y, m)]);
    assert [(y, m)] == [(y, m)] + [];
    CommitFirst(s, ops + [Commit(0)], s.db.(g := Saved(s.db.g, x, n)), y, m, []);
    more := ops + [Commit(0)] + [Commit(0)];
  }

  lemma LinksBothWays(g: Graph, a: int, b: int)
    requires a != b && a in g && b in g && g[a].upstream == b && g[b].upstream == a
    ensures !Acyclic(g)
  {
    FollowNext(g, a, 0);
    FollowNext(g, a, 1);
    assert Follow(g, a, 2) == a;
  }

  /** Requests that overlap can: two checks, each accepted on the same graph, then two commits. */
  lemma OverlappingSavesMakeCycle(a: int, b: int)
    requires 0 < a && 0 < b && a != b
    ensures exists s: Admin, ops: seq<Op> :: Sound(s.db) && s.accepted == [] && !Acyclic(Exec(s, ops).db.g)
  {
    var g := map[a := Plain(0), b := Plain(0)];
    var s := Admin(Db(g, a + b + 1), []);
    TwoIsolatedAreSound(a, b);
    OneHopIsAcceptable(g, a, b);
    OneHopIsAcceptable(g, b, a);
    var ops := TwoBegins(s, a, Plain(b), b, Plain(a));
    ops := TwoCommits(s, ops, a, Plain(b), b, Plain(a));
    LinksBothWays(Exec(s, ops).db.g, a, b);
  }

  // ---------------------------------------------------------------- the depth limit

  /** The chain from u has at most m inbounds. */
  ghost predicate EndsWithin(g: Graph, u: int, m: int) { exists k: nat :: k <= m && Follow(g, u, k) !in g }

  /** Below every stored inbound there are at most as many as the check allows. */
  ghost predicate Bounded(g: Graph) { forall id :: id in g ==> EndsWithin(g, Up(g, id), MAX_HOPS) }

  /** What lies below y is then: a inbounds down to x, and the chain from x's new upstream. */
  ghost predicate FitsAbove(g: Graph, x: int, u: int, y: int) {
    forall a: nat :: Follow(g, y, a) == x ==> EndsWithin(g, u, MAX_HOPS - a)
  }

  lemma FollowFirst(g: Graph, id: int, n: nat)
    ensures Follow(g, id, n + 1) == Follow(g, Up(g, id), n)
  {}

  lemma LeavesOnce(g: Graph, x: int, k: nat, n: nat)
    requires 0 !in g && x != 0 && Follow(g, x, k + 1) !in g && n > 0
    ensures Follow(g, x, n) != x
  {
    if Follow(g, x, n) == x {
      if x in g {
        assert Follow(g, x, 0) == x;
        forall i: nat | i <= n
          ensures Follow(g, x, i) in g
        {
          if Follow(g, x, i) !in g {
            AfterEnd(g, x, i, n);
          }
        }
        RepeatStays(g, x, 0, n, k + 1);
      } else {
        assert Follow(g, x, 0) !in g;
        AfterEnd(g, x, 0, n);
      }
    }
  }

  /** A chain that meets x once continues, after the save, from the new upstream. */
  lemma FollowSaved(g: Graph, x: int, n: Inbound, y: int, a: nat, k: nat)
    requires 0 !in g && Follow(g, y, a) == x && forall i: nat :: i < a ==> Follow(g, y, i) != x
    requires forall i: nat :: Follow(g, n.upstream, i) != x
    ensures Follow(Saved(g, x, n), y, a) == x
    ensures Follow(Saved(g, x, n), y, a + 1 + k) == Follow(g, n.upstream, k)
  {
    var h := Saved(g, x, n);
    AgreeOff(g, h, x, y, a);
    FollowAdds(h, y, a, 1 + k);
    assert Follow(h, x, 1 + k) == Follow(h, Up(h, x), k);
    AgreeOff(g, h, x, n.upstream, k);
  }

  lemma FitsKeeps(g: Graph, x: int, n: Inbound, y: int)
    requires 0 !in g && x != 0 && Bounded(g) && (forall i: nat :: Follow(g, n.upstream, i) != x)
    requires (y == x || y in g) && FitsAbove(g, x, n.upstream, y)
    ensures EndsWithin(Saved(g, x, n), Up(Saved(g, x, n), y), MAX_HOPS)
  {
    var h := Saved(g, x, n);
    assert Follow(g, x, 0) == x;
    if m: nat :| Follow(g, y, m) == x {
      var a := FirstMeeting(g, y, x, m);
      var k: nat :| k <= MAX_HOPS - a && Follow(g, n.upstream, k) !in g;
      FollowSaved(g, x, n, y, a, k);
      FollowFirst(h, y, a + k);
    } else {
      var k: nat :| k <= MAX_HOPS && Follow(g, Up(g, y), k) !in g;
      FollowFirst(g, y, k);
      AgreeOff(g, h, x, y, k + 1);
      FollowFirst(h, y, k);
    }
  }

  lemma KeptFits(g: Graph, x: int, n: Inbound, y: int, a: nat)
    requires 0 !in g && x != 0 && Bounded(g) && (forall i: nat :: Follow(g, n.upstream, i) != x)
    requires EndsWithin(Saved(g, x, n), Up(Saved(g, x, n), y), MAX_HOPS) && Follow(g, y, a) == x
    ensures EndsWithin(g, n.upstream, MAX_HOPS - a)
  {
    var h := Saved(g, x, n);
    var i := FirstMeeting(g, y, x, a);
    MeetsOnce(g, x, y, i, a);
    var j: nat :| j <= MAX_HOPS && Follow(h, Up(h, y), j) !in h;
    FollowFirst(h, y, j);
    FollowSaved(g, x, n, y, a, 0);
    if j + 1 <= a {
      AfterEnd(h, y, j + 1, a);
    }
    FollowSaved(g, x, n, y, a, j - a);
  }

  lemma MeetsOnce(g: Graph, x: int, y: int, i: nat, a: nat)
    requires 0 !in g && x != 0 && Bounded(g) && i <= a && Follow(g, y, i) == Follow(g, y, a) == x
    ensures i == a
  {
    if i < a {
      FollowAdds(g, y, i, a - i);
      if x in g {
        var k: nat :| k <= MAX_HOPS && Follow(g, Up(g, x), k) !in g;
        LeavesOnce(g, x, k, a - i);
      } else {
        FollowNext(g, x, 0);
        assert Follow(g, x, 0) !in g;
        AfterEnd(g, x, 0, 1);
        LeavesOnce(g, x, 0, a - i);
      }
    }
  }

  /**
   The check counts only what lies below the saved inbound. So after an accepted save the
   limit still holds of every stored chain exactly if it fits above it, too: for each
   inbound y whose chain comes down to x, those in between and those below together.
   */
  lemma DepthIsKeptIff(g: Graph, x: int, n: Inbound)
    requires 0 !in g && x != 0 && Bounded(g) && Acceptable(g, if x in g then x else 0, n.upstream)
    requires x in g || forall k: nat :: Follow(g, n.upstream, k) != x
    ensures Bounded(Saved(g, x, n)) <==> forall y :: y == x || y in g ==> FitsAbove(g, x, n.upstream, y)
  {
    var h := Saved(g, x, n);
    forall k: nat
      ensures Follow(g, n.upstream, k) != x
    {
      if x in g {
        AcceptableNeverMeets(g, x, n.upstream, k);
      }
    }
    if Bounded(h) {
      forall y, a: nat | (y == x || y in g) && Follow(g, y, a) == x
        ensures EndsWithin(g, n.upstream, MAX_HOPS - a)
      {
        KeptFits(g, x, n, y, a);
      }
    }
    if forall y :: y == x || y in g ==> FitsAbove(g, x, n.upstream, y) {
      forall y | y in h
        ensures EndsWithin(h, Up(h, y), MAX_HOPS)
      {
        FitsKeeps(g, x, n, y);
      }
    }
  }

  /** Within the limit everywhere: that is, every inbound could be saved again as it is. */
  lemma BoundedIffResavable(g: Graph)
    requires 0 !in g
    ensures Bounded(g) && Closed(g) <==> forall id :: id in g ==> Acceptable(g, id, Up(g, id))
  {
    if Bounded(g) && Closed(g) {
      forall id | id in g && Up(g, id) != 0
        ensures Acceptable(g, id, Up(g, id))
      {
        CanSaveAgain(g, id);
      }
    }
    if forall id :: id in g ==> Acceptable(g, id, Up(g, id)) {
      forall id | id in g
        ensures EndsWithin(g, Up(g, id), MAX_HOPS) && (Up(g, id) == 0 || Up(g, id) in g)
      {
        assert Acceptable(g, id, Up(g, id));
        if Up(g, id) == 0 {
          assert Follow(g, 0, 0) !in g;
        } else {
          var k :| Ends(g, id, Up(g, id), k);
          assert Follow(g, Up(g, id), 0) in g;
        }
      }
    }
  }

  lemma CanSaveAgain(g: Graph, id: int)
    requires 0 !in g && id in g && Bounded(g) && Up(g, id) in g
    ensures Acceptable(g, id, Up(g, id))
  {
    var u := Up(g, id);
    assert EndsWithin(g, u, MAX_HOPS);
    var m: nat :| m <= MAX_HOPS && Follow(g, u, m) !in g;
    var k: nat := 0;
    while Follow(g, u, k) in g
      invariant k <= m && forall i: nat :: i < k ==> Follow(g, u, i) in g
      decreases m - k
    {
      k := k + 1;
    }
    assert Follow(g, u, 0) == u;
    forall i: nat | i < k
      ensures Follow(g, u, i) != id
    {
      FollowFirst(g, id, i);
      FollowFirst(g, id, m);
      LeavesOnce(g, id, m, i + 1);
    }
    assert Ends(g, id, u, k);
  }

  // ---------------------------------------------------------------- the limit is exceeded

  const EMPTY := Db(map[], 1)

  /** Inbounds 1 to m, each exiting through the one before it. */
  function Tower(m: nat): (g: Graph)
    ensures forall id :: id in g <==> 1 <= id <= m
    ensures forall id :: id in g ==> g[id] == Plain(id - 1)
  {
    if m == 0 then map[] else Tower(m - 1)[m := Plain(m - 1)]
  }

  lemma {:induction false} DownTower(g: Graph, m: nat, id: nat, n: nat)
    requires n <= id <= m && forall k :: 1 <= k <= m ==> k in g && g[k] == Plain(k - 1)
    ensures Follow(g, id, n) == id - n
    decreases n
  {
    if n > 0 {
      DownTower(g, m, id - 1, n - 1);
    }
  }

  lemma TowerTakesOneMore(g: Graph, m: nat, x: int)
    requires 0 !in g && m <= MAX_HOPS && forall k :: 1 <= k <= m ==> k in g && g[k] == Plain(k - 1)
    requires x <= 0 || x > m
    ensures Acceptable(g, x, m)
  {
    if m > 0 {
      forall i: nat | i <= m
        ensures Follow(g, m, i) == m - i
      {
        DownTower(g, m, m, i);
      }
      assert Ends(g, x, m, m);
    }
  }

  lemma ServeNext(db: Db, rs: seq<Request>, r: Request)
    ensures ServeAll(db, rs + [r]) == Serve(ServeAll(db, rs), r)
  {}

  lemma {:induction false} BuildTower(m: nat) returns (rs: seq<Request>)
    requires m <= MAX_HOPS
    ensures ServeAll(EMPTY, rs) == Db(Tower(m), m + 1)
  {
    if m == 0 {
      rs := [];
    } else {
      rs := BuildTower(m - 1);
      TowerTakesOneMore(Tower(m - 1), m - 1, 0);
      ServeNext(EMPTY, rs, Save(0, Plain(m - 1)));
      rs := rs + [Save(0, Plain(m - 1))];
    }
  }

  /** The tower, and beside it two more: one that exits directly, and one on top of it. */
  function Beside(m: nat): Graph { Tower(m)[m + 1 := Plain(0)][m + 2 := Plain(m + 1)] }

  lemma BuildBeside(m: nat) returns (rs: seq<Request>)
    requires m <= MAX_HOPS
    ensures ServeAll(EMPTY, rs) == Db(Beside(m), m + 3)
  {
    rs := BuildTower(m);
    ServeNext(EMPTY, rs, Save(0, Plain(0)));
    rs := rs + [Save(0, Plain(0))];
    var g := Tower(m)[m + 1 := Plain(0)];
    assert ServeAll(EMPTY, rs) == Db(g, m + 2);
    OneHopIsAcceptable(g, 0, m + 1);
    ServeNext(EMPTY, rs, Save(0, Plain(m + 1)));
    rs := rs + [Save(0, Plain(m + 1))];
  }

  lemma BesideIsBounded(m: nat)
    requires m <= MAX_HOPS
    ensures Bounded(Beside(m))
  {
    var g := Beside(m);
    forall id | id in g
      ensures EndsWithin(g, Up(g, id), MAX_HOPS)
    {
      if id <= m {
        DownTower(g, m, id - 1, id - 1);
        assert Follow(g, id - 1, id - 1) !in g;
      } else if id == m + 1 {
        assert Follow(g, 0, 0) !in g;
      } else {
        FollowNext(g, m + 1, 0);
        assert Follow(g, m + 1, 1) !in g;
      }
    }
  }

  lemma JoinDoesNotFit(m: nat)
    requires m == MAX_HOPS
    ensures !FitsAbove(Beside(m), m + 1, m, m + 2)
  {
    var g := Beside(m);
    FollowNext(g, m + 2, 0);
    assert Follow(g, m + 2, 1) == m + 1;
    forall k: nat | k <= MAX_HOPS - 1
      ensures Follow(g, m, k) in g
    {
      DownTower(g, m, m, k);
    }
  }

  /**
   The limit does not hold of every run: accepted saves from an empty database lead to a graph
   within it, and one more accepted save to one that is not; after it, some inbound cannot
   be saved again, not even unchanged.
   */
  lemma DepthIsNotBounded()
    ensures exists rs: seq<Request>, x: int, n: Inbound :: Exceeds(ServeAll(EMPTY, rs), x, n)
  {
    var m := MAX_HOPS;
    var rs := BuildBeside(m);
    var g := Beside(m);
    BesideIsBounded(m);
    TowerTakesOneMore(g, m, m + 1);
    DepthIsKeptIff(g, m + 1, Plain(m));
    JoinDoesNotFit(m);
    BoundedIffResavable(Saved(g, m + 1, Plain(m)));
    assert Exceeds(ServeAll(EMPTY, rs), m + 1, Plain(m));
  }

  ghost predicate Exceeds(db: Db, x: int, n: Inbound) {
    var db' := Serve(db, Save(x, n));
    && x in db.g && Bounded(db.g) && Acceptable(db.g, x, n.upstream) && !Bounded(db'.g)
    && exists id :: id in db'.g && !Acceptable(db'.g, id, Up(db'.g, id))
  }

  // ---------------------------------------------------------------- logical routes

  datatype Node = Node(selfBuilt: bool, tag: string, route: int, broken: bool)

  datatype Verdict = Fine | NoTag | NoEntry | MixedEntry | NoTarget | TargetOff | BadTarget | TooDeep | Loops
      | Dangles | HopOff

  /** The landing chain from u: every hop stored and enabled, none of them the entry, to its very end. */
  ghost predicate Complete(g: Graph, entry: int, u: int, k: nat) {
    && 1 <= k <= MAX_HOPS
    && (forall i: nat :: i < k ==> Follow(g, u, i) in g && g[Follow(g, u, i)].enabled && Follow(g, u, i) != entry)
    && Follow(g, u, k) == 0
  }

  ghost predicate Routable(g: Graph, tags: map<string, int>, n: Node) {
    && n.tag != "" && n.tag in tags && tags[n.tag] in g
    && (n.route == 0 ||
        (!g[tags[n.tag]].kind.Mixed? && n.route in g && g[n.route].kind.Dialable? &&
         exists k :: Complete(g, tags[n.tag], n.route, k)))
  }

  method ValidateNodeRoute(g: Graph, tags: map<string, int>, n: Node) returns (v: Verdict, n': Node)
    requires 0 !in g
    ensures v.Fine? <==> !n.selfBuilt || Routable(g, tags, n)
    ensures n' == if !n.selfBuilt then n.(route := 0, broken := false) else if v.Fine? then n.(broken := false) else n
  {
    n' := n;
    if !n.selfBuilt {
      return Fine, n.(route := 0, broken := false);
    }
    if n.tag == "" {
      return NoTag, n;
    }
    if n.tag !in tags || tags[n.tag] !in g {
      return NoEntry, n;
    }
    var entry := tags[n.tag];
    if n.route == 0 {
      return Fine, n.(broken := false);
    }
    if g[entry].kind.Mixed? {
      return MixedEntry, n;
    }
    if n.route !in g {
      return NoTarget, n;
    }
    if !g[n.route].enabled {
      assert Follow(g, n.route, 0) == n.route;
      return TargetOff, n;
    }
    if !g[n.route].kind.Dialable? {
      return BadTarget, n;
    }
    v := WalkRoute(g, entry, n.route);
    if v.Fine? {
      n' := n.(broken := false);
    }
  }

  method WalkRoute(g: Graph, entry: int, u: int) returns (v: Verdict)
    requires 0 !in g && u in g && g[u].enabled
    ensures v.Fine? <==> exists k :: Complete(g, entry, u, k)
  {
    var seen := {entry};
    var cur := u;
    ghost var w: nat := 0;
    while true
      invariant w <= MAX_HOPS && cur == Follow(g, u, w) && cur in g && g[cur].enabled
      invariant forall i: nat :: i < w ==>
            Follow(g, u, i) in g && g[Follow(g, u, i)].enabled && Follow(g, u, i) != entry
      invariant forall id :: id in seen <==> id == entry || exists i: nat :: i < w && Follow(g, u, i) == id
      invariant |seen| == w + 1
      decreases MAX_HOPS - w
    {
      if |seen| > MAX_HOPS || cur in seen {
        Rejected(g, entry, u, w);
        return if |seen| > MAX_HOPS then TooDeep else Loops;
      }
      seen := seen + {cur};
      FollowNext(g, u, w);
      w := w + 1;
      if g[cur].upstream == 0 {
        assert Complete(g, entry, u, w);
        return Fine;
      }
      cur := g[cur].upstream;
      if cur !in g || !g[cur].enabled {
        EndsBadly(g, entry, u, w);
        return if cur !in g then Dangles else HopOff;
      }
    }
  }

  lemma Rejected(g: Graph, entry: int, u: int, w: nat)
    requires 0 !in g && w <= MAX_HOPS && forall i: nat :: i <= w ==> Follow(g, u, i) in g
    requires w == MAX_HOPS || Follow(g, u, w) == entry || exists i: nat :: i < w && Follow(g, u, i) == Follow(g, u, w)
    ensures !exists k :: Complete(g, entry, u, k)
  {
    forall k: nat | Complete(g, entry, u, k)
      ensures false
    {
      assert k > w;
      if i: nat :| i < w && Follow(g, u, i) == Follow(g, u, w) {
        RepeatStays(g, u, i, w, k);
      }
    }
  }

  lemma EndsBadly(g: Graph, entry: int, u: int, w: nat)
    requires 0 !in g && forall i: nat :: i < w ==> Follow(g, u, i) in g
    requires Follow(g, u, w) != 0 && (Follow(g, u, w) !in g || !g[Follow(g, u, w)].enabled)
    ensures !exists k :: Complete(g, entry, u, k)
  {}

  // ---------------------------------------------------------------- the path shown to users

  datatype Warn = Intact | Landing | Egress

  /** relays: the hops after the entry, by inbound id. */
  datatype Topo = Topo(entry: int, relays: seq<int>, egress: Option<int>, warn: Warn)

  method TopoFor(g: Graph, tags: map<string, int>, egresses: set<int>, tag: string, route: int, routeBroken: bool)
    returns (t: Option<Topo>)
    requires 0 !in g
    ensures t.None? <==> tag !in tags || tags[tag] !in g
    ensures t.Some? ==> t.value == Shown(g, egresses, tags[tag], route, routeBroken)
  {
    if tag !in tags || tags[tag] !in g {
      return None;
    }
    var ib := tags[tag];
    var relays, seen, cur := [], {ib}, ib;
    if route != 0 {
      if route !in g {
        return Some(Topo(ib, [], None, Landing));
      }
      relays, seen, cur := [route], seen + {route}, route;
    }
    ghost var head, whole := relays, Trail(g, cur, seen);
    assert seen == {ib, cur};
    while g[cur].upstream != 0
      invariant cur in g && head + whole.0 == relays + Trail(g, cur, seen).0
      invariant whole.1 == Trail(g, cur, seen).1 && whole.2 == Trail(g, cur, seen).2
      decreases g.Keys - seen
    {
      var next := g[cur].upstream;
      if next !in g || next in seen {
        assert head + whole.0 == relays + [] == relays;
        return Some(Topo(ib, relays, None, Landing));
      }
      assert relays + ([next] + Trail(g, next, seen + {next}).0) == (relays + [next]) + Trail(g, next, seen + {next}).0;
      seen := seen + {next};
      relays := relays + [next];
      cur := next;
    }
    assert head + whole.0 == relays + [] == relays;
    var egress, warn := None, Intact;
    if g[cur].egress != 0 {
      if g[cur].egress in egresses {
        egress := Some(g[cur].egress);
      } else {
        warn := Warn.Egress;
      }
    }
    if warn == Intact && (routeBroken || (route == 0 && g[ib].broken)) {
      warn := Landing;
    }
    return Some(Topo(ib, relays, egress, warn));
  }

  /** The hops after cur, whether the walk reached the end of the chain, and where it stopped. */
  function Trail(g: Graph, cur: int, seen: set<int>): (r: (seq<int>, bool, int))
    requires cur in g
    ensures r.2 in g
    decreases g.Keys - seen
  {
    var next := g[cur].upstream;
    if next == 0 then ([], true, cur)
    else if next !in g || next in seen then ([], false, cur)
    else
      var (rest, clean, last) := Trail(g, next, seen + {next});
      ([next] + rest, clean, last)
  }

  function Shown(g: Graph, egresses: set<int>, ib: int, route: int, routeBroken: bool): Topo
    requires ib in g
  {
    if route != 0 && route !in g then Topo(ib, [], None, Landing)
    else
      var first := if route != 0 then route else ib;
      var head := if route != 0 then [route] else [];
      var (rest, clean, last) := Trail(g, first, {ib, first});
      if !clean then Topo(ib, head + rest, None, Landing)
      else
        var out := g[last].egress;
        var gone := out != 0 && out !in egresses;
        Topo(ib, head + rest, if out != 0 && !gone then Some(out) else None,
             if gone then Warn.Egress
             else if routeBroken || (route == 0 && g[ib].broken) then Landing
             else Intact)
  }

  /**
   On any graph, cyclic ones included, the hops are those of the stored chain, in order and
   without repetition; the walk stops at its end, or at the first hop missing or met before.
   */
  lemma {:induction false} TrailFollows(g: Graph, cur: int, seen: set<int>)
    requires cur in g && 0 !in g
    ensures var (rest, clean, last) := Trail(g, cur, seen);
            && (forall i :: 0 <= i < |rest| ==> rest[i] == Follow(g, cur, i + 1) && rest[i] in g && rest[i] !in seen)
            && (forall i, j :: 0 <= i < j < |rest| ==> rest[i] != rest[j])
            && last == Follow(g, cur, |rest|)
            && var next := Follow(g, cur, |rest| + 1);
               if clean then next == 0 else next != 0 && (next !in g || next in seen || next in rest)
    decreases g.Keys - seen
  {
    var next := g[cur].upstream;
    var rest := Trail(g, cur, seen).0;
    assert Follow(g, cur, 1) == Follow(g, next, 0) == next;
    if next != 0 && next in g && next !in seen {
      TrailFollows(g, next, seen + {next});
      var tail := Trail(g, next, seen + {next}).0;
      assert rest == [next] + tail;
      forall i | 0 <= i < |rest|
        ensures rest[i] == Follow(g, cur, i + 1)
      {
        assert Follow(g, cur, i + 1) == Follow(g, next, i);
        if i > 0 {
          assert rest[i] == tail[i - 1] == Follow(g, next, (i - 1) + 1);
        }
      }
      assert Follow(g, cur, |rest| + 1) == Follow(g, next, |tail| + 1);
      assert Follow(g, cur, |rest|) == Follow(g, next, |tail|);
      forall i, j | 0 <= i < j < |rest|
        ensures rest[i] != rest[j]
      {
        assert rest[j] == tail[j - 1];
      }
    }
  }

  ghost predicate Closed(g: Graph) { forall id :: id in g ==> g[id].upstream == 0 || g[id].upstream in g }

  /**
   On an acyclic graph without dangling links, the walk of an inbound's own chain is the
   whole chain: it never stops early, and no landing is reported missing unless one was
   deleted under the inbound.
   */
  lemma TopoIsWholeChain(g: Graph, egresses: set<int>, ib: int)
    requires ib in g && 0 !in g && Acyclic(g) && Closed(g)
    ensures var t := Shown(g, egresses, ib, 0, false);
            && (forall i :: 0 <= i < |t.relays| ==> t.relays[i] == Follow(g, ib, i + 1))
            && Follow(g, ib, |t.relays| + 1) == 0
            && (t.warn == Landing ==> g[ib].broken)
  {
    TrailFollows(g, ib, {ib});
    assert {ib, ib} == {ib};
    var (rest, clean, last) := Trail(g, ib, {ib});
    if !clean {
      var next := Follow(g, ib, |rest| + 1);
      FollowNext(g, ib, |rest|);
      if next in rest {
        var i :| 0 <= i < |rest| && rest[i] == next;
        FollowAdds(g, ib, i + 1, |rest| - i);
      }
    }
  }

  /**
   With a first hop of the node's own, the path is the whole chain of that hop, unless the
   chain comes back to the entry: then it stops there, and the landing is reported missing.
   */
  lemma RouteIsWholeChain(g: Graph, egresses: set<int>, ib: int, route: int)
    requires ib in g && route in g && 0 !in g && Acyclic(g) && Closed(g)
    ensures var t := Shown(g, egresses, ib, route, false);
            && |t.relays| > 0 && (forall i :: 0 <= i < |t.relays| ==> t.relays[i] == Follow(g, route, i))
            && (if exists k: nat :: k > 0 && Follow(g, route, k) == ib
                then t.warn == Landing && Follow(g, route, |t.relays|) == ib
                else t.warn != Landing && Follow(g, route, |t.relays|) == 0)
  {
    assert Follow(g, route, 0) == route;
    TrailFollows(g, route, {ib, route});
    var (rest, clean, last) := Trail(g, route, {ib, route});
    var m := |rest| + 1;
    if clean {
      forall k: nat | k > 0
        ensures Follow(g, route, k) != ib
      {
        if k >= m {
          AfterEnd(g, route, m, k);
        } else {
          assert rest[k - 1] == Follow(g, route, k);
        }
      }
    } else {
      var next := Follow(g, route, m);
      FollowNext(g, route, |rest|);
      if next == route {
        assert false;
      }
      if next in rest {
        var i :| 0 <= i < |rest| && rest[i] == next;
        FollowAdds(g, route, i + 1, |rest| - i);
      }
    }
  }

  /** A route that was accepted is shown whole, hop by hop, as long as nothing has changed. */
  lemma AcceptedRouteIsShown(g: Graph, egresses: set<int>, tags: map<string, int>, n: Node)
    requires 0 !in g && n.selfBuilt && Routable(g, tags, n) && n.route != 0
    ensures var t := Shown(g, egresses, tags[n.tag], n.route, false);
            && Complete(g, tags[n.tag], n.route, |t.relays|)
            && (forall i :: 0 <= i < |t.relays| ==> t.relays[i] == Follow(g, n.route, i))
            && t.warn != Landing
  {
    var ib, first := tags[n.tag], n.route;
    var k :| Complete(g, ib, first, k);
    assert Follow(g, first, 0) == first;
    TrailFollows(g, first, {ib, first});
    var (rest, clean, last) := Trail(g, first, {ib, first});
    var m := |rest| + 1;
    if m < k {
      HopsAreFresh(g, ib, first, rest, k);
    } else if m > k {
      AfterEnd(g, first, k, m - 1);
    }
  }

  lemma HopsAreFresh(g: Graph, ib: int, first: int, rest: seq<int>, k: nat)
    requires 0 !in g && Complete(g, ib, first, k) && |rest| + 1 < k
    requires forall i :: 0 <= i < |rest| ==> rest[i] == Follow(g, first, i + 1)
    ensures var next := Follow(g, first, |rest| + 1); next in g && next !in {ib, first} && next !in rest
  {
    var m := |rest| + 1;
    var next := Follow(g, first, m);
    assert Follow(g, first, 0) == first;
    if i: nat :| i < m && Follow(g, first, i) == next {
      RepeatStays(g, first, i, m, k);
    }
    assert forall i :: 0 <= i < |rest| ==> rest[i] != next;
  }

  /** Deleting a landing shows at every inbound that exited through it, although its stored chain is now clean. */
  lemma DeletedLandingIsShown(g: Graph, egresses: set<int>, ib: int, d: int)
    requires ib in g && 0 !in g && ib != d && g[ib].upstream == d && d != 0 && g[ib].egress == 0
    ensures Shown(Deleted(g, d), egresses, ib, 0, false) == Topo(ib, [], None, Landing)
  {}
}
