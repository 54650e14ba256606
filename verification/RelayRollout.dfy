/** Staged rollout of metered relay links (internal/sbctl/relay_metering.go, internal/store/relay_metering.go). */
module RelayRollout {
  import opened Collections

  // A machine's configuration can only be built once every downstream machine it relays to
  // has accepted the link's identity, and only a successful apply of that machine moves its
  // own links on. rebuildUntilStable repeats full passes until one makes no progress. Within
  // a pass, applies run concurrently with the building of later machines; the loop in Pass
  // may take any interleaving.

  datatype Stage = Unregistered | Prepared | Accepted | Active

  /** used: some identity is routed over the link, so the source's configuration needs its outbound. */
  datatype Link = Link(source: int, target: int, used: bool)

  const PANEL := 0

  /**
   rows: the server rows. machines: those a pass builds for, the panel and the enabled
   rows. online: those whose applies succeed throughout.
   */
  datatype Net = Net(links: seq<Link>, rows: set<int>, machines: set<int>, online: set<int>)

  type Stages = seq<Stage>

  predicate Valid(t: Net) { t.machines <= t.rows + {PANEL} && t.online <= t.machines }

  predicate Taken(g: Stage) { g.Accepted? || g.Active? }

  function Order(g: Stage): nat {
    match g case Unregistered => 0 case Prepared => 1 case Accepted => 2 case Active => 3
  }

  /** The compiler refuses a machine while a link it uses waits for its target. */
  predicate Ready(t: Net, s: Stages, m: int)
    requires |s| == |t.links|
  {
    forall i :: 0 <= i < |s| && t.links[i].source == m && t.links[i].used ==> Taken(s[i])
  }

  /** An applied configuration of m accepts the identities of the links to it, and activates those from it. */
  function AckOne(l: Link, g: Stage, m: int): Stage {
    var accepted := if l.target == m && g.Prepared? then Accepted else g;
    if l.source == m && l.used && accepted.Accepted? then Active else accepted
  }

  function Acked(t: Net, s: Stages, m: int): (r: Stages)
    requires |s| == |t.links|
    ensures |r| == |s| && forall i :: 0 <= i < |s| ==> r[i] == AckOne(t.links[i], s[i], m)
  {
    seq(|s|, i requires 0 <= i < |s| => AckOne(t.links[i], s[i], m))
  }

  function Registered(s: Stages): (r: Stages)
    ensures |r| == |s| && forall i :: 0 <= i < |s| ==> r[i] == if s[i].Unregistered? then Prepared else s[i]
  {
    seq(|s|, i requires 0 <= i < |s| => if s[i].Unregistered? then Prepared else s[i])
  }

  /** Nothing is left for m's own apply to do. */
  predicate Served(t: Net, s: Stages, m: int)
    requires |s| == |t.links|
  {
    forall i :: 0 <= i < |s| ==>
      && (t.links[i].target == m ==> Taken(s[i]))
      && (t.links[i].source == m && t.links[i].used ==> s[i].Active?)
  }

  predicate Forward(s: Stages, s': Stages) {
    |s| == |s'| && forall i :: 0 <= i < |s| ==> Order(s[i]) <= Order(s'[i])
  }

  /** A link only moves because a machine that was ready has been served. */
  predicate Explained(t: Net, l: Link, g: Stage, s': Stages, g': Stage)
    requires |s'| == |t.links|
  {
    && (!Taken(g) && Taken(g') ==> l.target in t.online && Ready(t, s', l.target) && Served(t, s', l.target))
    && (!g.Active? && g'.Active? ==>
          l.used && l.source in t.online && Ready(t, s', l.source) && Served(t, s', l.source))
  }

  predicate Passed(t: Net, s: Stages, s': Stages)
    requires |s| == |t.links|
  {
    && Forward(Registered(s), s')
    && (forall m :: m in t.online && Ready(t, Registered(s), m) ==> Served(t, s', m))
    && (forall i :: 0 <= i < |s| ==> Explained(t, t.links[i], s[i], s', s'[i]))
  }

  lemma ReadyStays(t: Net, s: Stages, s': Stages, m: int)
    requires |s| == |t.links| && Forward(s, s') && Ready(t, s, m)
    ensures Ready(t, s', m)
  {}

  lemma ServedStays(t: Net, s: Stages, s': Stages, m: int)
    requires |s| == |t.links| && Forward(s, s') && Served(t, s, m)
    ensures Served(t, s', m)
  {}

  /** Acknowledging a machine that is ready moves the links just as far as it takes to serve it. */
  lemma AckServes(t: Net, s: Stages, m: int)
    requires |s| == |t.links| && Ready(t, s, m) && forall i :: 0 <= i < |s| ==> !s[i].Unregistered?
    ensures Forward(s, Acked(t, s, m)) && Ready(t, Acked(t, s, m), m) && Served(t, Acked(t, s, m), m)
    ensures forall later :: Forward(s, later) && Served(t, later, m) ==> Forward(Acked(t, s, m), later)
  {
    forall later | Forward(s, later) && Served(t, later, m)
      ensures Forward(Acked(t, s, m), later)
    {}
  }

  lemma ExplainedStays(t: Net, l: Link, g: Stage, s: Stages, s': Stages, g': Stage)
    requires |s| == |t.links| && Forward(s, s') && Explained(t, l, g, s, g')
    ensures Explained(t, l, g, s', g')
  {}

  lemma ForwardJoins(a: Stages, b: Stages, c: Stages)
    requires Forward(a, b) && Forward(b, c)
    ensures Forward(a, c)
  {}

  /** What a pass has achieved after some builds and acknowledgements. */
  ghost predicate Midway(t: Net, s0: Stages, s: Stages)
    requires |s0| == |t.links|
  {
    Forward(Registered(s0), s) && forall i :: 0 <= i < |s| ==> Explained(t, t.links[i], s0[i], s, s[i])
  }

  lemma AckKeeps(t: Net, s0: Stages, s: Stages, m: int)
    requires |s0| == |t.links| && Midway(t, s0, s) && m in t.online && Ready(t, s, m)
    ensures Midway(t, s0, Acked(t, s, m)) && Forward(s, Acked(t, s, m)) && Served(t, Acked(t, s, m), m)
  {
    var s' := Acked(t, s, m);
    forall i | 0 <= i < |s|
      ensures !s[i].Unregistered?
    {
      assert Order(Registered(s0)[i]) <= Order(s[i]);
    }
    AckServes(t, s, m);
    ForwardJoins(Registered(s0), s, s');
    forall i | 0 <= i < |s'|
      ensures Explained(t, t.links[i], s0[i], s', s'[i])
    {
      ExplainedStays(t, t.links[i], s0[i], s, s', s[i]);
    }
  }

  /**
   The machine could be built, and was applied; or, unless the pass is forced, it was skipped:
   its configuration is the one it last applied, so that nothing is left for it to do.
   */
  predicate Good(t: Net, s: Stages, m: int, force: bool)
    requires |s| == |t.links|
  {
    Ready(t, s, m) && (m in t.online || (!force && Served(t, s, m)))
  }

  predicate AllGood(t: Net, s: Stages, force: bool)
    requires |s| == |t.links|
  {
    forall m :: m in t.machines ==> Good(t, s, m, force)
  }

  /** The state of a pass: machines still to build, and machines whose apply is under way. */
  ghost predicate PassInv(t: Net, s0: Stages, s: Stages, toBuild: set<int>, inFlight: set<int>, ok: bool, force: bool)
    requires |s0| == |t.links|
  {
    && Midway(t, s0, s)
    && toBuild <= t.machines && inFlight <= t.online - toBuild
    && (forall m :: m in inFlight ==> Ready(t, s, m))
    && (forall m :: m in t.online - toBuild - inFlight && Ready(t, Registered(s0), m) ==> Served(t, s, m))
    && (ok ==> forall m :: m in t.machines - toBuild ==> Good(t, s, m, force))
    && (AllGood(t, Registered(s0), true) ==> ok)
  }

  lemma BuildKeeps(t: Net, s0: Stages, s: Stages, toBuild: set<int>, inFlight: set<int>, ok: bool, force: bool, m: int)
    requires |s0| == |t.links| && PassInv(t, s0, s, toBuild, inFlight, ok, force) && m in toBuild
    ensures var goes := Ready(t, s, m) && m in t.online;
            PassInv(t, s0, s, toBuild - {m}, if goes then inFlight + {m} else inFlight, ok && goes, force)
  {}

  lemma SkipKeeps(t: Net, s0: Stages, s: Stages, toBuild: set<int>, inFlight: set<int>, ok: bool, m: int)
    requires |s0| == |t.links| && PassInv(t, s0, s, toBuild, inFlight, ok, false) && m in toBuild && Served(t, s, m)
    ensures PassInv(t, s0, s, toBuild - {m}, inFlight, ok, false)
  {}

  lemma AckKeepsInv(t: Net, s0: Stages, s: Stages, toBuild: set<int>, inFlight: set<int>, ok: bool, force: bool, m: int)
    requires |s0| == |t.links| && PassInv(t, s0, s, toBuild, inFlight, ok, force) && m in inFlight
    ensures PassInv(t, s0, Acked(t, s, m), toBuild, inFlight - {m}, ok, force)
  {
    AckKeeps(t, s0, s, m);
    var s' := Acked(t, s, m);
    forall k | k in inFlight + (t.machines - toBuild) && Ready(t, s, k)
      ensures Ready(t, s', k)
    {
      ReadyStays(t, s, s', k);
    }
    forall k | Served(t, s, k)
      ensures Served(t, s', k)
    {
      ServedStays(t, s, s', k);
    }
  }

  lemma PassEnds(t: Net, s0: Stages, s: Stages, ok: bool, force: bool)
    requires |s0| == |t.links| && PassInv(t, s0, s, {}, {}, ok, force)
    ensures Passed(t, s0, s) && (ok ==> AllGood(t, s, force)) && (AllGood(t, Registered(s0), true) ==> ok)
  {}

  /**
   One full pass: register every link, then build each machine once, in any order, and
   apply what could be built, the applies ending at any later moment. Unless forced, it may
   skip a machine that has nothing left to do, online or not. ok: no error.
   */
  method Pass(t: Net, s0: Stages, force: bool) returns (s: Stages, ok: bool)
    requires |s0| == |t.links| && Valid(t)
    ensures |s| == |s0| && Passed(t, s0, s)
    ensures (ok ==> AllGood(t, s, force)) && (AllGood(t, Registered(s0), true) ==> ok)
  {
    s, ok := Registered(s0), true;
    var toBuild, inFlight := t.machines, {};
    while toBuild != {} || inFlight != {}
      invariant PassInv(t, s0, s, toBuild, inFlight, ok, force)
      decreases 2 * |toBuild| + |inFlight|
    {
      var buildNext := *;
      if toBuild != {} && (buildNext || inFlight == {}) {
        HasId(toBuild);
        var m :| m in toBuild;
        var cached := *;
        if !force && cached && Served(t, s, m) {
          SkipKeeps(t, s0, s, toBuild, inFlight, ok, m);
          toBuild := toBuild - {m};
        } else {
          BuildKeeps(t, s0, s, toBuild, inFlight, ok, force, m);
          toBuild := toBuild - {m};
          if Ready(t, s, m) && m in t.online {
            inFlight := inFlight + {m};
          } else {
            ok := false;
          }
        }
      } else {
        HasId(inFlight);
        var m :| m in inFlight;
        AckKeepsInv(t, s0, s, toBuild, inFlight, ok, force, m);
        inFlight := inFlight - {m};
        s := Acked(t, s, m);
      }
    }
    PassEnds(t, s0, s, ok, force);
  }

  // ---------------------------------------------------------------- repeating passes

  function ServedSet(t: Net, s: Stages): set<int>
    requires |s| == |t.links|
  {
    set m | m in t.online && Served(t, s, m)
  }

  lemma SizeOfMachines(t: Net, s: Stages)
    requires |s| == |t.links| && Valid(t)
    ensures |ServedSet(t, s)| <= |t.rows| + 1
  {
    SubsetSize(ServedSet(t, s), t.rows + {PANEL});
    assert |t.rows + {PANEL}| <= |t.rows| + 1;
  }

  lemma PassKeepsServed(t: Net, s: Stages, s': Stages)
    requires |s| == |s'| == |t.links| && Passed(t, s, s')
    ensures ServedSet(t, s) <= ServedSet(t, s')
  {}

  lemma ForwardFromStart(s: Stages, s': Stages)
    requires |s| == |s'| && Forward(Registered(s), s')
    ensures Forward(s, s') && Registered(s') == s'
  {}

  /** A pass that moves a registered link serves a machine that was not served before. */
  lemma ProgressServes(t: Net, s: Stages, s': Stages)
    requires |s| == |s'| == |t.links| && Passed(t, s, s') && Registered(s) == s && s != s'
    ensures |ServedSet(t, s)| < |ServedSet(t, s')|
  {
    PassKeepsServed(t, s, s');
    var i :| 0 <= i < |s| && s[i] != s'[i];
    assert Order(s[i]) <= Order(s'[i]);
    assert Explained(t, t.links[i], s[i], s', s'[i]);
    var m := if Taken(s[i]) then t.links[i].source else t.links[i].target;
    assert m in ServedSet(t, s') && m !in ServedSet(t, s);
    SubsetSize(ServedSet(t, s), ServedSet(t, s'));
  }

  /** Everything the run achieved is justified against where it started. */
  ghost predicate Justified(t: Net, s0: Stages, s: Stages)
    requires |s0| == |t.links|
  {
    Forward(s0, s) && forall i :: 0 <= i < |s| ==> Explained(t, t.links[i], s0[i], s, s[i])
  }

  lemma PassKeepsJustified(t: Net, s0: Stages, s: Stages, s': Stages)
    requires |s0| == |s'| == |t.links| && Justified(t, s0, s) && Passed(t, s, s')
    ensures Justified(t, s0, s')
  {}

  /** Another pass would change nothing. */
  predicate Settled(t: Net, s: Stages)
    requires |s| == |t.links|
  {
    Registered(s) == s && forall m :: m in t.online && Ready(t, s, m) ==> Served(t, s, m)
  }

  /**
   At most rows + 3 passes. The loop always ends because a pass made no progress, never by
   running out, so it leaves a settled state. Forced, the last pass succeeded exactly when
   every machine is online and could be built; otherwise, if so, and only if every machine
   is online or has nothing left to do.
   */
  method RebuildUntilStable(t: Net, s0: Stages, force: bool) returns (s: Stages, ok: bool, passes: nat)
    requires |s0| == |t.links| && Valid(t)
    ensures |s| == |s0| && Settled(t, s) && Justified(t, s0, s)
    ensures AllGood(t, s, true) ==> ok
    ensures ok ==> AllGood(t, s, force)
    ensures 1 <= passes <= |t.rows| + 3
  {
    s, ok, passes := s0, true, 0;
    assert Justified(t, s0, s);
    while passes < |t.rows| + 3
      invariant |s| == |t.links| && Justified(t, s0, s)
      invariant passes > 0 ==> Registered(s) == s
      invariant 0 < passes ==> passes <= 1 + |ServedSet(t, s)|
    {
      var before := s;
      s, ok := Pass(t, before, force);
      PassKeepsJustified(t, s0, before, s);
      ForwardFromStart(before, s);
      passes := passes + 1;
      if before == s {
        return;
      }
      if passes > 1 {
        ProgressServes(t, before, s);
      }
    }
    SizeOfMachines(t, s);
    assert false;
  }

  // ---------------------------------------------------------------- where it ends

  /** The links of the metered graph form no cycle (checked before anything is registered). */
  ghost predicate Ranked(t: Net, rank: int -> nat) {
    forall l :: l in t.links ==> rank(l.target) < rank(l.source)
  }

  /** m is online, and so is every machine it waits for, directly or not. */
  predicate CanApply(t: Net, s0: Stages, rank: int -> nat, m: int)
    requires |s0| == |t.links| && Ranked(t, rank)
    decreases rank(m)
  {
    m in t.online &&
    forall i :: 0 <= i < |t.links| && t.links[i].source == m && t.links[i].used && !Taken(s0[i]) ==>
      t.links[i] in t.links && CanApply(t, s0, rank, t.links[i].target)
  }

  lemma {:induction false} ReadyCanApply(t: Net, s0: Stages, s: Stages, rank: int -> nat, m: int)
    requires |s0| == |s| == |t.links| && Ranked(t, rank) && Justified(t, s0, s)
    requires m in t.online && Ready(t, s, m)
    ensures CanApply(t, s0, rank, m)
    decreases rank(m)
  {
    forall i | 0 <= i < |t.links| && t.links[i].source == m && t.links[i].used && !Taken(s0[i])
      ensures CanApply(t, s0, rank, t.links[i].target)
    {
      assert t.links[i] in t.links && Taken(s[i]);
      assert Explained(t, t.links[i], s0[i], s, s[i]);
      ReadyCanApply(t, s0, s, rank, t.links[i].target);
    }
  }

  lemma {:induction false} CanApplyIsReady(t: Net, s0: Stages, s: Stages, rank: int -> nat, m: int)
    requires |s0| == |s| == |t.links| && Ranked(t, rank) && Forward(s0, s) && Settled(t, s)
    requires CanApply(t, s0, rank, m)
    ensures m in t.online && Ready(t, s, m) && Served(t, s, m)
    decreases rank(m)
  {
    forall i | 0 <= i < |s| && t.links[i].source == m && t.links[i].used
      ensures Taken(s[i])
    {
      assert t.links[i] in t.links && Order(s0[i]) <= Order(s[i]);
      if !Taken(s0[i]) {
        CanApplyIsReady(t, s0, s, rank, t.links[i].target);
      }
    }
  }

  /**
   The settled state is determined by where the rollout started and which machines are
   online: exactly the machines that can apply have applied, and a link is taken exactly
   when it already was or its target can apply.
   */
  lemma SettledExactly(t: Net, s0: Stages, s: Stages, rank: int -> nat)
    requires |s0| == |s| == |t.links| && Ranked(t, rank) && Justified(t, s0, s) && Settled(t, s)
    ensures forall m :: m in t.online ==> (Ready(t, s, m) <==> CanApply(t, s0, rank, m))
    ensures forall i :: 0 <= i < |s| ==> (Taken(s[i]) <==> Taken(s0[i]) || CanApply(t, s0, rank, t.links[i].target))
  {
    forall m | m in t.online
      ensures Ready(t, s, m) <==> CanApply(t, s0, rank, m)
    {
      if Ready(t, s, m) {
        ReadyCanApply(t, s0, s, rank, m);
      }
      if CanApply(t, s0, rank, m) {
        CanApplyIsReady(t, s0, s, rank, m);
      }
    }
    forall i | 0 <= i < |s|
      ensures Taken(s[i]) <==> Taken(s0[i]) || CanApply(t, s0, rank, t.links[i].target)
    {
      assert Explained(t, t.links[i], s0[i], s, s[i]);
      assert Order(s0[i]) <= Order(s[i]);
      if CanApply(t, s0, rank, t.links[i].target) {
        CanApplyIsReady(t, s0, s, rank, t.links[i].target);
      }
    }
  }

  // ---------------------------------------------------------------- from a fresh start

  predicate Edge(t: Net, a: int, b: int) { exists l :: l in t.links && l.source == a && l.target == b && l.used }

  /** A chain of links in use, downstream. */
  predicate Downstream(t: Net, path: seq<int>) {
    path != [] && forall i :: 0 <= i < |path| - 1 ==> Edge(t, path[i], path[i + 1])
  }

  ghost predicate Reaches(t: Net, a: int, b: int) {
    exists path :: Downstream(t, path) && path[0] == a && path[|path| - 1] == b
  }

  ghost predicate WaitsForOffline(t: Net, m: int) { exists b :: b !in t.online && Reaches(t, m, b) }

  lemma StepReaches(t: Net, a: int, b: int, c: int)
    requires Edge(t, a, b) && Reaches(t, b, c)
    ensures Reaches(t, a, c)
  {
    var path :| Downstream(t, path) && path[0] == b && path[|path| - 1] == c;
    var longer := [a] + path;
    forall i | 0 <= i < |longer| - 1
      ensures Edge(t, longer[i], longer[i + 1])
    {
      if i > 0 { assert longer[i] == path[i - 1] && longer[i + 1] == path[i]; }
    }
    assert Downstream(t, longer) && longer[0] == a && longer[|longer| - 1] == c;
  }

  lemma SelfReaches(t: Net, m: int)
    ensures Reaches(t, m, m)
  {
    assert Downstream(t, [m]);
  }

  lemma {:induction false} PathCanApply(t: Net, s0: Stages, rank: int -> nat, path: seq<int>)
    requires |s0| == |t.links| && Ranked(t, rank) && forall i :: 0 <= i < |s0| ==> !Taken(s0[i])
    requires Downstream(t, path) && CanApply(t, s0, rank, path[0])
    ensures path[|path| - 1] in t.online
  {
    if |path| > 1 {
      assert Edge(t, path[0], path[1]);
      var l :| l in t.links && l.source == path[0] && l.target == path[1] && l.used;
      var i :| 0 <= i < |t.links| && t.links[i] == l;
      assert CanApply(t, s0, rank, t.links[i].target);
      var rest := path[1..];
      forall j | 0 <= j < |rest| - 1
        ensures Edge(t, rest[j], rest[j + 1])
      {
        assert rest[j] == path[j + 1] && rest[j + 1] == path[j + 2];
      }
      PathCanApply(t, s0, rank, rest);
    }
  }

  lemma {:induction false} StuckWaits(t: Net, s0: Stages, rank: int -> nat, m: int)
    requires |s0| == |t.links| && Ranked(t, rank) && !CanApply(t, s0, rank, m)
    ensures WaitsForOffline(t, m)
    decreases rank(m)
  {
    if m !in t.online {
      SelfReaches(t, m);
    } else {
      var i :| 0 <= i < |t.links| && t.links[i].source == m && t.links[i].used && !Taken(s0[i])
               && !CanApply(t, s0, rank, t.links[i].target);
      assert t.links[i] in t.links;
      StuckWaits(t, s0, rank, t.links[i].target);
      var b :| b !in t.online && Reaches(t, t.links[i].target, b);
      StepReaches(t, m, t.links[i].target, b);
    }
  }

  /** Started fresh, a machine can apply exactly when no offline machine lies downstream of it. */
  lemma FreshCanApplyIff(t: Net, s0: Stages, rank: int -> nat, m: int)
    requires |s0| == |t.links| && Ranked(t, rank) && forall i :: 0 <= i < |s0| ==> !Taken(s0[i])
    ensures CanApply(t, s0, rank, m) <==> !WaitsForOffline(t, m)
  {
    if CanApply(t, s0, rank, m) && WaitsForOffline(t, m) {
      var b :| b !in t.online && Reaches(t, m, b);
      var path :| Downstream(t, path) && path[0] == m && path[|path| - 1] == b;
      PathCanApply(t, s0, rank, path);
    }
    if !CanApply(t, s0, rank, m) {
      StuckWaits(t, s0, rank, m);
    }
  }

  /** With every machine of an acyclic network online, the rollout completes. */
  lemma FullRollout(t: Net, s0: Stages, s: Stages, rank: int -> nat)
    requires |s0| == |s| == |t.links| && Ranked(t, rank) && Justified(t, s0, s) && Settled(t, s)
    requires t.machines == t.online && forall l :: l in t.links ==> l.source in t.machines && l.target in t.machines
    ensures AllGood(t, s, true)
    ensures forall i :: 0 <= i < |s| ==> Taken(s[i]) && (t.links[i].used ==> s[i].Active?)
  {
    forall m | m in t.machines
      ensures Ready(t, s, m) && Served(t, s, m)
    {
      OnlineCanApply(t, s0, rank, m);
      CanApplyIsReady(t, s0, s, rank, m);
    }
    forall i | 0 <= i < |s|
      ensures Taken(s[i]) && (t.links[i].used ==> s[i].Active?)
    {
      assert t.links[i] in t.links;
      assert Served(t, s, t.links[i].source) && Served(t, s, t.links[i].target);
    }
  }

  lemma {:induction false} OnlineCanApply(t: Net, s0: Stages, rank: int -> nat, m: int)
    requires |s0| == |t.links| && Ranked(t, rank) && m in t.online
    requires forall l :: l in t.links ==> l.target in t.online
    ensures CanApply(t, s0, rank, m)
    decreases rank(m)
  {
    forall i | 0 <= i < |t.links| && t.links[i].source == m && t.links[i].used && !Taken(s0[i])
      ensures CanApply(t, s0, rank, t.links[i].target)
    {
      assert t.links[i] in t.links;
      OnlineCanApply(t, s0, rank, t.links[i].target);
    }
  }
}
