/**
 Installing a configuration on the panel's own machine (internal/sbctl/controller.go),
 and the cache that lets the minute pass skip a machine.

 The file is swapped before the unit is restarted, so the file alone proves nothing; an
 in-memory flag remembers that a restart is outstanding. The model lets every step fail,
 including a write that changes the file and still reports failure, and the loss of the
 panel process, which forgets the flag.
 */
module LocalApply {
  import opened Wrappers

  type Config = string

  /**
   disk: what the configuration path holds, if anything. loaded: the configuration of the
   unit's last start that succeeded. failed: a restart is outstanding.
   */
  datatype Node = Node(disk: Option<Config>, loaded: Option<Config>, failed: bool)

  /**
   Installed: the bytes are there. Untouched: an error, and the old file. Unconfirmed: an
   error, but another process had already replaced the file, by the right bytes or others.
   */
  datatype Write = Installed | Untouched | Unconfirmed(left: Option<Config>)

  /** A restart that fails may leave the unit down, on the old, or on the new configuration. */
  datatype Restart = Up | Down(running: Option<Config>)

  datatype Outcome = Outcome(bin: bool, readable: bool, scratch: bool, check: bool, write: Write, restart: Restart)

  datatype Reply = Failed(restarted: bool) | Done(restarted: bool)

  /** The guard of the short-circuit: the file already holds these bytes and nothing is outstanding. */
  predicate Trusted(n: Node, cfg: Config, force: bool, o: Outcome) {
    !n.failed && !force && o.readable && n.disk == Some(cfg)
  }

  predicate ReachesWrite(n: Node, cfg: Config, force: bool, o: Outcome) {
    o.bin && !Trusted(n, cfg, force, o) && o.scratch && o.check
  }

  function Applied(n: Node, cfg: Config, force: bool, o: Outcome): (Node, Reply) {
    if !o.bin then (n, Failed(false))
    else if Trusted(n, cfg, force, o) then (n, Done(false))
    else if !o.scratch || !o.check then (n, Failed(false))
    else
      match o.write
      case Untouched => (n, Failed(false))
      case Unconfirmed(left) => (n.(disk := left), Failed(false))
      case Installed =>
        match o.restart
        case Up => (Node(Some(cfg), Some(cfg), false), Done(true))
        case Down(running) => (Node(Some(cfg), running, true), Failed(true))
  }

  class Host {
    var disk: map<int, Config>
    var loaded: map<int, Config>
    var restartFailed: set<int>

    function View(id: int): Node
      reads this
    {
      Node(if id in disk then Some(disk[id]) else None,
           if id in loaded then Some(loaded[id]) else None,
           id in restartFailed)
    }

    method Store(id: int, left: Option<Config>)
      modifies `disk
      ensures View(id) == old(View(id)).(disk := left)
      ensures forall other :: other != id ==> View(other) == old(View(other))
    {
      if left.Some? {
        disk := disk[id := left.value];
      } else {
        disk := disk - {id};
      }
    }

    method RestartUnit(id: int, r: Restart) returns (ok: bool)
      modifies `loaded
      ensures ok == r.Up?
      ensures View(id) == old(View(id)).(loaded := if r.Up? then old(View(id)).disk else r.running)
      ensures forall other :: other != id ==> View(other) == old(View(other))
    {
      ok := r.Up?;
      var now := if r.Up? then View(id).disk else r.running;
      if now.Some? {
        loaded := loaded[id := now.value];
      } else {
        loaded := loaded - {id};
      }
    }

    method ApplyLocalRaw(id: int, cfg: Config, force: bool, o: Outcome) returns (r: Reply)
      modifies this
      ensures (View(id), r) == Applied(old(View(id)), cfg, force, o)
      ensures forall other :: other != id ==> View(other) == old(View(other))
    {
      if !o.bin {
        return Failed(false);
      }
      var pending := id in restartFailed;
      if !pending && !force {
        if o.readable && id in disk && disk[id] == cfg {
          return Done(false);
        }
      }
      if !o.scratch || !o.check || o.write.Untouched? {
        return Failed(false);
      }
      if o.write.Unconfirmed? {
        Store(id, o.write.left);
        return Failed(false);
      }
      Store(id, Some(cfg));
      var ok := RestartUnit(id, o.restart);
      if !ok {
        restartFailed := restartFailed + {id};
        return Failed(true);
      }
      restartFailed := restartFailed - {id};
      return Done(true);
    }
  }

  // ---------------------------------------------------------------- one apply, from any state

  /**
   What success means, whatever came before: the unit's last good start loaded exactly cfg,
   unless the short-circuit trusted a file the unit had not loaded.
   */
  lemma SuccessMeansLoaded(n: Node, cfg: Config, force: bool, o: Outcome)
    requires Applied(n, cfg, force, o).1.Done?
    ensures Applied(n, cfg, force, o).0.loaded == Some(cfg) <==> !(Trusted(n, cfg, force, o) && n.loaded != Some(cfg))
    ensures Applied(n, cfg, force, o).0.disk == Some(cfg) && !Applied(n, cfg, force, o).0.failed
  {}

  /** A forced apply that succeeds repairs any state. */
  lemma ForceHeals(n: Node, cfg: Config, o: Outcome)
    requires Applied(n, cfg, true, o).1.Done?
    ensures Applied(n, cfg, true, o) == (Node(Some(cfg), Some(cfg), false), Done(true))
  {}

  // ---------------------------------------------------------------- passes and losses of the panel

  /**
   desired: the configuration of the last pass that applied and acknowledged, standing for
   its hash. A pass that finds it unchanged does nothing, unless it verifies health or a
   failed probe of the core has asked for a retry.
   */
  datatype System = System(node: Node, desired: Option<Config>, retry: bool)

  /**
   Where the panel was killed in an apply that reached the write. AtWrite: with this in the
   file and systemctl not yet called. AtRestart: with the file written, and the unit left so.
   */
  datatype Loss = AtWrite(left: Option<Config>) | AtRestart(running: Option<Config>)

  /**
   A pass is acknowledged if the store took note of it. Killed: the panel is lost during a
   pass. MarkRetry: a probe of the core failed.
   */
  datatype Step =
    | Pass(cfg: Config, health: bool, force: bool, o: Outcome, acknowledged: bool)
    | Killed(cfg: Config, health: bool, force: bool, o: Outcome, loss: Loss)
    | PanelRestart
    | MarkRetry

  datatype Report = Skipped | Replied(reply: Reply) | Gone | Noted

  predicate NeedsApply(s: System, cfg: Config, health: bool) { health || s.retry || s.desired != Some(cfg) }

  /** What a loss leaves behind on the machine. */
  function Wreck(s: System, cfg: Config, health: bool, force: bool, o: Outcome, loss: Loss): Node {
    if !NeedsApply(s, cfg, health) || !ReachesWrite(s.node, cfg, force, o) then s.node
    else match loss
         case AtWrite(left) => s.node.(disk := left)
         case AtRestart(running) => s.node.(disk := Some(cfg), loaded := running)
  }

  function Next(s: System, step: Step): (System, Report) {
    match step
    case MarkRetry => (s.(retry := true), Noted)
    case PanelRestart => (System(s.node.(failed := false), None, false), Gone)
    case Killed(cfg, health, force, o, loss) =>
      (System(Wreck(s, cfg, health, force, o, loss).(failed := false), None, false), Gone)
    case Pass(cfg, health, force, o, acknowledged) =>
      if !NeedsApply(s, cfg, health) then (s, Skipped)
      else
        var (n, reply) := Applied(s.node, cfg, force, o);
        var noted := reply.Done? && acknowledged;
        (System(n, if noted then Some(cfg) else s.desired, s.retry && !noted), Replied(reply))
  }

  /** The state after the first n steps. */
  function At(s: System, steps: seq<Step>, n: nat): System
    requires n <= |steps|
  {
    if n == 0 then s else Next(At(s, steps, n - 1), steps[n - 1]).0
  }

  // ---------------------------------------------------------------- file and unit

  /** The file is in step with the unit, or the flag says that it is not. */
  predicate InStep(n: Node) { n.failed || n.disk == n.loaded }

  /** Does this step reach the write? */
  predicate Writes(s: System, step: Step) {
    && (step.Pass? || step.Killed?)
    && NeedsApply(s, step.cfg, step.health) && ReachesWrite(s.node, step.cfg, step.force, step.o)
  }

  /**
   No unconfirmed write changed the file under a unit without a flag; and the panel was not
   lost while file and unit differed.
   */
  predicate Harmless(s: System, step: Step) {
    match step
    case Pass(_, _, _, o, _) =>
      Writes(s, step) && o.write.Unconfirmed? && !s.node.failed ==> o.write.left == s.node.loaded
    case MarkRetry => true
    case PanelRestart => s.node.disk == s.node.loaded
    case Killed(cfg, _, _, _, loss) =>
      if !Writes(s, step) then s.node.disk == s.node.loaded
      else if loss.AtWrite? then loss.left == s.node.loaded
      else loss.running == Some(cfg)
  }

  /** For every kind of step, the exact condition under which it keeps file and unit in step. */
  lemma StepKeepsInStepIff(s: System, step: Step)
    requires InStep(s.node)
    ensures InStep(Next(s, step).0.node) <==> Harmless(s, step)
  {}

  /** Each of the first n steps. */
  predicate AllHarmless(s: System, steps: seq<Step>, n: nat)
    requires n <= |steps|
  {
    n > 0 ==> AllHarmless(s, steps, n - 1) && Harmless(At(s, steps, n - 1), steps[n - 1])
  }

  /** At the start, and after each of the first n steps. */
  predicate AllInStep(s: System, steps: seq<Step>, n: nat)
    requires n <= |steps|
  {
    InStep(At(s, steps, n).node) && (n > 0 ==> AllInStep(s, steps, n - 1))
  }

  /** A run stays in step all along exactly if every step of it is harmless. */
  lemma {:induction false} RunInStepIff(s: System, steps: seq<Step>, n: nat)
    requires InStep(s.node) && n <= |steps|
    ensures AllInStep(s, steps, n) <==> AllHarmless(s, steps, n)
  {
    if n > 0 {
      RunInStepIff(s, steps, n - 1);
      if InStep(At(s, steps, n - 1).node) {
        StepKeepsInStepIff(At(s, steps, n - 1), steps[n - 1]);
      }
    }
  }

  predicate Clean(s: System) { s.node.disk == s.node.loaded && !s.node.failed && s.desired == None && !s.retry }

  /**
   Over any harmless run from a clean start: after a pass that reports success, the unit's
   last good start loaded exactly the configuration of that pass; and the file differs from
   what the unit loaded only while a restart is outstanding.
   */
  lemma SuccessIsTrue(s: System, steps: seq<Step>, step: Step)
    requires Clean(s) && AllHarmless(s, steps, |steps|) && step.Pass?
    ensures var before := At(s, steps, |steps|);
            var (after, report) := Next(before, step);
            && (before.node.disk != before.node.loaded ==> before.node.failed)
            && (report.Replied? && report.reply.Done? ==> after.node == Node(Some(step.cfg), Some(step.cfg), false))
  {
    RunInStepIff(s, steps, |steps|);
    assert InStep(At(s, steps, |steps|).node);
  }

  // ---------------------------------------------------------------- the cache

  predicate Succeeds(s: System, step: Step) {
    step.Pass? && Next(s, step).1.Replied? && Next(s, step).1.reply.Done?
  }

  /** What this step puts into the file, if anything. */
  function Puts(s: System, step: Step): Option<Option<Config>> {
    if !Writes(s, step) then None
    else if step.Killed? then Some(if step.loss.AtWrite? then step.loss.left else Some(step.cfg))
    else match step.o.write
         case Untouched => None
         case Installed => Some(Some(step.cfg))
         case Unconfirmed(left) => Some(left)
  }

  /** What the last of the first n steps that put anything into the file left there. */
  function LastLeft(s: System, steps: seq<Step>, n: nat): Option<Config>
    requires n <= |steps|
  {
    if n == 0 then s.node.disk
    else
      var put := Puts(At(s, steps, n - 1), steps[n - 1]);
      if put.Some? then put.value else LastLeft(s, steps, n - 1)
  }

  lemma {:induction false} DiskIsLastLeft(s: System, steps: seq<Step>, n: nat)
    requires n <= |steps|
    ensures At(s, steps, n).node.disk == LastLeft(s, steps, n)
  {
    if n > 0 {
      DiskIsLastLeft(s, steps, n - 1);
    }
  }

  /** The pass, made in spite of the cache, would find everything in place. */
  predicate WouldChangeNothing(n: Node, cfg: Config, o: Outcome) { Applied(n, cfg, false, o) == (n, Done(false)) }

  /**
   Over any run from any state: a pass that the cache skips would have changed nothing exactly
   if no restart is outstanding and the last step that put anything into the file,
   acknowledged, confirmed or not, left the configuration of this pass. If the run was
   harmless, the unit then runs it, too.
   */
  lemma SkipIsTrueIff(s: System, steps: seq<Step>, step: Step, o: Outcome)
    requires step.Pass? && Next(At(s, steps, |steps|), step).1.Skipped? && o.bin && o.readable
    ensures var n := At(s, steps, |steps|).node;
            && (WouldChangeNothing(n, step.cfg, o) <==> !n.failed && LastLeft(s, steps, |steps|) == Some(step.cfg))
            && (InStep(s.node) && AllHarmless(s, steps, |steps|) && WouldChangeNothing(n, step.cfg, o) ==>
                  n.loaded == Some(step.cfg))
  {
    DiskIsLastLeft(s, steps, |steps|);
    if InStep(s.node) {
      RunInStepIff(s, steps, |steps|);
    }
  }

  /** No acknowledgement of a success failed. */
  predicate AllAcknowledged(s: System, steps: seq<Step>, n: nat)
    requires n <= |steps|
  {
    n > 0 ==>
      AllAcknowledged(s, steps, n - 1) && (Succeeds(At(s, steps, n - 1), steps[n - 1]) ==> steps[n - 1].acknowledged)
  }

  function GarbledBy(s: System, step: Step, before: Option<Option<Config>>): Option<Option<Config>> {
    if Succeeds(s, step) || step.PanelRestart? || step.Killed? then None
    else if Writes(s, step) && step.o.write.Unconfirmed? then Some(step.o.write.left)
    else before
  }

  /** What the last unconfirmed write left in the file, if there was one since the last success. */
  function Garbled(s: System, steps: seq<Step>, n: nat): Option<Option<Config>>
    requires n <= |steps|
  {
    if n == 0 then None else GarbledBy(At(s, steps, n - 1), steps[n - 1], Garbled(s, steps, n - 1))
  }

  /** Unless a restart is outstanding, the file holds what the cache says, or what was garbled since. */
  predicate CacheHolds(s: System, garbled: Option<Option<Config>>) {
    s.desired.Some? && !s.node.failed ==> s.node.disk == if garbled.Some? then garbled.value else s.desired
  }

  lemma StepKeepsCache(s: System, step: Step, garbled: Option<Option<Config>>)
    requires CacheHolds(s, garbled) && (Succeeds(s, step) ==> step.acknowledged)
    ensures CacheHolds(Next(s, step).0, GarbledBy(s, step, garbled))
  {}

  lemma {:induction false} AlwaysCacheHolds(s: System, steps: seq<Step>, n: nat)
    requires s.desired == None && n <= |steps| && AllAcknowledged(s, steps, n)
    ensures CacheHolds(At(s, steps, n), Garbled(s, steps, n))
  {
    if n > 0 {
      AlwaysCacheHolds(s, steps, n - 1);
      StepKeepsCache(At(s, steps, n - 1), steps[n - 1], Garbled(s, steps, n - 1));
    }
  }

  /**
   If no acknowledgement of a success failed: exactly if no restart is outstanding, and no
   unconfirmed write since the last success left anything else in the file.
   */
  lemma AcknowledgedSkipIsTrueIff(s: System, steps: seq<Step>, step: Step, o: Outcome)
    requires s.desired == None && AllAcknowledged(s, steps, |steps|)
    requires step.Pass? && Next(At(s, steps, |steps|), step).1.Skipped? && o.bin && o.readable
    ensures var n, garbled := At(s, steps, |steps|).node, Garbled(s, steps, |steps|);
            WouldChangeNothing(n, step.cfg, o) <==>
              !n.failed && (garbled.Some? ==> garbled.value == Some(step.cfg))
  {
    AlwaysCacheHolds(s, steps, |steps|);
  }

  // ---------------------------------------------------------------- what can go wrong

  function Fine(w: Write, r: Restart): Outcome { Outcome(true, true, true, true, w, r) }

  const GOOD := Fine(Installed, Up)

  lemma TwoSteps(s: System, steps: seq<Step>)
    requires |steps| == 2
    ensures At(s, steps, 1) == Next(s, steps[0]).0
    ensures At(s, steps, |steps|) == Next(Next(s, steps[0]).0, steps[1]).0
    ensures Harmless(s, steps[0]) && Harmless(Next(s, steps[0]).0, steps[1]) ==> AllHarmless(s, steps, |steps|)
    ensures steps[0].Pass? && steps[0].acknowledged && steps[1].Pass? && steps[1].acknowledged ==>
              AllAcknowledged(s, steps, |steps|)
  {
    assert At(s, steps, 0) == s;
    assert At(s, steps, 1) == Next(At(s, steps, 0), steps[0]).0;
    assert AllAcknowledged(s, steps, 0);
    assert AllAcknowledged(s, steps, 1) <==> (Succeeds(s, steps[0]) ==> steps[0].acknowledged);
  }

  /** After this run from a clean start the machine is so, and a pass for cfg is skipped. */
  predicate SkipsOn(s: System, steps: seq<Step>, cfg: Config, n: Node) {
    && Clean(s)
    && Next(At(s, steps, |steps|), Pass(cfg, false, false, GOOD, true)).1.Skipped?
    && At(s, steps, |steps|).node == n
  }

  /** The cache means "last acknowledged", not "on disk": the way back to a from a b that failed is skipped. */
  lemma SkipHidesOutstandingRestart(a: Config, b: Config)
    requires a != b
    ensures exists s: System, steps: seq<Step> ::
              SkipsOn(s, steps, a, Node(Some(b), None, true)) && AllHarmless(s, steps, |steps|)
  {
    var s := System(Node(None, None, false), None, false);
    var steps := [Pass(a, false, false, GOOD, true), Pass(b, false, false, Fine(Installed, Down(None)), true)];
    TwoSteps(s, steps);
    assert Next(s, steps[0]).0 == System(Node(Some(a), Some(a), false), Some(a), false);
    assert SkipsOn(s, steps, a, Node(Some(b), None, true));
  }

  /** So is the way back from a b that was applied but not acknowledged: b keeps running, without a flag. */
  lemma SkipHidesUnacknowledged(a: Config, b: Config)
    requires a != b
    ensures exists s: System, steps: seq<Step> ::
              SkipsOn(s, steps, a, Node(Some(b), Some(b), false)) && AllHarmless(s, steps, |steps|)
  {
    var s := System(Node(None, None, false), None, false);
    var steps := [Pass(a, false, false, GOOD, true), Pass(b, false, false, GOOD, false)];
    TwoSteps(s, steps);
    assert Next(s, steps[0]).0 == System(Node(Some(a), Some(a), false), Some(a), false);
    assert SkipsOn(s, steps, a, Node(Some(b), Some(b), false));
  }

  /** So is the way back from a b whose write landed and was reported as failed, with every success acknowledged. */
  lemma SkipHidesUnconfirmed(a: Config, b: Config)
    requires a != b
    ensures exists s: System, steps: seq<Step> ::
              SkipsOn(s, steps, a, Node(Some(b), Some(a), false)) && AllAcknowledged(s, steps, |steps|)
  {
    var s := System(Node(None, None, false), None, false);
    var steps := [Pass(a, false, false, GOOD, true), Pass(b, false, false, Fine(Unconfirmed(Some(b)), Up), true)];
    TwoSteps(s, steps);
    assert Next(s, steps[0]).0 == System(Node(Some(a), Some(a), false), Some(a), false);
    assert SkipsOn(s, steps, a, Node(Some(b), Some(a), false));
  }

  /** After this, a pass for b reports success although the unit has loaded something else. */
  predicate Fooled(s: System, b: Config) {
    && s.node.loaded != Some(b)
    && Next(s, Pass(b, true, false, GOOD, true)) == (System(s.node, Some(b), false), Replied(Done(false)))
  }

  /** An unconfirmed write that did land. */
  lemma UnconfirmedWriteFoolsNextApply(a: Config, b: Config)
    requires a != b
    ensures exists s: System, step: Step ::
              Clean(s) && s.node.loaded == Some(a) && step.Pass? && Fooled(Next(s, step).0, b)
  {
    var s := System(Node(Some(a), Some(a), false), None, false);
    var step := Pass(b, true, false, Fine(Unconfirmed(Some(b)), Up), true);
    assert Fooled(Next(s, step).0, b);
  }

  /** The flag lives in memory: the panel lost between a failed restart and its retry. */
  lemma PanelRestartForgetsOutstanding(a: Config, b: Config)
    requires a != b
    ensures exists s: System, step: Step ::
              && Clean(s) && s.node.loaded == Some(a) && Next(s, step).1 == Replied(Failed(true))
              && Fooled(Next(Next(s, step).0, PanelRestart).0, b)
  {
    var s := System(Node(Some(a), Some(a), false), None, false);
    var step := Pass(b, true, false, Fine(Installed, Down(None)), true);
    assert Fooled(Next(Next(s, step).0, PanelRestart).0, b);
  }

  /** The panel lost between the write and systemctl, before there is a flag. */
  lemma KilledApplyFoolsNextApply(a: Config, b: Config)
    requires a != b
    ensures exists s: System, step: Step ::
              Clean(s) && s.node.loaded == Some(a) && step.Killed? && step.o == GOOD && Fooled(Next(s, step).0, b)
  {
    var s := System(Node(Some(a), Some(a), false), None, false);
    var step := Killed(b, true, false, GOOD, AtWrite(Some(b)));
    assert Fooled(Next(s, step).0, b);
  }
}
