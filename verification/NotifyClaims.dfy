/**
 Reminders about a user's traffic, by Telegram (internal/api/telegram_notify.go) and by
 e-mail (internal/api/email_notifications.go). A claim is stored before a message is sent,
 so that it is sent once, and removed when the condition is over or the sending failed.
 */
module NotifyClaims {
  import opened Wrappers

  datatype Channel = Telegram | Email

  datatype Kind = Low | Out

  /** What the account's traffic amounts to. */
  datatype Level = NoQuota | Exhausted | Short | Plenty

  function LevelOf(total: int, remaining: int, percent: int): Level {
    if total <= 0 then NoQuota
    else if remaining <= 0 then Exhausted
    else if remaining * 100 / total > percent then Plenty
    else Short
  }

  /** Lost: the transport reports an error although the message may have been accepted. */
  datatype Sending = Accepted | Rejected | Lost

  /** Which of the store's statements succeed, whether an e-mail is still wanted, and what the transport says. */
  datatype Fate = Fate(clearLow: bool, clearOut: bool, claim: bool, wanted: bool, sending: Sending, undo: bool)

  /** delivered: the message the user may have received. cleared: the claims known to be gone. */
  datatype Effect = Effect(delivered: Option<Kind>, cleared: set<Kind>)

  const NOTHING := Effect(None, {})

  function Ends(level: Level): set<Kind> {
    match level
    case NoQuota => {Low, Out}
    case Exhausted => {Low}
    case Short => {Out}
    case Plenty => {Low, Out}
  }

  function Starts(level: Level): Option<Kind> {
    match level case Exhausted => Some(Out) case Short => Some(Low) case _ => None
  }

  function Works(f: Fate): set<Kind> { (if f.clearLow then {Low} else {}) + if f.clearOut then {Out} else {} }

  /** An error from Telegram gives the claim back; an e-mail whose fate is unknown keeps it. */
  predicate GivesBack(ch: Channel, f: Fate) {
    f.undo && (f.sending.Rejected? || (ch.Telegram? && f.sending.Lost?))
  }

  /** One attempt to tell the user: claim, send, and perhaps give the claim back. */
  function Sent(ch: Channel, held: set<Kind>, kind: Kind, f: Fate): (set<Kind>, Effect) {
    if kind in held || !f.claim || (ch.Email? && !f.wanted) then (held, NOTHING)
    else
      var delivered := if f.sending.Rejected? then None else Some(kind);
      if GivesBack(ch, f) then (held + {kind} - {kind}, Effect(delivered, {kind}))
      else (held + {kind}, Effect(delivered, {}))
  }

  function Evaluated(ch: Channel, held: set<Kind>, level: Level, send: bool, f: Fate): (set<Kind>, Effect) {
    var ended := Ends(level) * Works(f);
    if Starts(level).None? || !send then (held - ended, Effect(None, ended))
    else
      var (after, e) := Sent(ch, held - ended, Starts(level).value, f);
      (after, Effect(e.delivered, ended + e.cleared))
  }

  class Claims {
    var held: set<Kind>

    method Clear(kind: Kind, works: bool)
      modifies this
      ensures held == if works then old(held) - {kind} else old(held)
    {
      if works {
        held := held - {kind};
      }
    }

    /** INSERT OR IGNORE: won only if the row was not there. */
    method Claim(kind: Kind, works: bool) returns (won: bool)
      modifies this
      ensures won == (works && kind !in old(held))
      ensures held == if won then old(held) + {kind} else old(held)
    {
      won := works && kind !in held;
      if won {
        held := held + {kind};
      }
    }

    method SendTelegram(kind: Kind, f: Fate) returns (e: Effect)
      modifies this
      ensures (held, e) == Sent(Telegram, old(held), kind, f)
    {
      var won := Claim(kind, f.claim);
      if !won {
        return NOTHING;
      }
      if !f.sending.Accepted? {
        Clear(kind, f.undo);
      }
      var back := if !f.sending.Accepted? && f.undo then {kind} else {};
      return Effect(if f.sending.Rejected? then None else Some(kind), back);
    }

    method SendBusinessReminder(kind: Kind, f: Fate) returns (e: Effect)
      modifies this
      ensures (held, e) == Sent(Email, old(held), kind, f)
    {
      if !f.wanted {
        return NOTHING;
      }
      var won := Claim(kind, f.claim);
      if !won {
        return NOTHING;
      }
      if f.sending.Lost? {
        return Effect(Some(kind), {});
      }
      if f.sending.Rejected? {
        Clear(kind, f.undo);
        return Effect(None, if f.undo then {kind} else {});
      }
      return Effect(Some(kind), {});
    }

    method NotifyTraffic(total: int, remaining: int, percent: int, send: bool, f: Fate) returns (e: Effect)
      modifies this
      ensures (held, e) == Evaluated(Telegram, old(held), LevelOf(total, remaining, percent), send, f)
    {
      if total <= 0 {
        Clear(Low, f.clearLow);
        Clear(Out, f.clearOut);
        e := Effect(None, {Low, Out} * Works(f));
        assert held == old(held) - e.cleared;
        return;
      }
      if remaining <= 0 {
        Clear(Low, f.clearLow);
        e := Effect(None, {Low} * Works(f));
        assert held == old(held) - e.cleared;
        if send {
          var sent := SendTelegram(Out, f);
          e := Effect(sent.delivered, e.cleared + sent.cleared);
        }
        return;
      }
      Clear(Out, f.clearOut);
      e := Effect(None, {Out} * Works(f));
      assert held == old(held) - e.cleared;
      if remaining * 100 / total > percent {
        Clear(Low, f.clearLow);
        e := Effect(None, {Low, Out} * Works(f));
        assert held == old(held) - e.cleared;
        return;
      }
      if send {
        var sent := SendTelegram(Low, f);
        e := Effect(sent.delivered, e.cleared + sent.cleared);
      }
    }

    method NotifyEmailTraffic(total: int, remaining: int, percent: int, send: bool, f: Fate) returns (e: Effect)
      modifies this
      ensures (held, e) == Evaluated(Email, old(held), LevelOf(total, remaining, percent), send, f)
    {
      if total <= 0 {
        Clear(Low, f.clearLow);
        Clear(Out, f.clearOut);
        e := Effect(None, {Low, Out} * Works(f));
        assert held == old(held) - e.cleared;
        return;
      }
      var kind := Low;
      if remaining <= 0 {
        Clear(Low, f.clearLow);
        e := Effect(None, {Low} * Works(f));
        assert held == old(held) - e.cleared;
        kind := Out;
      } else {
        Clear(Out, f.clearOut);
        e := Effect(None, {Out} * Works(f));
        assert held == old(held) - e.cleared;
        if remaining * 100 / total > percent {
          Clear(Low, f.clearLow);
          e := Effect(None, {Low, Out} * Works(f));
          assert held == old(held) - e.cleared;
          return;
        }
      }
      if send {
        var sent := SendBusinessReminder(kind, f);
        e := Effect(sent.delivered, e.cleared + sent.cleared);
      }
    }
  }

  // ---------------------------------------------------------------- one evaluation

  predicate Both(held: set<Kind>) { Low in held && Out in held }

  function Other(kind: Kind): Kind { if kind.Low? then Out else Low }

  /** A claim that should have ended could not be removed, and a new one was stored beside it. */
  predicate Slips(ch: Channel, held: set<Kind>, level: Level, send: bool, f: Fate) {
    var kind := Starts(level);
    && kind.Some? && Other(kind.value) in held && Other(kind.value) !in Works(f)
    && send && f.claim && (ch.Telegram? || f.wanted) && !GivesBack(ch, f)
  }

  /** An evaluation ends with both claims exactly if it slips, or if both were held and none could be removed. */
  lemma BothIffSlips(ch: Channel, held: set<Kind>, level: Level, send: bool, f: Fate)
    ensures Both(Evaluated(ch, held, level, send, f).0) <==>
            (Both(held) && Ends(level) * Works(f) == {}) || (!Both(held) && Slips(ch, held, level, send, f))
  {
    if Starts(level).Some? {
      assert Ends(level) == {Other(Starts(level).value)};
    }
  }

  /** If the store's deletions work, no evaluation ends with both, whatever came before. */
  lemma NeverBoth(ch: Channel, held: set<Kind>, level: Level, send: bool, f: Fate)
    requires f.clearLow && f.clearOut
    ensures !Both(Evaluated(ch, held, level, send, f).0)
  {}

  // ---------------------------------------------------------------- whole runs

  datatype Eval = Eval(level: Level, send: bool, f: Fate)

  function HeldAfter(ch: Channel, start: set<Kind>, evals: seq<Eval>, n: nat): set<Kind>
    requires n <= |evals|
  {
    if n == 0 then start
    else var e := evals[n - 1]; Evaluated(ch, HeldAfter(ch, start, evals, n - 1), e.level, e.send, e.f).0
  }

  function EffectOf(ch: Channel, start: set<Kind>, evals: seq<Eval>, n: nat): Effect
    requires n < |evals|
  {
    Evaluated(ch, HeldAfter(ch, start, evals, n), evals[n].level, evals[n].send, evals[n].f).1
  }

  /** The condition behind the claim is over at this evaluation, and the claim is removed. */
  predicate EndsClaim(e: Eval, kind: Kind) { kind in Ends(e.level) && kind in Works(e.f) }

  /** A claim stays until its condition is over: while it is held, nothing is sent that could give it back. */
  lemma {:induction false} ClaimStays(ch: Channel, start: set<Kind>, evals: seq<Eval>, kind: Kind, i: nat, j: nat)
    requires i <= j <= |evals| && kind in HeldAfter(ch, start, evals, i)
    requires forall m :: i <= m < j ==> !EndsClaim(evals[m], kind)
    ensures kind in HeldAfter(ch, start, evals, j)
    decreases j
  {
    if i < j {
      ClaimStays(ch, start, evals, kind, i, j - 1);
      assert !EndsClaim(evals[j - 1], kind);
    }
  }

  /**
   At an evaluation whose message the user may have received, the claim is gone again exactly
   if the transport reported an error that gives it back, and the store could remove it.
   */
  lemma DeliveredGivesBackIff(ch: Channel, held: set<Kind>, level: Level, send: bool, f: Fate)
    requires Evaluated(ch, held, level, send, f).1.delivered.Some?
    ensures var (after, e) := Evaluated(ch, held, level, send, f);
            && (e.delivered.value in e.cleared <==> ch.Telegram? && f.sending.Lost? && f.undo)
            && (e.delivered.value !in after <==> ch.Telegram? && f.sending.Lost? && f.undo)
  {}

  /**
   Over any run, whatever fails: between two messages of one kind that the user may have
   received, the condition was over once and the claim removed; or the first one went by
   Telegram, was reported as an error, and its claim was given back.
   */
  lemma OverBetween(ch: Channel, start: set<Kind>, evals: seq<Eval>, kind: Kind, i: nat, j: nat)
    requires i < j < |evals|
    requires EffectOf(ch, start, evals, i).delivered == EffectOf(ch, start, evals, j).delivered == Some(kind)
    ensures (ch.Telegram? && evals[i].f.sending.Lost? && evals[i].f.undo)
            || exists m :: i < m < j && EndsClaim(evals[m], kind)
  {
    DeliveredGivesBackIff(ch, HeldAfter(ch, start, evals, i), evals[i].level, evals[i].send, evals[i].f);
    if kind in HeldAfter(ch, start, evals, i + 1) && forall m :: i < m < j ==> !EndsClaim(evals[m], kind) {
      ClaimStays(ch, start, evals, kind, i + 1, j);
      assert false;
    }
  }

  /** By e-mail, then, always the former: an uncertain delivery keeps its claim. */
  lemma EmailOverBetween(start: set<Kind>, evals: seq<Eval>, kind: Kind, i: nat, j: nat)
    requires i < j < |evals|
    requires EffectOf(Email, start, evals, i).delivered == EffectOf(Email, start, evals, j).delivered == Some(kind)
    ensures exists m :: i < m < j && EndsClaim(evals[m], kind)
  {
    OverBetween(Email, start, evals, kind, i, j);
  }

  /**
   While its condition lasts, a message is repeated by the next evaluation exactly if the
   first one went by Telegram, was reported as an error and undone, and the second goes out.
   */
  lemma RepeatsIff(ch: Channel, held: set<Kind>, level: Level, send: bool, first: Fate, second: Fate)
    requires Evaluated(ch, held, level, send, first).1.delivered.Some?
    ensures var after := Evaluated(ch, held, level, send, first).0;
            Evaluated(ch, after, level, true, second).1.delivered.Some? <==>
              && ch.Telegram? && first.sending.Lost? && first.undo
              && second.claim && !second.sending.Rejected?
  {
    DeliveredGivesBackIff(ch, held, level, send, first);
  }

  /** Two evaluations in a row that both deliver the same message. */
  predicate Twice(level: Level, first: Fate, second: Fate) {
    var (after, e) := Evaluated(Telegram, {}, level, true, first);
    e.delivered == Evaluated(Telegram, after, level, true, second).1.delivered == Starts(level)
  }

  lemma TelegramRepeatsLost(level: Level)
    requires Starts(level).Some?
    ensures exists first: Fate, second: Fate :: Twice(level, first, second)
  {
    var lost := Fate(true, true, true, true, Lost, true);
    RepeatsIff(Telegram, {}, level, true, lost, lost);
    assert Twice(level, lost, lost);
  }
}
