/**
 A release trigger's cooldown: pausing it by an abort, resuming it with what was left, and the resets that
 give a trigger blocked on its attestation another try.

 Each handler, finaliser pass or scheduler reset of one trigger is one step at a given time.
 */
module Cooldown {
  import opened Wrappers
  import opened Tables

  datatype Status = Cooling | Aborted | Blocked | Released

  datatype Trigger = Trigger(wallet: string, plan: string, status: Status, effectiveAt: int, remaining: Option<int>, resets: nat)

  function Max(x: int, y: int): int { if x >= y then x else y }

  const MAX_BLOCKED_RESETS: nat := 3

  /** An emergency release starts its cooldown at once. */
  function Created(wallet: string, plan: string, now: int, cooldownMs: nat): Trigger {
    Trigger(wallet, plan, Cooling, now + cooldownMs, None, 0)
  }

  /** What the finaliser finds when it may act: a valid gate, an invalid one, or a reason to wait. */
  datatype Gate = Valid | Invalid | Wait

  datatype Event =
    | Abort(now: int)
    | Resume(now: int)
    | Finalise(now: int, gate: Gate)
    | AutoReset(now: int)
    | RetryBlocked(now: int)

  predicate Eligible(t: Trigger, now: int) {
    t.status == Cooling && now >= t.effectiveAt
  }

  predicate Resettable(t: Trigger, now: int) {
    t.status == Blocked && t.effectiveAt != 0 && t.effectiveAt <= now && t.resets < MAX_BLOCKED_RESETS
  }

  function Step(t: Trigger, e: Event): Trigger {
    match e
    case Abort(now) =>
      if t.status != Cooling then t else t.(status := Aborted, remaining := Some(Max(0, t.effectiveAt - now)))
    case Resume(now) =>
      if t.status != Aborted then t
      else
        var left := if t.remaining.Some? && t.remaining.value >= 0 then t.remaining.value else 0;
        t.(status := Cooling, effectiveAt := now + left, remaining := None)
    case Finalise(now, gate) =>
      if !Eligible(t, now) || gate == Wait then t
      else t.(status := if gate == Valid then Released else Blocked)
    case AutoReset(now) =>
      if !Resettable(t, now) then t
      else t.(status := Cooling, resets := t.resets + 1, effectiveAt := now + (t.resets + 1) * 120000)
    case RetryBlocked(now) =>
      if t.status != Blocked then t else t.(status := Cooling, effectiveAt := now + 30 * 1000)
  }

  /** A trigger, when it was last touched, and how long it has spent not aborted until then. */
  datatype Timed = Timed(t: Trigger, at: int, spent: int)

  function Spent(x: Timed, now: int): int {
    x.spent + if x.t.status == Aborted then 0 else now - x.at
  }

  function Follow(x: Timed, es: seq<Event>): Timed
    decreases |es|
  {
    if es == [] then x else Follow(Timed(Step(x.t, es[0]), es[0].now, Spent(x, es[0].now)), es[1..])
  }

  ghost predicate InOrder(at: int, es: seq<Event>)
    decreases |es|
  {
    es == [] || (at <= es[0].now && InOrder(es[0].now, es[1..]))
  }

  function TimeLeft(t: Trigger, now: int): int {
    match t.status
    case Cooling => Max(0, t.effectiveAt - now)
    case Aborted => if t.remaining.Some? then t.remaining.value else 0
    case _ => 0
  }

  ghost predicate OnlyPauses(es: seq<Event>) {
    forall e <- es :: e.Abort? || e.Resume?
  }

  // ----- Conservation of the cooldown -----

  ghost predicate Conserved(x: Timed, cooldown: int) {
    && (x.t.status == Cooling || (x.t.status == Aborted && x.t.remaining.Some?))
    && TimeLeft(x.t, x.at) == Max(0, cooldown - x.spent)
  }

  lemma PauseConserves(x: Timed, e: Event, cooldown: int)
    requires Conserved(x, cooldown) && x.at <= e.now && (e.Abort? || e.Resume?)
    ensures Conserved(Timed(Step(x.t, e), e.now, Spent(x, e.now)), cooldown)
  {
  }

  lemma {:induction false} PausesConserve(x: Timed, es: seq<Event>, cooldown: int)
    requires Conserved(x, cooldown) && OnlyPauses(es) && InOrder(x.at, es)
    ensures Conserved(Follow(x, es), cooldown)
    decreases |es|
  {
    if es != [] {
      hide Conserved;
      assert es[0] in es;
      PauseConserves(x, es[0], cooldown);
      PausesConserve(Timed(Step(x.t, es[0]), es[0].now, Spent(x, es[0].now)), es[1..], cooldown);
    }
  }

  /** However it is aborted and resumed, the time left is always the cooldown less the time not aborted. */
  lemma TimeLeftIsConserved(wallet: string, plan: string, start: int, cooldown: nat, es: seq<Event>, now: int)
    requires OnlyPauses(es) && InOrder(start, es)
    requires var x := Follow(Timed(Created(wallet, plan, start, cooldown), start, 0), es); x.at <= now
    ensures var x := Follow(Timed(Created(wallet, plan, start, cooldown), start, 0), es);
      TimeLeft(x.t, now) == Max(0, cooldown - Spent(x, now))
  {
    hide Follow;
    PausesConserve(Timed(Created(wallet, plan, start, cooldown), start, 0), es, cooldown);
  }

  // ----- No early release -----

  /** What still has to be waited is at least what is left of the cooldown. */
  ghost predicate NotEarly(x: Timed, cooldown: int) {
    match x.t.status
    case Cooling => x.t.effectiveAt - x.at >= cooldown - x.spent
    case Aborted => x.t.remaining.Some? && x.t.remaining.value >= 0 && x.t.remaining.value >= cooldown - x.spent
    case _ => x.spent >= cooldown
  }

  lemma StepNotEarly(x: Timed, e: Event, cooldown: int)
    requires NotEarly(x, cooldown) && x.at <= e.now
    ensures NotEarly(Timed(Step(x.t, e), e.now, Spent(x, e.now)), cooldown)
  {
  }

  lemma {:induction false} NeverEarly(x: Timed, es: seq<Event>, cooldown: int)
    requires NotEarly(x, cooldown) && InOrder(x.at, es)
    ensures NotEarly(Follow(x, es), cooldown)
    decreases |es|
  {
    if es != [] {
      hide NotEarly;
      StepNotEarly(x, es[0], cooldown);
      NeverEarly(Timed(Step(x.t, es[0]), es[0].now, Spent(x, es[0].now)), es[1..], cooldown);
    }
  }

  /**
   Whatever happens to it, a trigger that is eligible, blocked or released has spent its whole initial
   cooldown not aborted.
   */
  lemma FullCooldownFirst(wallet: string, plan: string, start: int, cooldown: nat, es: seq<Event>, now: int)
    requires InOrder(start, es)
    requires var x := Follow(Timed(Created(wallet, plan, start, cooldown), start, 0), es); x.at <= now
    ensures var x := Follow(Timed(Created(wallet, plan, start, cooldown), start, 0), es);
      Eligible(x.t, now) || x.t.status == Blocked || x.t.status == Released ==> Spent(x, now) >= cooldown
  {
    hide Follow;
    NeverEarly(Timed(Created(wallet, plan, start, cooldown), start, 0), es, cooldown);
  }

  // ----- Automatic resets -----

  /** How many automatic resets took effect. */
  function Resets(t: Trigger, es: seq<Event>): nat
    decreases |es|
  {
    if es == [] then 0
    else Resets(Step(t, es[0]), es[1..]) + if es[0].AutoReset? && Step(t, es[0]) != t then 1 else 0
  }

  function After(t: Trigger, es: seq<Event>): Trigger
    decreases |es|
  {
    if es == [] then t else After(Step(t, es[0]), es[1..])
  }

  /** At most three automatic resets take effect, whatever else happens in between. */
  lemma {:induction false} AtMostThreeResets(t: Trigger, es: seq<Event>)
    requires t.resets <= 3
    ensures After(t, es).resets == t.resets + Resets(t, es) <= 3
    decreases |es|
  {
    if es != [] {
      AtMostThreeResets(Step(t, es[0]), es[1..]);
    }
  }

  lemma {:induction false} ReleasedStays(t: Trigger, es: seq<Event>)
    requires t.status == Released
    ensures After(t, es) == t
    decreases |es|
  {
    if es != [] {
      ReleasedStays(t, es[1..]);
    }
  }

  /** After the last automatic reset only an administrator's retry moves a blocked trigger. */
  lemma {:induction false} ThenOnlyRetryMoves(t: Trigger, es: seq<Event>)
    requires t.status == Blocked && t.resets >= 3
    ensures After(t, es) != t ==> exists e :: e in es && e.RetryBlocked?
    decreases |es|
  {
    if es != [] {
      if es[0].RetryBlocked? {
        assert es[0] in es;
      } else {
        ThenOnlyRetryMoves(t, es[1..]);
        assert forall e :: e in es[1..] ==> e in es;
      }
    }
  }

  // ----- When each status is reached -----

  /** Aborted by an abort of a cooling trigger, until it is resumed. */
  lemma AbortedIff(t: Trigger, e: Event)
    ensures Step(t, e).status == Aborted <==> (t.status == Cooling && e.Abort?) || (t.status == Aborted && !e.Resume?)
  {
  }

  /** Released by a finaliser pass that finds the gate valid once the cooldown is over, for good. */
  lemma ReleasedIff(t: Trigger, e: Event)
    ensures Step(t, e).status == Released <==>
      t.status == Released || (t.status == Cooling && e.Finalise? && e.gate == Valid && e.now >= t.effectiveAt)
  {
  }

  /** Blocked by one that finds it invalid, until a retry or one of three resets of a trigger that is due. */
  lemma BlockedIff(t: Trigger, e: Event)
    ensures Step(t, e).status == Blocked <==>
      || (t.status == Cooling && e.Finalise? && e.gate == Invalid && e.now >= t.effectiveAt)
      || (t.status == Blocked && !e.RetryBlocked? && !(e.AutoReset? && 0 != t.effectiveAt <= e.now && t.resets < 3))
  {
  }

  /** The k-th automatic reset makes a blocked trigger wait 2k minutes more, exactly; a retry half a minute. */
  lemma ResetDelays(t: Trigger, now: int, later: int)
    requires t.status == Blocked
    ensures 0 != t.effectiveAt <= now && t.resets < 3 ==>
      (Eligible(Step(t, AutoReset(now)), later) <==> later >= now + 120_000 * (t.resets + 1))
    ensures Eligible(Step(t, RetryBlocked(now)), later) <==> later >= now + 30_000
  {
  }

  /** A created trigger waits its whole cooldown from now on, and has used no reset. */
  lemma CreatedWaits(wallet: string, plan: string, now: int, cooldownMs: nat, later: int)
    ensures var t := Created(wallet, plan, now, cooldownMs);
      && t.wallet == wallet && t.plan == plan && t.resets == 0
      && (Eligible(t, later) <==> later >= now + cooldownMs)
  {
  }

  /** A resumed trigger waits exactly what remained; nothing, if that was not recorded. */
  lemma ResumedWaits(t: Trigger, now: int, later: int)
    requires t.status == Aborted
    ensures var u := Step(t, Resume(now));
      && u.remaining == None && u.resets == t.resets
      && (t.remaining.Some? && t.remaining.value > 0 ==> (Eligible(u, later) <==> later >= now + t.remaining.value))
      && (t.remaining.None? || t.remaining.value <= 0 ==> (Eligible(u, later) <==> later >= now))
  {
  }

  /** A trigger is only ever released by a finaliser that found its gate valid. */
  lemma {:induction false} ReleasedByValidGate(t: Trigger, es: seq<Event>)
    requires t.status != Released && After(t, es).status == Released
    ensures exists i :: 0 <= i < |es| && es[i].Finalise? && es[i].gate == Valid
    decreases |es|
  {
    hide Step;
    var u := Step(t, es[0]);
    ReleasedIff(t, es[0]);
    if u.status != Released {
      ReleasedByValidGate(u, es[1..]);
      var i :| 0 <= i < |es[1..]| && es[1..][i].Finalise? && es[1..][i].gate == Valid;
      assert es[i + 1] == es[1..][i];
    }
  }

  // ----- The handlers -----

  class Triggers {
    var rows: map<string, Trigger>

    constructor (rows: map<string, Trigger>)
      ensures this.rows == rows
    {
      this.rows := rows;
    }

    method AbortTrigger(id: string, now: int) returns (ok: bool)
      modifies this
      ensures ok <==> id in old(rows) && old(rows)[id].status == Cooling
      ensures rows == if id in old(rows) then old(rows)[id := Step(old(rows)[id], Abort(now))] else old(rows)
    {
      if id !in rows || rows[id].status != Cooling { return false; }
      var left := Max(0, rows[id].effectiveAt - now);
      rows := rows[id := rows[id].(status := Aborted, remaining := Some(left))];
      ok := true;
    }

    method ResumeTrigger(id: string, now: int) returns (ok: bool)
      modifies this
      ensures ok <==> id in old(rows) && old(rows)[id].status == Aborted
      ensures rows == if id in old(rows) then old(rows)[id := Step(old(rows)[id], Resume(now))] else old(rows)
    {
      if id !in rows || rows[id].status != Aborted { return false; }
      var t := rows[id];
      var left := if t.remaining.Some? && t.remaining.value >= 0 then t.remaining.value else 0;
      rows := rows[id := t.(status := Cooling, effectiveAt := now + left, remaining := None)];
      ok := true;
    }

    /** The scheduler's pass over blocked triggers. */
    method ResetBlocked(order: seq<string>, now: int)
      requires Covers(order, rows)
      modifies this
      ensures rows == map k | k in old(rows) :: Step(old(rows)[k], AutoReset(now))
    {
      var all := rows;
      for i := 0 to |order|
        invariant rows == map k | k in all :: if k in order[..i] then Step(all[k], AutoReset(now)) else all[k]
      {
        assert order[..i + 1] == order[..i] + [order[i]];
        var t := all[order[i]];
        if Resettable(t, now) {
          var resets := t.resets + 1;
          rows := rows[order[i] := t.(status := Cooling, resets := resets, effectiveAt := now + resets * 120000)];
        }
      }
      assert order[..|order|] == order;
    }

    /** An administrator's retry for one wallet and plan. */
    method RetryWalletPlan(order: seq<string>, wallet: string, plan: string, now: int) returns (count: nat)
      requires Covers(order, rows)
      modifies this
      ensures rows == map k | k in old(rows) ::
        if old(rows)[k].wallet == wallet && old(rows)[k].plan == plan then Step(old(rows)[k], RetryBlocked(now)) else old(rows)[k]
    {
      var all := rows;
      count := 0;
      for i := 0 to |order|
        invariant rows == map k | k in all :: if k in order[..i] && all[k].wallet == wallet && all[k].plan == plan then Step(all[k], RetryBlocked(now)) else all[k]
      {
        assert order[..i + 1] == order[..i] + [order[i]];
        var t := all[order[i]];
        if t.wallet == wallet && t.plan == plan && t.status == Blocked {
          rows := rows[order[i] := t.(status := Cooling, effectiveAt := now + 30 * 1000)];
          count := count + 1;
        }
      }
      assert order[..|order|] == order;
    }
  }
}
