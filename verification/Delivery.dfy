/**
 Delivery of one recipient's credential: in-flight deduplication, a persistent log, and retries.

 Everything is about one log id.  Callers, the log's readers and writers, and the scheduler's reset of
 old failures interleave at every await.  Deliveries are not forced, log writes succeed, and no delivery
 promise rejects.
 */
module Delivery {
  import opened Wrappers

  const MAX_RETRY_ATTEMPTS: nat := 5

  datatype Status = Pending | Failed | Delivered

  /** `resettable` holds when the error text is one the scheduler resets (mint or fetch failures). */
  datatype Log = Log(status: Status, attempts: nat, txId: Option<string>, resettable: bool)

  datatype Outcome = Acked(tx: Option<string>) | Refused(nonRetryable: bool, resettable: bool)

  datatype Phase =
    | Waiting(on: nat)                                     // awaiting another caller's delivery promise
    | Started                                              // about to read the log
    | Preparing                                            // fetching manifest and payload
    | Posting                                              // the mint request is out
    | Replied(outcome: Outcome)                            // about to record
    | Recording(outcome: Outcome, existing: Option<Log>)   // existing record read, new one not yet written
    | Settled(outcome: Outcome)                            // delivery promise resolved
    | Returned(outcome: Outcome)

  /**
   `seen` is the record the scheduler's tick last read.  The rest is history: `acks` counts mint requests
   answered with success, `staleResets` the resets that overwrote a delivered record, `written` the records
   deliveries have written since the start or the last reset, and `overtaken` holds when one of those was
   built from a record read before that reset.
   */
  datatype State = State(log: Option<Log>, inFlight: Option<nat>, tasks: map<nat, Phase>, seen: Option<Log>,
                         acks: nat, staleResets: nat, base: nat, written: nat, overtaken: bool)

  function Attempts(log: Option<Log>): nat {
    if log.Some? then log.value.attempts else 0
  }

  function Init(log: Option<Log>): State {
    State(log, None, map[], None, 0, 0, Attempts(log), 0, false)
  }

  datatype Event =
    | Call(t: nat)
    | Wake(t: nat)
    | ReadLog(t: nat)
    | Prepare(t: nat, error: Option<Outcome>)
    | Reply(t: nat, outcome: Outcome)
    | ReadExisting(t: nat)
    | WriteLog(t: nat)
    | Finish(t: nat)
    | SchedulerReads
    | SchedulerResets
    | RetryMarksFailed

  /** The record written after one more attempt. */
  function NextRecord(existing: Option<Log>, o: Outcome): Log {
    var attempts := (if existing.Some? then existing.value.attempts else 0) + 1;
    var oldTx := if existing.Some? then existing.value.txId else None;
    match o
    case Acked(tx) => Log(Delivered, attempts, if tx.Some? then tx else oldTx, false)
    case Refused(nonRetryable, resettable) =>
      Log(if nonRetryable || attempts >= MAX_RETRY_ATTEMPTS then Failed else Pending, attempts, oldTx, resettable)
  }

  predicate Resets(s: State) {
    s.seen.Some? && s.seen.value.status == Failed && s.seen.value.attempts >= MAX_RETRY_ATTEMPTS && s.seen.value.resettable
  }

  predicate IsDelivered(log: Option<Log>) {
    log.Some? && log.value.status == Delivered
  }

  function Move(s: State, t: nat, p: Phase): State {
    s.(tasks := s.tasks[t := p])
  }

  function Step(s: State, e: Event): State {
    match e
    case Call(t) =>
      if t in s.tasks then s
      else if s.inFlight.Some? then Move(s, t, Waiting(s.inFlight.value))
      else Move(s, t, Started).(inFlight := Some(t))
    case Wake(t) =>
      if t in s.tasks && s.tasks[t].Waiting? && s.tasks[t].on in s.tasks then
        match s.tasks[s.tasks[t].on] {
          case Settled(o) => Move(s, t, Returned(o))
          case Returned(o) => Move(s, t, Returned(o))
          case _ => s
        }
      else s
    case ReadLog(t) =>
      if t !in s.tasks || !s.tasks[t].Started? then s
      else if IsDelivered(s.log) then Move(s, t, Settled(Acked(s.log.value.txId)))
      else Move(s, t, Preparing)
    case Prepare(t, error) =>
      if t !in s.tasks || !s.tasks[t].Preparing? then s
      else if error.None? then Move(s, t, Posting)
      else if error.value.Refused? then Move(s, t, Replied(error.value))
      else s
    case Reply(t, o) =>
      if t !in s.tasks || !s.tasks[t].Posting? then s
      else Move(s, t, Replied(o)).(acks := s.acks + (if o.Acked? then 1 else 0))
    case ReadExisting(t) =>
      if t !in s.tasks || !s.tasks[t].Replied? then s else Move(s, t, Recording(s.tasks[t].outcome, s.log))
    case WriteLog(t) =>
      if t !in s.tasks || !s.tasks[t].Recording? then s
      else
        Move(s, t, Settled(s.tasks[t].outcome)).(
          log := Some(NextRecord(s.tasks[t].existing, s.tasks[t].outcome)), written := s.written + 1,
          overtaken := s.overtaken || Attempts(s.tasks[t].existing) != Attempts(s.log))
    case Finish(t) =>
      if t !in s.tasks || !s.tasks[t].Settled? then s
      else Move(s, t, Returned(s.tasks[t].outcome)).(inFlight := if s.inFlight == Some(t) then None else s.inFlight)
    case SchedulerReads => s.(seen := s.log)
    case SchedulerResets =>
      if Resets(s)
      then s.(log := Some(s.seen.value.(status := Pending, attempts := 0)),
              staleResets := s.staleResets + (if IsDelivered(s.log) then 1 else 0),
              base := 0, written := 0, overtaken := false)
      else s
    case RetryMarksFailed =>
      if s.seen.Some? && s.seen.value.status == Pending && s.seen.value.attempts >= MAX_RETRY_ATTEMPTS
      then s.(log := Some(s.seen.value.(status := Failed)))
      else s
  }

  function Run(s: State, es: seq<Event>): State {
    if es == [] then s else Step(Run(s, es[..|es| - 1]), es[|es| - 1])
  }

  // ----- Invariant -----

  predicate Active(p: Phase) {
    !p.Waiting? && !p.Returned?
  }

  /** Past the log check and before the log write. */
  predicate Delivering(p: Phase) {
    p.Preparing? || p.Posting? || p.Replied? || p.Recording?
  }

  predicate HasOutcome(p: Phase) {
    p.Replied? || p.Recording? || p.Settled? || p.Returned?
  }

  predicate Unrecorded(p: Phase) {
    (p.Replied? || p.Recording?) && p.outcome.Acked?
  }

  predicate LogOk(log: Option<Log>) {
    log.Some? && log.value.status == Pending ==> log.value.attempts < MAX_RETRY_ATTEMPTS
  }

  /** The one delivery that is between its log check and its log write, if any, has yet to be recorded. */
  ghost predicate Uncredited(s: State) {
    s.inFlight.Some? && s.inFlight.value in s.tasks && Unrecorded(s.tasks[s.inFlight.value])
  }

  ghost predicate Exclusive(s: State) {
    && (forall t :: t in s.tasks && Active(s.tasks[t]) ==> s.inFlight == Some(t))
    && (s.inFlight.Some? ==> s.inFlight.value in s.tasks && Active(s.tasks[s.inFlight.value]))
    && (forall t :: t in s.tasks && s.tasks[t].Waiting? ==> s.tasks[t].on in s.tasks)
  }

  ghost predicate Truthful(s: State) {
    && LogOk(s.log) && LogOk(s.seen)
    && (forall t :: t in s.tasks && Delivering(s.tasks[t]) ==> !IsDelivered(s.log))
    && (forall t :: t in s.tasks && HasOutcome(s.tasks[t]) && s.tasks[t].outcome.Acked? ==> s.acks > 0)
    && (IsDelivered(s.log) ==> s.acks > 0)
  }

  ghost predicate Counted(s: State) {
    s.acks == s.staleResets + (if IsDelivered(s.log) || Uncredited(s) then 1 else 0)
  }

  /** The attempts recorded are those since the start or the last reset, unless an older record was built on. */
  ghost predicate Tallied(s: State) {
    && Attempts(s.log) >= s.base + s.written
    && (Attempts(s.log) == s.base + s.written <==> !s.overtaken)
    && (forall t :: t in s.tasks && s.tasks[t].Recording? && Attempts(s.tasks[t].existing) != Attempts(s.log) ==>
          Attempts(s.log) == s.base == s.written == 0)
  }

  ghost predicate Inv(s: State) {
    Exclusive(s) && Truthful(s) && Counted(s) && Tallied(s)
  }

  lemma StepKeepsTallied(s: State, e: Event)
    requires Exclusive(s) && Truthful(s) && Tallied(s)
    ensures Tallied(Step(s, e))
  {
    if e.WriteLog? && e.t in s.tasks && s.tasks[e.t].Recording? {
      assert Active(s.tasks[e.t]);
      assert forall t :: t in s.tasks && Active(s.tasks[t]) ==> t == e.t;
    }
  }

  lemma StepKeepsExclusive(s: State, e: Event)
    requires Exclusive(s)
    ensures Exclusive(Step(s, e))
  {
  }

  lemma StepKeepsTruthful(s: State, e: Event)
    requires Exclusive(s) && Truthful(s)
    ensures Truthful(Step(s, e))
  {
  }

  lemma StepKeepsCounted(s: State, e: Event)
    requires Inv(s)
    ensures Counted(Step(s, e))
  {
    var s' := Step(s, e);
    if s.inFlight.Some? {
      var f := s.inFlight.value;
      assert f in s.tasks && Active(s.tasks[f]);
      assert f in s'.tasks;
    }
  }

  lemma StepKeepsInv(s: State, e: Event)
    requires Inv(s)
    ensures Inv(Step(s, e))
  {
    StepKeepsExclusive(s, e);
    StepKeepsTruthful(s, e);
    StepKeepsCounted(s, e);
    StepKeepsTallied(s, e);
  }

  lemma {:induction false} RunKeepsInv(s: State, es: seq<Event>)
    requires Inv(s)
    ensures Inv(Run(s, es))
    decreases |es|
  {
    if es != [] {
      RunKeepsInv(s, es[..|es| - 1]);
      StepKeepsInv(Run(s, es[..|es| - 1]), es[|es| - 1]);
    }
  }

  // ----- Main results -----

  predicate FreshLog(log: Option<Log>) {
    LogOk(log) && !IsDelivered(log)
  }

  lemma Reached(log: Option<Log>, es: seq<Event>)
    requires FreshLog(log)
    ensures Inv(Run(Init(log), es))
  {
    assert Inv(Init(log));
    hide Inv, Step;
    RunKeepsInv(Init(log), es);
  }

  /** At most one mint request is out at any time, however many callers there are. */
  lemma OnePostInFlight(log: Option<Log>, es: seq<Event>, t: nat, u: nat)
    requires FreshLog(log)
    requires var s := Run(Init(log), es); t in s.tasks && u in s.tasks && s.tasks[t].Posting? && s.tasks[u].Posting?
    ensures t == u
  {
    hide Run;
    Reached(log, es);
  }

  /**
   At most once: every reset that overwrote a delivered record accounts for one acknowledged request, and
   the record as it stands, or the answer about to be recorded, for at most one more.  So at most one is
   ever acknowledged exactly when there was no such reset, or one that no delivery has followed.  Nobody is
   told "delivered" before a request is acknowledged.
   */
  lemma AtMostOnceDelivery(log: Option<Log>, es: seq<Event>)
    requires FreshLog(log)
    ensures var s := Run(Init(log), es);
      && s.acks == s.staleResets + (if IsDelivered(s.log) || Uncredited(s) then 1 else 0)
      && (s.acks <= 1 <==> s.staleResets == 0 || (s.staleResets == 1 && !IsDelivered(s.log) && !Uncredited(s)))
      && (forall t :: t in s.tasks && HasOutcome(s.tasks[t]) && s.tasks[t].outcome.Acked? ==> s.acks > 0)
      && (IsDelivered(s.log) ==> s.acks > 0)
  {
    hide Run;
    Reached(log, es);
  }

  /**
   A delivered record outlives every step except a scheduler reset decided on an older reading: one of a
   failed record with five attempts or more and an error of the kind that is reset.
   */
  lemma DeliveredIsAbsorbing(log: Option<Log>, es: seq<Event>, e: Event)
    requires FreshLog(log) && IsDelivered(Run(Init(log), es).log)
    ensures var s := Run(Init(log), es);
      IsDelivered(Step(s, e).log) <==>
        !(e.SchedulerResets? && s.seen.Some? && s.seen.value.status == Failed && s.seen.value.attempts >= 5 && s.seen.value.resettable)
  {
    hide Run;
    Reached(log, es);
  }

  lemma DeliveredStep(s: State, e: Event)
    requires Inv(s) && IsDelivered(s.log)
    ensures var s' := Step(s, e); s'.staleResets >= s.staleResets && (s'.staleResets == s.staleResets ==> s'.log == s.log)
  {
  }

  lemma StaleResetsGrow(s: State, e: Event)
    ensures Step(s, e).staleResets >= s.staleResets
  {
  }

  /** Until such a reset a delivered record stays as it is, with its transaction id, over any further run. */
  lemma {:induction false} DeliveredStays(s: State, es: seq<Event>)
    requires Inv(s) && IsDelivered(s.log)
    ensures Run(s, es).staleResets >= s.staleResets
    ensures Run(s, es).staleResets == s.staleResets ==> Run(s, es).log == s.log
    decreases |es|
  {
    if es != [] {
      hide Step, Inv, IsDelivered;
      var n := |es| - 1;
      DeliveredStays(s, es[..n]);
      RunKeepsInv(s, es[..n]);
      StaleResetsGrow(Run(s, es[..n]), es[n]);
      if Run(s, es[..n]).staleResets == s.staleResets { DeliveredStep(Run(s, es[..n]), es[n]); }
    }
  }

  /** And whoever asks for that delivery meanwhile is told it is done, with that id, without a request going out. */
  lemma DeliveredIsTold(s: State, t: nat, es: seq<Event>)
    requires Inv(s) && IsDelivered(s.log) && Run(s, es).staleResets == s.staleResets
    requires t in Run(s, es).tasks && Run(s, es).tasks[t].Started?
    ensures var s' := Step(Run(s, es), ReadLog(t));
      s'.tasks[t] == Settled(Acked(s.log.value.txId)) && s'.acks == Run(s, es).acks
  {
    DeliveredStays(s, es);
  }

  /** A pending record always has attempts left, so the retry loop's "mark failed" branch never fires. */
  lemma PendingHasAttemptsLeft(log: Option<Log>, es: seq<Event>)
    requires FreshLog(log)
    ensures var s := Run(Init(log), es);
      && (s.log.Some? && s.log.value.status == Pending ==> s.log.value.attempts < 5)
      && Step(s, RetryMarksFailed) == s
  {
    hide Run;
    Reached(log, es);
  }

  // ----- Attempts -----

  /**
   Over any run the attempts on record are those at the start, or none since the last reset, plus one for
   each record written since; exactly so unless a record read before that reset was built on after it,
   which leaves more.
   */
  lemma AttemptsAreCounted(log: Option<Log>, es: seq<Event>)
    requires FreshLog(log)
    ensures var s := Run(Init(log), es);
      && Attempts(s.log) >= s.base + s.written
      && (Attempts(s.log) == s.base + s.written <==> !s.overtaken)
  {
    hide Run;
    Reached(log, es);
  }

  /** So a refusal leaves the record pending exactly when it may be retried and fewer than five are counted. */
  lemma RefusalLeavesPendingIff(log: Option<Log>, es: seq<Event>, t: nat)
    requires FreshLog(log)
    requires var s := Run(Init(log), es); t in s.tasks && s.tasks[t].Recording? && s.tasks[t].outcome.Refused?
    requires !Step(Run(Init(log), es), WriteLog(t)).overtaken
    ensures var s := Run(Init(log), es);
      var after := Step(s, WriteLog(t)).log.value;
      && after.attempts == s.base + s.written + 1
      && (after.status == Pending <==> !s.tasks[t].outcome.nonRetryable && s.base + s.written + 1 < 5)
      && (after.status != Pending ==> after.status == Failed)
  {
    hide Run;
    Reached(log, es);
  }

  /** An acknowledged answer is recorded as delivered, with its id if it carries one and the earlier one if not. */
  lemma AcknowledgedIdIsRecorded(s: State, t: nat)
    requires t in s.tasks && s.tasks[t].Recording? && s.tasks[t].outcome.Acked?
    ensures var tx, existing := s.tasks[t].outcome.tx, s.tasks[t].existing;
      var after := Step(s, WriteLog(t)).log;
      && IsDelivered(after) && !after.value.resettable
      && (tx.Some? ==> after.value.txId == tx)
      && (tx.None? ==> after.value.txId == if existing.Some? then existing.value.txId else None)
  {
  }

  /** A refusal keeps the id on record, and remembers whether its error is one the scheduler resets. */
  lemma RefusalKeepsId(s: State, t: nat)
    requires t in s.tasks && s.tasks[t].Recording? && s.tasks[t].outcome.Refused?
    ensures var existing, after := s.tasks[t].existing, Step(s, WriteLog(t)).log.value;
      && after.txId == (if existing.Some? then existing.value.txId else None)
      && after.resettable == s.tasks[t].outcome.resettable
  {
  }

  /** Callers that found a delivery in flight return what it returned. */
  lemma WaitersShareTheOutcome(log: Option<Log>, es: seq<Event>, t: nat)
    requires FreshLog(log)
    requires var s := Run(Init(log), es); t in s.tasks && s.tasks[t].Waiting?
    ensures var s := Run(Init(log), es);
      s.tasks[t].on in s.tasks
      && var target := s.tasks[s.tasks[t].on];
      (Step(s, Wake(t)) != s <==> target.Settled? || target.Returned?)
      && (Step(s, Wake(t)) != s ==> Step(s, Wake(t)).tasks[t] == Returned(target.outcome))
  {
    hide Run;
    Reached(log, es);
    var s := Run(Init(log), es);
    assert s.tasks[t] != Returned(Acked(None));
  }

  /** One uncontended delivery of caller `t`, answered with `o`. */
  function Delivery(t: nat, o: Outcome): seq<Event> {
    [Call(t), ReadLog(t), Prepare(t, None), Reply(t, o), ReadExisting(t), WriteLog(t), Finish(t)]
  }

  lemma {:induction false} RunConcat(s: State, es: seq<Event>, more: seq<Event>)
    ensures Run(s, es + more) == Run(Run(s, es), more)
    decreases |more|
  {
    if more == [] {
      assert es + more == es;
    } else {
      assert (es + more)[..|es + more| - 1] == es + more[..|more| - 1];
      RunConcat(s, es, more[..|more| - 1]);
    }
  }

  /**
   Nothing blocks a delivery that should happen: alone, on an undelivered log, the request goes out, its
   answer is recorded as one more attempt and the slot is free again.
   */
  lemma DeliveryAlone(s: State, t: nat, o: Outcome)
    requires s.inFlight.None? && t !in s.tasks && !IsDelivered(s.log)
    ensures var s' := Run(s, Delivery(t, o));
      && s'.acks == s.acks + (if o.Acked? then 1 else 0) && s'.staleResets == s.staleResets
      && s'.inFlight == None && s'.seen == s.seen
      && s'.tasks == s.tasks[t := Returned(o)] && s'.log.Some?
      && s'.log.value.attempts == Attempts(s.log) + 1
      && s'.log.value.status == (
           if o.Acked? then Delivered else if o.nonRetryable || Attempts(s.log) + 1 >= 5 then Failed else Pending)
      && s'.log.value.txId == (if o.Acked? && o.tx.Some? then o.tx else if s.log.Some? then s.log.value.txId else None)
  {
    SevenSteps(s, Delivery(t, o));
    PostsAlone(s, t);
    RecordsAlone(s.(tasks := s.tasks[t := Posting], inFlight := Some(t)), t, o);
    hide Step, Run;
    assert s.tasks[t := Posting][t := Returned(o)] == s.tasks[t := Returned(o)];
  }

  lemma PostsAlone(s: State, t: nat)
    requires s.inFlight.None? && t !in s.tasks && !IsDelivered(s.log)
    ensures Step(Step(Step(s, Call(t)), ReadLog(t)), Prepare(t, None)) == s.(tasks := s.tasks[t := Posting], inFlight := Some(t))
  {
    assert s.tasks[t := Started][t := Preparing][t := Posting] == s.tasks[t := Posting];
  }

  lemma RecordsAlone(s: State, t: nat, o: Outcome)
    requires s.inFlight == Some(t) && t in s.tasks && s.tasks[t].Posting?
    ensures Step(Step(Step(Step(s, Reply(t, o)), ReadExisting(t)), WriteLog(t)), Finish(t)) ==
      s.(tasks := s.tasks[t := Returned(o)], inFlight := None, acks := s.acks + (if o.Acked? then 1 else 0),
         log := Some(NextRecord(s.log, o)), written := s.written + 1)
  {
    var s2 := Step(Step(s, Reply(t, o)), ReadExisting(t));
    assert s2 == s.(tasks := s.tasks[t := Recording(o, s.log)], acks := s.acks + (if o.Acked? then 1 else 0));
    var s4 := Step(Step(s2, WriteLog(t)), Finish(t));
    assert s4.tasks == s.tasks[t := Returned(o)];
  }

  /** Deliveries one after another, by callers t, t + 1 and so on, each refused as listed. */
  function Refusals(t: nat, os: seq<Outcome>): seq<Event> {
    if os == [] then [] else Refusals(t, os[..|os| - 1]) + Delivery(t + |os| - 1, os[|os| - 1])
  }

  lemma RunNone(s: State)
    ensures Run(s, []) == s
  {
  }

  /**
   Refused n times in a row from an empty record, it has n attempts, and is pending exactly when n is less
   than five and the last refusal may be retried; so five of any kind leave it failed.
   */
  lemma {:induction false} RefusedInARow(s: State, t: nat, os: seq<Outcome>)
    requires s.inFlight.None? && s.log.None? && (forall u :: u in s.tasks ==> u < t)
    requires os != [] && forall o <- os :: o.Refused?
    ensures var s' := Run(s, Refusals(t, os));
      && s'.inFlight.None? && (forall u :: u in s'.tasks ==> u < t + |os|)
      && s'.log.Some? && s'.log.value.attempts == |os|
      && s'.log.value.status == if |os| < 5 && !os[|os| - 1].nonRetryable then Pending else Failed
    decreases |os|
  {
    hide Step, Run;
    assert Run(s, []) == s by { RunNone(s); }
    var n := |os| - 1;
    var before := Refusals(t, os[..n]);
    var s1 := Run(s, before);
    assert os[n] in os;
    if n > 0 {
      forall o | o in os[..n] ensures o in os {}
      RefusedInARow(s, t, os[..n]);
    }
    RunConcat(s, before, Delivery(t + n, os[n]));
    DeliveryAlone(s1, t + n, os[n]);
  }

  lemma SevenSteps(s: State, es: seq<Event>)
    requires |es| == 7
    ensures Run(s, es) == Step(Step(Step(Step(Step(Step(Step(s, es[0]), es[1]), es[2]), es[3]), es[4]), es[5]), es[6])
  {
    hide Step;
    assert es[..6][..5] == es[..5] && es[..5][..4] == es[..4] && es[..4][..3] == es[..3] && es[..3][..2] == es[..2] && es[..2][..1] == es[..1] && es[..1][..0] == [];
    assert Run(s, es[..1]) == Step(s, es[0]);
    assert Run(s, es[..2]) == Step(Run(s, es[..1]), es[1]);
    assert Run(s, es[..3]) == Step(Run(s, es[..2]), es[2]);
    assert Run(s, es[..4]) == Step(Run(s, es[..3]), es[3]);
    assert Run(s, es[..5]) == Step(Run(s, es[..4]), es[4]);
    assert Run(s, es[..6]) == Step(Run(s, es[..5]), es[5]);
  }

  /**
   The reset race is real: the scheduler reads a failed record, a delivery then succeeds, the scheduler
   resets the record it remembers, and a second delivery is acknowledged.
   */
  lemma StaleResetDeliversTwice()
    ensures var log := Some(Log(Failed, 5, None, true));
      FreshLog(log)
      && var ok := Acked(None);
         var s := Run(Init(log), [SchedulerReads] + Delivery(0, ok) + [SchedulerResets] + Delivery(1, ok));
         s.acks == 2 && s.staleResets == 1
  {
    var ok := Acked(None);
    var s0 := Init(Some(Log(Failed, 5, None, true)));
    RunConcat(s0, [SchedulerReads] + Delivery(0, ok) + [SchedulerResets], Delivery(1, ok));
    RunConcat(s0, [SchedulerReads] + Delivery(0, ok), [SchedulerResets]);
    RunConcat(s0, [SchedulerReads], Delivery(0, ok));
    var s1 := Run(s0, [SchedulerReads]);
    assert [SchedulerReads][..0] == [] && s1 == Step(s0, SchedulerReads);
    DeliveryAlone(s1, 0, ok);
    var s2 := Run(s1, Delivery(0, ok));
    var s3 := Run(s2, [SchedulerResets]);
    assert [SchedulerResets][..0] == [] && s3 == Step(s2, SchedulerResets);
    DeliveryAlone(s3, 1, ok);
  }

  /** A reset gives the record it read another five attempts, and keeps its id. */
  lemma ResetStartsOver(s: State)
    ensures var s' := Step(s, SchedulerResets);
      if s.seen.Some? && s.seen.value.status == Failed && s.seen.value.attempts >= 5 && s.seen.value.resettable
      then s'.log == Some(Log(Pending, 0, s.seen.value.txId, true)) else s'.log == s.log
  {
  }

  // ----- The module state, updated segment by segment -----

  class Deliverer {
    var log: Option<Log>
    var inFlight: Option<nat>
    var tasks: map<nat, Phase>
    var seen: Option<Log>
    ghost var acks: nat
    ghost var staleResets: nat
    ghost var base: nat
    ghost var written: nat
    ghost var overtaken: bool

    ghost function View(): State
      reads this
    {
      State(log, inFlight, tasks, seen, acks, staleResets, base, written, overtaken)
    }

    /** The synchronous head of a delivery: join the one in flight, or become it. */
    method DeliverRwaPackage(t: nat)
      requires t !in tasks
      modifies this
      ensures View() == Step(old(View()), Call(t))
    {
      if inFlight.Some? {
        tasks := tasks[t := Waiting(inFlight.value)];
      } else {
        tasks := tasks[t := Started];
        inFlight := Some(t);
      }
    }

    method CheckLog(t: nat)
      requires t in tasks && tasks[t].Started?
      modifies this
      ensures View() == Step(old(View()), ReadLog(t))
    {
      if log.Some? && log.value.status == Delivered {
        tasks := tasks[t := Settled(Acked(log.value.txId))];
      } else {
        tasks := tasks[t := Preparing];
      }
    }

    /** Another caller's promise resolves: return what it returned. */
    method AwaitOther(t: nat) returns (woken: bool)
      requires t in tasks && tasks[t].Waiting? && tasks[t].on in tasks
      modifies this
      ensures View() == Step(old(View()), Wake(t))
    {
      var target := tasks[tasks[t].on];
      woken := target.Settled? || target.Returned?;
      if woken { tasks := tasks[t := Returned(target.outcome)]; }
    }

    /** Manifest and payload are fetched, or the delivery fails before any request goes out. */
    method PreparePackage(t: nat, error: Option<Outcome>)
      requires t in tasks && tasks[t].Preparing? && (error.Some? ==> error.value.Refused?)
      modifies this
      ensures View() == Step(old(View()), Prepare(t, error))
    {
      tasks := tasks[t := if error.Some? then Replied(error.value) else Posting];
    }

    method ReceiveReply(t: nat, outcome: Outcome)
      requires t in tasks && tasks[t].Posting?
      modifies this
      ensures View() == Step(old(View()), Reply(t, outcome))
    {
      tasks := tasks[t := Replied(outcome)];
      if outcome.Acked? { acks := acks + 1; }
    }

    /** The scheduler's tick reads the record now and writes it back, reset, at a later step. */
    method ReadForReset()
      modifies this
      ensures View() == Step(old(View()), SchedulerReads)
    {
      seen := log;
    }

    method ResetFailed()
      modifies this
      ensures View() == Step(old(View()), SchedulerResets)
    {
      if seen.Some? && seen.value.status == Failed && seen.value.attempts >= MAX_RETRY_ATTEMPTS && seen.value.resettable {
        if IsDelivered(log) { staleResets := staleResets + 1; }
        log := Some(seen.value.(status := Pending, attempts := 0));
        base, written, overtaken := 0, 0, false;
      }
    }

    method MarkExhausted()
      modifies this
      ensures View() == Step(old(View()), RetryMarksFailed)
    {
      if seen.Some? && seen.value.status == Pending && seen.value.attempts >= MAX_RETRY_ATTEMPTS {
        log := Some(seen.value.(status := Failed));
      }
    }

    /** The first half of recording: look the existing record up. */
    method FindExisting(t: nat)
      requires t in tasks && tasks[t].Replied?
      modifies this
      ensures View() == Step(old(View()), ReadExisting(t))
    {
      tasks := tasks[t := Recording(tasks[t].outcome, log)];
    }

    /** The second half: write the record built from what was looked up. */
    method RecordDelivery(t: nat)
      requires t in tasks && tasks[t].Recording?
      modifies this
      ensures View() == Step(old(View()), WriteLog(t))
    {
      var existing, outcome := tasks[t].existing, tasks[t].outcome;
      var attempts, tx := 1, None;
      if existing.Some? {
        attempts := existing.value.attempts + 1;
        tx := existing.value.txId;
      }
      var status, resettable := Pending, false;
      if outcome.Acked? {
        status := Delivered;
        if outcome.tx.Some? { tx := outcome.tx; }
      } else {
        resettable := outcome.resettable;
        if outcome.nonRetryable || attempts >= MAX_RETRY_ATTEMPTS { status := Failed; }
      }
      written, overtaken := written + 1, overtaken || Attempts(existing) != Attempts(log);
      log := Some(Log(status, attempts, tx, resettable));
      tasks := tasks[t := Settled(outcome)];
    }

    /** `finally`: forget the promise, if it is still this caller's. */
    method Settle(t: nat)
      requires t in tasks && tasks[t].Settled?
      modifies this
      ensures View() == Step(old(View()), Finish(t))
    {
      tasks := tasks[t := Returned(tasks[t].outcome)];
      if inFlight == Some(t) { inFlight := None; }
    }
  }
}
