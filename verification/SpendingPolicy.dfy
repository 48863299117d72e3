/**
 Agent spending policies: rolling-window budgets enforced by check-and-reserve.

 The engine is modelled as the steps a request takes between two awaits, interleaved with every other
 request, with a clock that never runs backwards, and with rollbacks that hold no lock.  The ledger is
 the table in row order: inserting under an existing id removes that row and appends the new one.
 */
module SpendingPolicy {
  import opened Wrappers
  import Text
  import L = PromiseLock

  const DAY_MS: int := 24 * 60 * 60 * 1000

  datatype Window = Daily | Weekly | Monthly

  function Period(w: Window): (ms: int)
    ensures ms > 0
  {
    match w
    case Daily => DAY_MS
    case Weekly => 7 * DAY_MS
    case Monthly => 30 * DAY_MS
  }

  /** Absent, empty and unparsable limits are all None. */
  datatype Conditions = Conditions(
    allowedOperations: Option<seq<string>>,
    allowedAddresses: seq<string>,
    maxPerTransaction: Option<real>,
    limits: map<Window, real>)

  /** `amount` is None when the text does not parse. */
  datatype Request = Request(keyId: string, operation: string, amount: Option<real>, destination: string)

  datatype Entry = Entry(id: string, keyId: string, policy: string, operation: string,
                         amount: real, destination: string, timestamp: int)

  datatype Denial = NoKey | NoPolicyBound | PolicyMissing | OperationNotPermitted | AddressNotListed
    | InvalidAmount | ExceedsPerTransaction | ExceedsWindow(w: Window)

  datatype Usage = Usage(daily: real, weekly: real, monthly: real)

  function Spent(u: Usage, w: Window): real {
    match w
    case Daily => u.daily
    case Weekly => u.weekly
    case Monthly => u.monthly
  }

  // ----- Sums over the ledger -----

  /** Amounts of policy `p` stamped at `from` or later. */
  function SumFrom(rows: seq<Entry>, p: string, from: int): real {
    if rows == [] then 0.0
    else
      var e := rows[|rows| - 1];
      SumFrom(rows[..|rows| - 1], p, from) + (if e.policy == p && e.timestamp >= from then e.amount else 0.0)
  }

  /** Amounts of policy `p` stamped within the closed interval [from, to]. */
  function SumWithin(rows: seq<Entry>, p: string, from: int, to: int): real {
    if rows == [] then 0.0
    else
      var e := rows[|rows| - 1];
      SumWithin(rows[..|rows| - 1], p, from, to) + (if e.policy == p && from <= e.timestamp <= to then e.amount else 0.0)
  }

  function Remove(rows: seq<Entry>, id: string): seq<Entry> {
    if rows == [] then []
    else
      var e := rows[|rows| - 1];
      Remove(rows[..|rows| - 1], id) + (if e.id == id then [] else [e])
  }

  function Insert(rows: seq<Entry>, e: Entry): seq<Entry> {
    Remove(rows, e.id) + [e]
  }

  function OfPolicy(rows: seq<Entry>, p: string): seq<Entry> {
    if rows == [] then []
    else
      var e := rows[|rows| - 1];
      OfPolicy(rows[..|rows| - 1], p) + (if e.policy == p then [e] else [])
  }

  ghost predicate Positive(rows: seq<Entry>) {
    forall i :: 0 <= i < |rows| ==> rows[i].amount > 0.0
  }

  /** Usage of `p` as read at time `now`: ages are inclusive at the window's edge. */
  function UsageAt(rows: seq<Entry>, p: string, now: int): Usage {
    Usage(SumFrom(rows, p, now - Period(Daily)), SumFrom(rows, p, now - Period(Weekly)), SumFrom(rows, p, now - Period(Monthly)))
  }

  lemma {:induction false} AppendSums(rows: seq<Entry>, e: Entry, p: string, from: int, to: int)
    ensures SumFrom(rows + [e], p, from) == SumFrom(rows, p, from) + (if e.policy == p && e.timestamp >= from then e.amount else 0.0)
    ensures SumWithin(rows + [e], p, from, to) == SumWithin(rows, p, from, to) + (if e.policy == p && from <= e.timestamp <= to then e.amount else 0.0)
  {
    assert (rows + [e])[..|rows|] == rows;
  }

  /** Deleting never adds to a window: this is why rollbacks need no lock. */
  lemma {:induction false} RemoveLowersSums(rows: seq<Entry>, id: string, p: string, from: int, to: int)
    requires Positive(rows)
    ensures Positive(Remove(rows, id))
    ensures SumFrom(Remove(rows, id), p, from) <= SumFrom(rows, p, from)
    ensures SumWithin(Remove(rows, id), p, from, to) <= SumWithin(rows, p, from, to)
    decreases |rows|
  {
    if rows != [] {
      var init, e := rows[..|rows| - 1], rows[|rows| - 1];
      assert rows == init + [e];
      RemoveLowersSums(init, id, p, from, to);
      AppendSums(init, e, p, from, to);
      if e.id == id {
        assert Remove(rows, id) == Remove(init, id);
      } else {
        AppendSums(Remove(init, id), e, p, from, to);
      }
    }
  }

  lemma {:induction false} NarrowerSums(rows: seq<Entry>, p: string, from: int, from': int, to: int)
    requires Positive(rows) && from <= from'
    ensures SumFrom(rows, p, from') <= SumFrom(rows, p, from)
    ensures 0.0 <= SumWithin(rows, p, from', to) <= SumFrom(rows, p, from')
    decreases |rows|
  {
    if rows != [] { NarrowerSums(rows[..|rows| - 1], p, from, from', to); }
  }

  lemma {:induction false} OfPolicySums(rows: seq<Entry>, p: string, from: int)
    ensures SumFrom(OfPolicy(rows, p), p, from) == SumFrom(rows, p, from)
    decreases |rows|
  {
    if rows != [] {
      var init, e := rows[..|rows| - 1], rows[|rows| - 1];
      OfPolicySums(init, p, from);
      if e.policy == p {
        AppendSums(OfPolicy(init, p), e, p, from, from);
      } else {
        assert OfPolicy(rows, p) == OfPolicy(init, p);
      }
    }
  }

  // ----- The policy check -----

  predicate OperationPermitted(c: Conditions, r: Request) {
    c.allowedOperations.Some? ==> r.operation in c.allowedOperations.value
  }

  predicate AddressPermitted(c: Conditions, r: Request) {
    r.destination != "" && c.allowedAddresses != [] ==>
      exists i :: 0 <= i < |c.allowedAddresses| && Text.NormalAddress(c.allowedAddresses[i]) == Text.NormalAddress(r.destination)
  }

  /** What a policy asks of a request by itself, whatever has been spent. */
  predicate Acceptable(c: Conditions, r: Request) {
    && MayOperate(c, r) && MayReceive(c, r) && r.amount.Some? && r.amount.value > 0.0
    && (c.maxPerTransaction.Some? ==> r.amount.value <= c.maxPerTransaction.value)
  }

  predicate MayOperate(c: Conditions, r: Request) {
    c.allowedOperations.None? || exists i :: 0 <= i < |c.allowedOperations.value| && c.allowedOperations.value[i] == r.operation
  }

  /** Some listed address has the destination's very digits, but for the case of letters and a 0x prefix. */
  predicate MayReceive(c: Conditions, r: Request) {
    r.destination == "" || c.allowedAddresses == []
    || exists i :: 0 <= i < |c.allowedAddresses| && Text.SameAddress(c.allowedAddresses[i], r.destination)
  }

  lemma AddressPermittedIff(c: Conditions, r: Request)
    ensures AddressPermitted(c, r) <==> MayReceive(c, r)
  {
    hide Text.NormalAddress, Text.SameAddress;
    forall i | 0 <= i < |c.allowedAddresses|
      ensures Text.NormalAddress(c.allowedAddresses[i]) == Text.NormalAddress(r.destination) <==>
        Text.SameAddress(c.allowedAddresses[i], r.destination)
    {
      Text.AddressesAgree(c.allowedAddresses[i], r.destination);
    }
  }

  lemma PrecheckIff(c: Conditions, r: Request)
    ensures Precheck(c, r).None? <==> Acceptable(c, r)
  {
    AddressPermittedIff(c, r);
    assert OperationPermitted(c, r) <==> MayOperate(c, r);
  }

  /** The denial names what is wrong, and everything checked before that is right. */
  ghost predicate Justified(c: Conditions, u: Usage, r: Request, why: Denial) {
    match why
    case OperationNotPermitted => !MayOperate(c, r)
    case AddressNotListed => MayOperate(c, r) && !MayReceive(c, r)
    case InvalidAmount => MayOperate(c, r) && MayReceive(c, r) && (r.amount.None? || r.amount.value <= 0.0)
    case ExceedsPerTransaction =>
      && MayOperate(c, r) && MayReceive(c, r) && r.amount.Some? && r.amount.value > 0.0
      && c.maxPerTransaction.Some? && r.amount.value > c.maxPerTransaction.value
    case ExceedsWindow(v) =>
      && Acceptable(c, r) && v in c.limits
      && (v == Daily ==> u.daily + r.amount.value > c.limits[v])
      && (v == Weekly ==> u.weekly + r.amount.value > c.limits[v])
      && (v == Monthly ==> u.monthly + r.amount.value > c.limits[v])
      && (v != Daily && Daily in c.limits ==> u.daily + r.amount.value <= c.limits[Daily])
      && (v == Monthly && Weekly in c.limits ==> u.weekly + r.amount.value <= c.limits[Weekly])
    case _ => false
  }

  /** Nothing beyond the three limits is asked of what has been spent. */
  predicate WithinLimits(c: Conditions, u: Usage, amount: real) {
    && (Daily in c.limits ==> u.daily + amount <= c.limits[Daily])
    && (Weekly in c.limits ==> u.weekly + amount <= c.limits[Weekly])
    && (Monthly in c.limits ==> u.monthly + amount <= c.limits[Monthly])
  }

  /** Everything that is checked before the ledger is read, in the order it is checked. */
  function Precheck(c: Conditions, r: Request): Option<Denial> {
    if !OperationPermitted(c, r) then Some(OperationNotPermitted)
    else if !AddressPermitted(c, r) then Some(AddressNotListed)
    else if r.amount.None? || r.amount.value <= 0.0 then Some(InvalidAmount)
    else if c.maxPerTransaction.Some? && r.amount.value > c.maxPerTransaction.value then Some(ExceedsPerTransaction)
    else None
  }

  predicate Over(c: Conditions, u: Usage, amount: real, w: Window) {
    w in c.limits && Spent(u, w) + amount > c.limits[w]
  }

  function BudgetCheck(c: Conditions, u: Usage, amount: real): Option<Denial> {
    if Over(c, u, amount, Daily) then Some(ExceedsWindow(Daily))
    else if Over(c, u, amount, Weekly) then Some(ExceedsWindow(Weekly))
    else if Over(c, u, amount, Monthly) then Some(ExceedsWindow(Monthly))
    else None
  }

  /** One pass over the entries keeps all three window totals. */
  method GetBudgetUsage(entries: seq<Entry>, p: string, now: int) returns (u: Usage)
    requires forall i :: 0 <= i < |entries| ==> entries[i].policy == p
    ensures u == UsageAt(entries, p, now)
    ensures u.daily == SumFrom(entries, p, now - 86_400_000)
    ensures u.weekly == SumFrom(entries, p, now - 604_800_000)
    ensures u.monthly == SumFrom(entries, p, now - 2_592_000_000)
  {
    var daily, weekly, monthly := 0.0, 0.0, 0.0;
    var i := 0;
    while i < |entries|
      invariant 0 <= i <= |entries|
      invariant daily == SumFrom(entries[..i], p, now - Period(Daily))
      invariant weekly == SumFrom(entries[..i], p, now - Period(Weekly))
      invariant monthly == SumFrom(entries[..i], p, now - Period(Monthly))
    {
      var age := now - entries[i].timestamp;
      if age <= Period(Daily) { daily := daily + entries[i].amount; }
      if age <= Period(Weekly) { weekly := weekly + entries[i].amount; }
      if age <= Period(Monthly) { monthly := monthly + entries[i].amount; }
      assert entries[..i + 1][..i] == entries[..i];
      i := i + 1;
    }
    assert entries[..i] == entries;
    u := Usage(daily, weekly, monthly);
  }

  /** The address scan and the loop over the three windows, with their early exits. */
  method CheckPolicy(c: Conditions, r: Request, u: Usage) returns (denial: Option<Denial>)
    ensures denial == (if Precheck(c, r).Some? then Precheck(c, r) else BudgetCheck(c, u, r.amount.value))
    ensures denial.None? <==> Acceptable(c, r) && WithinLimits(c, u, r.amount.value)
    ensures denial.Some? ==> Justified(c, u, r, denial.value)
  {
    PrecheckIff(c, r);
    AddressPermittedIff(c, r);
    hide MayReceive, Text.NormalAddress;
    if c.allowedOperations.Some? && r.operation !in c.allowedOperations.value {
      return Some(OperationNotPermitted);
    }
    if r.destination != "" && |c.allowedAddresses| > 0 {
      var allowed, i := false, 0;
      while i < |c.allowedAddresses| && !allowed
        invariant 0 <= i <= |c.allowedAddresses|
        invariant allowed <==> exists k :: 0 <= k < i && Text.NormalAddress(c.allowedAddresses[k]) == Text.NormalAddress(r.destination)
      {
        allowed := Text.NormalAddress(c.allowedAddresses[i]) == Text.NormalAddress(r.destination);
        i := i + 1;
      }
      if !allowed { return Some(AddressNotListed); }
    }
    if r.amount.None? || r.amount.value <= 0.0 { return Some(InvalidAmount); }
    if c.maxPerTransaction.Some? && r.amount.value > c.maxPerTransaction.value {
      return Some(ExceedsPerTransaction);
    }
    var windows := [Daily, Weekly, Monthly];
    for k := 0 to 3
      invariant forall j :: 0 <= j < k ==> !Over(c, u, r.amount.value, windows[j])
    {
      assert forall j :: 0 <= j < k ==> !Over(c, u, r.amount.value, windows[j]);
      assert (k > 0 ==> !Over(c, u, r.amount.value, windows[0])) && (k > 1 ==> !Over(c, u, r.amount.value, windows[1]));
      if windows[k] in c.limits && Spent(u, windows[k]) + r.amount.value > c.limits[windows[k]] {
        return Some(ExceedsWindow(windows[k]));
      }
    }
    assert !Over(c, u, r.amount.value, windows[0]) && !Over(c, u, r.amount.value, windows[1]) && !Over(c, u, r.amount.value, windows[2]);
    return None;
  }

  // ----- The interleaved engine -----

  /** Key bindings and policy conditions, fixed for the run. */
  datatype Setup = Setup(keys: map<string, Option<string>>, policies: map<string, Conditions>)

  datatype Verdict = Allowed(entryId: string) | Denied(why: Denial)

  /** Where a request is suspended. */
  datatype Phase =
    | Queued                                     // awaiting the policy lock
    | Granted                                    // lock held, nothing read
    | Fetched(entries: seq<Entry>)               // the policy's rows as read from the table
    | Tallied(usage: Usage, readAt: int)         // totals computed at clock value readAt
    | Approved(readAt: int)                      // checkPolicy returned `allowed`
    | Stamped(entry: Entry, readAt: int)         // entry built, its timestamp fixed, row not yet written
    | Leaving(verdict: Verdict)                  // about to run `finally`
    | Done(verdict: Verdict)

  datatype Task = Task(req: Request, policy: string, ticket: nat, phase: Phase)

  datatype State = State(clock: int, rows: seq<Entry>, locks: map<string, L.Queue>, tasks: map<nat, Task>)

  function Init(clock: int): State {
    State(clock, [], map[], map[])
  }

  function LockOf(s: State, p: string): L.Queue {
    if p in s.locks then s.locks[p] else L.Empty(L.TailJoins)
  }

  datatype Event =
    | Tick(to: int)
    | Call(t: nat, req: Request)
    | Enter(t: nat)
    | Fetch(t: nat)
    | Tally(t: nat)
    | Decide(t: nat)
    | Stamp(t: nat, id: string)
    | Write(t: nat)
    | Leave(t: nat)
    | Rollback(id: string)

  function Move(s: State, t: nat, phase: Phase): State
    requires t in s.tasks
  {
    s.(tasks := s.tasks[t := s.tasks[t].(phase := phase)])
  }

  /** One await-to-await segment.  An event that is not possible in `s` leaves `s` unchanged. */
  function Step(w: Setup, s: State, e: Event): State {
    match e
    case Tick(to) => if to >= s.clock then s.(clock := to) else s
    case Rollback(id) => s.(rows := Remove(s.rows, id))
    case Call(t, req) =>
      if t in s.tasks then s
      else if req.keyId !in w.keys then s.(tasks := s.tasks[t := Task(req, "", 0, Done(Denied(NoKey)))])
      else if w.keys[req.keyId].None? then s.(tasks := s.tasks[t := Task(req, "", 0, Done(Denied(NoPolicyBound)))])
      else
        var p := w.keys[req.keyId].value;
        var q := LockOf(s, p);
        s.(locks := s.locks[p := L.Acquire(q)], tasks := s.tasks[t := Task(req, p, |q.tickets|, Queued)])
    case Enter(t) =>
      if t !in s.tasks || !s.tasks[t].phase.Queued? then s
      else
        var k := s.tasks[t];
        var q := LockOf(s, k.policy);
        if L.CanGrant(q, k.ticket)
        then Move(s.(locks := s.locks[k.policy := L.Grant(q, k.ticket)]), t, Granted)
        else s
    case Fetch(t) =>
      if t !in s.tasks || !s.tasks[t].phase.Granted? then s
      else
        var k := s.tasks[t];
        if k.policy !in w.policies then Move(s, t, Leaving(Denied(PolicyMissing)))
        else
          var why := Precheck(w.policies[k.policy], k.req);
          if why.Some? then Move(s, t, Leaving(Denied(why.value)))
          else Move(s, t, Fetched(OfPolicy(s.rows, k.policy)))
    case Tally(t) =>
      if t !in s.tasks || !s.tasks[t].phase.Fetched? then s
      else Move(s, t, Tallied(UsageAt(s.tasks[t].phase.entries, s.tasks[t].policy, s.clock), s.clock))
    case Decide(t) =>
      if t !in s.tasks || !s.tasks[t].phase.Tallied? || s.tasks[t].policy !in w.policies || s.tasks[t].req.amount.None? then s
      else
        var k := s.tasks[t];
        var why := BudgetCheck(w.policies[k.policy], k.phase.usage, k.req.amount.value);
        if why.Some? then Move(s, t, Leaving(Denied(why.value))) else Move(s, t, Approved(k.phase.readAt))
    case Stamp(t, id) =>
      if t !in s.tasks || !s.tasks[t].phase.Approved? || s.tasks[t].req.amount.None? then s
      else
        var k := s.tasks[t];
        Move(s, t, Stamped(Entry(id, k.req.keyId, k.policy, k.req.operation, k.req.amount.value, k.req.destination, s.clock), k.phase.readAt))
    case Write(t) =>
      if t !in s.tasks || !s.tasks[t].phase.Stamped? then s
      else Move(s.(rows := Insert(s.rows, s.tasks[t].phase.entry)), t, Leaving(Allowed(s.tasks[t].phase.entry.id)))
    case Leave(t) =>
      if t !in s.tasks || !s.tasks[t].phase.Leaving? then s
      else
        var k := s.tasks[t];
        Move(s.(locks := s.locks[k.policy := L.Release(LockOf(s, k.policy), k.ticket)]), t, Done(k.phase.verdict))
  }

  function Run(w: Setup, s: State, es: seq<Event>): State {
    if es == [] then s else Step(w, Run(w, s, es[..|es| - 1]), es[|es| - 1])
  }

  predicate Inside(p: Phase) {
    !p.Queued? && !p.Done?
  }

  /** What a lock holder knows about the ledger, however it has been rolled back meanwhile. */
  ghost predicate Informed(w: Setup, s: State, k: Task) {
    match k.phase
    case Fetched(entries) =>
      && Qualified(w, k)
      && (forall from :: SumFrom(s.rows, k.policy, from) <= SumFrom(entries, k.policy, from))
    case Tallied(u, readAt) =>
      && Qualified(w, k) && readAt <= s.clock
      && (forall v: Window :: SumFrom(s.rows, k.policy, readAt - Period(v)) <= Spent(u, v))
    case Approved(readAt) =>
      Qualified(w, k) && readAt <= s.clock && Room(w, s, k, readAt)
    case Stamped(e, readAt) =>
      && Qualified(w, k) && readAt <= e.timestamp && Room(w, s, k, readAt)
      && e.policy == k.policy && e.amount == k.req.amount.value
    case _ => true
  }

  predicate Qualified(w: Setup, k: Task) {
    k.policy in w.policies && k.req.amount.Some? && k.req.amount.value > 0.0
  }

  /** The request still fits in every window that reaches back from `readAt`. */
  ghost predicate Room(w: Setup, s: State, k: Task, readAt: int)
    requires Qualified(w, k)
  {
    forall v: Window :: v in w.policies[k.policy].limits ==>
      SumFrom(s.rows, k.policy, readAt - Period(v)) + k.req.amount.value <= w.policies[k.policy].limits[v]
  }

  ghost predicate TaskOk(w: Setup, s: State, t: nat)
    requires t in s.tasks
  {
    var k := s.tasks[t];
    && (!k.phase.Done? ==> k.policy in s.locks && k.ticket < |s.locks[k.policy].tickets|)
    && (k.phase.Queued? ==> !s.locks[k.policy].tickets[k.ticket].granted)
    && (Inside(k.phase) ==> L.Holding(s.locks[k.policy], k.ticket))
    && Informed(w, s, k)
  }

  ghost predicate WindowOk(w: Setup, rows: seq<Entry>, p: string, v: Window, from: int) {
    p in w.policies && v in w.policies[p].limits ==>
      SumWithin(rows, p, from, from + Period(v)) <= Cap(w.policies[p].limits[v])
  }

  /** No window of any policy with a limit has ever been overspent. */
  ghost predicate Safe(w: Setup, rows: seq<Entry>) {
    forall p, v, from :: WindowOk(w, rows, p, v, from)
  }

  /** A negative limit admits nothing, so nothing is ever spent under it. */
  function Cap(limit: real): real {
    if limit < 0.0 then 0.0 else limit
  }

  predicate SameQueue(k: Task, k': Task) {
    !k.phase.Done? && !k'.phase.Done? && k.policy == k'.policy
  }

  ghost predicate TasksOk(w: Setup, s: State) {
    forall t {:trigger TaskOk(w, s, t)} :: t in s.tasks ==> TaskOk(w, s, t)
  }

  ghost predicate LocksOk(locks: map<string, L.Queue>) {
    forall p :: p in locks ==> L.Inv(locks[p])
  }

  /** Tasks of one policy wait on different tickets. */
  ghost predicate Distinct(tasks: map<nat, Task>) {
    forall t, t' :: t in tasks && t' in tasks && t != t' && SameQueue(tasks[t], tasks[t']) ==>
      tasks[t].ticket != tasks[t'].ticket
  }

  ghost predicate Inv(w: Setup, s: State) {
    Positive(s.rows) && LocksOk(s.locks) && TasksOk(w, s) && Distinct(s.tasks) && Safe(w, s.rows)
  }

  // ----- Every step keeps the invariant -----

  /** Time passing and rows disappearing never invalidate what a holder knows. */
  lemma InformedStays(w: Setup, s: State, s': State, k: Task)
    requires Informed(w, s, k) && s.clock <= s'.clock
    requires forall from :: SumFrom(s'.rows, k.policy, from) <= SumFrom(s.rows, k.policy, from)
    ensures Informed(w, s', k)
  {
    if k.phase.Fetched? {
      forall from ensures SumFrom(s'.rows, k.policy, from) <= SumFrom(k.phase.entries, k.policy, from) {
        assert SumFrom(s'.rows, k.policy, from) <= SumFrom(s.rows, k.policy, from);
      }
    }
  }

  lemma TickKeepsInv(w: Setup, s: State, to: int)
    requires Inv(w, s) && to >= s.clock
    ensures Inv(w, s.(clock := to))
  {
    var s' := s.(clock := to);
    forall t | t in s'.tasks ensures TaskOk(w, s', t) {
      assert TaskOk(w, s, t);
      InformedStays(w, s, s', s.tasks[t]);
    }
  }

  lemma RemoveKeepsSafe(w: Setup, rows: seq<Entry>, id: string)
    requires Positive(rows) && Safe(w, rows)
    ensures Safe(w, Remove(rows, id))
  {
    forall p, v, from ensures WindowOk(w, Remove(rows, id), p, v, from) {
      assert WindowOk(w, rows, p, v, from);
      RemoveLowersSums(rows, id, p, from, from + Period(v));
    }
  }

  lemma RollbackKeepsInv(w: Setup, s: State, id: string)
    requires Inv(w, s)
    ensures Inv(w, s.(rows := Remove(s.rows, id)))
  {
    var s' := s.(rows := Remove(s.rows, id));
    RemoveLowersSums(s.rows, id, "", 0, 0);
    RemoveKeepsSafe(w, s.rows, id);
    forall t | t in s'.tasks ensures TaskOk(w, s', t) {
      assert TaskOk(w, s, t);
      forall from ensures SumFrom(s'.rows, s.tasks[t].policy, from) <= SumFrom(s.rows, s.tasks[t].policy, from) {
        RemoveLowersSums(s.rows, id, s.tasks[t].policy, from, from);
      }
      InformedStays(w, s, s', s.tasks[t]);
    }
  }

  /** Replacing one lock by a later state of itself keeps what every other task relies on. */
  lemma LockStepKeepsTask(w: Setup, s: State, s': State, p: string, e: L.Event, t: nat)
    requires Inv(w, s) && t in s.tasks && TaskOk(w, s, t)
    requires s'.rows == s.rows && s'.clock == s.clock && t in s'.tasks && s'.tasks[t] == s.tasks[t]
    requires s'.locks == s.locks[p := L.Step(LockOf(s, p), e)]
    requires !s.tasks[t].phase.Done? && s.tasks[t].policy == p ==> e != L.EvGrant(s.tasks[t].ticket) && e != L.EvRelease(s.tasks[t].ticket)
    ensures TaskOk(w, s', t)
  {
    var k := s.tasks[t];
    if !k.phase.Done? && k.policy == p {
      L.ReleasedAfter(s.locks[p], e, k.ticket);
    }
    InformedStays(w, s, s', k);
  }

  lemma LocksStayOk(locks: map<string, L.Queue>, p: string, q: L.Queue, e: L.Event)
    requires LocksOk(locks) && L.Inv(q)
    ensures LocksOk(locks[p := L.Step(q, e)])
  {
    L.StepKeepsInv(q, e);
  }

  lemma LockOfOk(s: State, p: string)
    requires LocksOk(s.locks)
    ensures L.Inv(LockOf(s, p))
  {
  }

  lemma CallKeepsInv(w: Setup, s: State, t: nat, req: Request)
    requires Inv(w, s)
    ensures Inv(w, Step(w, s, Call(t, req)))
  {
    hide L.Inv;
    var s' := Step(w, s, Call(t, req));
    if t !in s.tasks {
      var k := s'.tasks[t];
      if k.phase.Queued? {
        LockOfOk(s, k.policy);
        LocksStayOk(s.locks, k.policy, LockOf(s, k.policy), L.EvAcquire);
        EnqueueKeepsDistinct(w, s, t, k);
      }
      forall t' | t' in s'.tasks ensures TaskOk(w, s', t') {
        if t' != t {
          assert TaskOk(w, s, t');
          if k.phase.Queued? {
            LockStepKeepsTask(w, s, s', k.policy, L.EvAcquire, t');
          } else {
            InformedStays(w, s, s', s.tasks[t']);
          }
        }
      }
    }
  }

  lemma EnqueueKeepsDistinct(w: Setup, s: State, t: nat, k: Task)
    requires TasksOk(w, s) && Distinct(s.tasks) && t !in s.tasks
    requires k.ticket == |LockOf(s, k.policy).tickets|
    ensures Distinct(s.tasks[t := k])
  {
    forall t' | t' in s.tasks && SameQueue(s.tasks[t'], k) ensures s.tasks[t'].ticket != k.ticket {
      assert TaskOk(w, s, t');
    }
  }

  /** Taking or leaving the lock: only the task itself depends on its own ticket. */
  lemma LockMoveKeepsOthers(w: Setup, s: State, t: nat, t': nat, e: L.Event, phase: Phase)
    requires Inv(w, s) && t in s.tasks && !s.tasks[t].phase.Done? && t' in s.tasks && t' != t
    requires e == L.EvGrant(s.tasks[t].ticket) || e == L.EvRelease(s.tasks[t].ticket)
    ensures TaskOk(w, Move(s.(locks := s.locks[s.tasks[t].policy := L.Step(LockOf(s, s.tasks[t].policy), e)]), t, phase), t')
  {
    assert TaskOk(w, s, t');
    assert SameQueue(s.tasks[t'], s.tasks[t]) ==> s.tasks[t].ticket != s.tasks[t'].ticket;
    var s' := Move(s.(locks := s.locks[s.tasks[t].policy := L.Step(LockOf(s, s.tasks[t].policy), e)]), t, phase);
    LockStepKeepsTask(w, s, s', s.tasks[t].policy, e, t');
  }

  lemma EnterKeepsInv(w: Setup, s: State, t: nat)
    requires Inv(w, s)
    ensures Inv(w, Step(w, s, Enter(t)))
  {
    if t in s.tasks && s.tasks[t].phase.Queued? && L.CanGrant(LockOf(s, s.tasks[t].policy), s.tasks[t].ticket) {
      var k := s.tasks[t];
      var s' := Step(w, s, Enter(t));
      LockOfOk(s, k.policy);
      LocksStayOk(s.locks, k.policy, LockOf(s, k.policy), L.EvGrant(k.ticket));
      forall t' | t' in s'.tasks ensures TaskOk(w, s', t') {
        if t' != t {
          LockMoveKeepsOthers(w, s, t, t', L.EvGrant(k.ticket), Granted);
        } else {
          EnteredHolds(w, s, t);
        }
      }
    }
  }

  lemma EnteredHolds(w: Setup, s: State, t: nat)
    requires Inv(w, s) && t in s.tasks && s.tasks[t].phase.Queued?
    requires L.CanGrant(LockOf(s, s.tasks[t].policy), s.tasks[t].ticket)
    ensures TaskOk(w, Step(w, s, Enter(t)), t)
  {
    assert TaskOk(w, s, t);
    var q := LockOf(s, s.tasks[t].policy);
    LockOfOk(s, s.tasks[t].policy);
    assert L.InOrder(q, s.tasks[t].ticket);
    L.ReleasedAfter(q, L.EvGrant(s.tasks[t].ticket), s.tasks[t].ticket);
  }

  lemma LeaveKeepsInv(w: Setup, s: State, t: nat)
    requires Inv(w, s)
    ensures Inv(w, Step(w, s, Leave(t)))
  {
    hide L.Inv, L.Release, L.Holding, SumFrom, Safe, Positive;
    if t in s.tasks && s.tasks[t].phase.Leaving? {
      var k := s.tasks[t];
      var s' := Step(w, s, Leave(t));
      LockOfOk(s, k.policy);
      LocksStayOk(s.locks, k.policy, LockOf(s, k.policy), L.EvRelease(k.ticket));
      forall t' | t' in s'.tasks ensures TaskOk(w, s', t') {
        if t' != t { LockMoveKeepsOthers(w, s, t, t', L.EvRelease(k.ticket), Done(k.phase.verdict)); }
      }
    }
  }

  /** A holder that only moves on, without touching the table, keeps the invariant. */
  lemma MoveKeepsInv(w: Setup, s: State, t: nat, phase: Phase)
    requires Inv(w, s) && t in s.tasks && Inside(s.tasks[t].phase) && Inside(phase)
    requires Informed(w, s, s.tasks[t].(phase := phase))
    ensures Inv(w, Move(s, t, phase))
  {
    var s' := Move(s, t, phase);
    assert TaskOk(w, s, t);
    forall t' | t' in s'.tasks ensures TaskOk(w, s', t') {
      assert TaskOk(w, s, t');
      if t' != t { InformedStays(w, s, s', s.tasks[t']); } else { InformedStays(w, s, s', s'.tasks[t]); }
    }
  }

  lemma FetchKeepsInv(w: Setup, s: State, t: nat)
    requires Inv(w, s)
    ensures Inv(w, Step(w, s, Fetch(t)))
  {
    if t in s.tasks && s.tasks[t].phase.Granted? {
      var k := s.tasks[t];
      forall from ensures SumFrom(s.rows, k.policy, from) <= SumFrom(OfPolicy(s.rows, k.policy), k.policy, from) {
        OfPolicySums(s.rows, k.policy, from);
      }
      MoveKeepsInv(w, s, t, Step(w, s, Fetch(t)).tasks[t].phase);
    }
  }

  lemma TallyKeepsInv(w: Setup, s: State, t: nat)
    requires Inv(w, s)
    ensures Inv(w, Step(w, s, Tally(t)))
  {
    if t in s.tasks && s.tasks[t].phase.Fetched? {
      assert TaskOk(w, s, t);
      var phase := Step(w, s, Tally(t)).tasks[t].phase;
      forall v: Window ensures SumFrom(s.rows, s.tasks[t].policy, phase.readAt - Period(v)) <= Spent(phase.usage, v) {
        match v case Daily => case Weekly => case Monthly =>
      }
      MoveKeepsInv(w, s, t, phase);
    }
  }

  lemma DecideKeepsInv(w: Setup, s: State, t: nat)
    requires Inv(w, s)
    ensures Inv(w, Step(w, s, Decide(t)))
  {
    if Step(w, s, Decide(t)) != s {
      var k := s.tasks[t];
      assert TaskOk(w, s, t);
      var phase := Step(w, s, Decide(t)).tasks[t].phase;
      if phase.Approved? {
        forall v: Window | v in w.policies[k.policy].limits
          ensures SumFrom(s.rows, k.policy, phase.readAt - Period(v)) + k.req.amount.value <= w.policies[k.policy].limits[v]
        {
          assert !Over(w.policies[k.policy], k.phase.usage, k.req.amount.value, v) by {
            match v case Daily => case Weekly => case Monthly =>
          }
        }
      }
      MoveKeepsInv(w, s, t, phase);
    }
  }

  lemma StampKeepsInv(w: Setup, s: State, t: nat, id: string)
    requires Inv(w, s)
    ensures Inv(w, Step(w, s, Stamp(t, id)))
  {
    if t in s.tasks && s.tasks[t].phase.Approved? {
      assert TaskOk(w, s, t);
      MoveKeepsInv(w, s, t, Step(w, s, Stamp(t, id)).tasks[t].phase);
    }
  }

  /** The row is stamped later than the totals were read, so any window holding it reaches back no further. */
  lemma WriteKeepsSafe(w: Setup, s: State, t: nat)
    requires Inv(w, s) && t in s.tasks && s.tasks[t].phase.Stamped?
    ensures Positive(Insert(s.rows, s.tasks[t].phase.entry)) && Safe(w, Insert(s.rows, s.tasks[t].phase.entry))
  {
    assert TaskOk(w, s, t);
    var k := s.tasks[t];
    var e := k.phase.entry;
    var rest := Remove(s.rows, e.id);
    RemoveLowersSums(s.rows, e.id, "", 0, 0);
    RemoveKeepsSafe(w, s.rows, e.id);
    forall p, v, from ensures WindowOk(w, rest + [e], p, v, from) {
      assert WindowOk(w, rest, p, v, from);
      AppendSums(rest, e, p, from, from + Period(v));
      if e.policy == p && from <= e.timestamp <= from + Period(v) && v in w.policies[p].limits {
        WriteFits(w, s, k, e, v, from);
      }
    }
  }

  lemma WriteFits(w: Setup, s: State, k: Task, e: Entry, v: Window, from: int)
    requires Positive(s.rows) && k.phase.Stamped? && k.phase.entry == e && Informed(w, s, k)
    requires v in w.policies[k.policy].limits && e.timestamp <= from + Period(v)
    ensures SumWithin(Remove(s.rows, e.id), k.policy, from, from + Period(v)) + e.amount <= w.policies[k.policy].limits[v]
  {
    var rest := Remove(s.rows, e.id);
    var back := k.phase.readAt - Period(v);
    RemoveLowersSums(s.rows, e.id, k.policy, back, from);
    NarrowerSums(rest, k.policy, from, from, from + Period(v));
    NarrowerSums(rest, k.policy, back, from, from + Period(v));
    assert SumFrom(s.rows, k.policy, back) + k.req.amount.value <= w.policies[k.policy].limits[v];
  }

  lemma WriteKeepsInv(w: Setup, s: State, t: nat)
    requires Inv(w, s)
    ensures Inv(w, Step(w, s, Write(t)))
  {
    if t in s.tasks && s.tasks[t].phase.Stamped? {
      WriteKeepsSafe(w, s, t);
      var s' := Step(w, s, Write(t));
      var e := s.tasks[t].phase.entry;
      assert TaskOk(w, s, t);
      forall t' | t' in s'.tasks ensures TaskOk(w, s', t') {
        assert TaskOk(w, s, t');
        if t' != t {
          WriteSparesOthers(w, s, t, t');
          InformedStaysInside(w, s, s', s.tasks[t']);
        }
      }
    }
  }

  /** While one holder of a policy writes, no other task of that policy is inside. */
  lemma WriteSparesOthers(w: Setup, s: State, t: nat, t': nat)
    requires Inv(w, s) && t in s.tasks && t' in s.tasks && t != t' && s.tasks[t].phase.Stamped?
    ensures Inside(s.tasks[t'].phase) ==>
      forall from :: SumFrom(Insert(s.rows, s.tasks[t].phase.entry), s.tasks[t'].policy, from) <= SumFrom(s.rows, s.tasks[t'].policy, from)
  {
    assert TaskOk(w, s, t) && TaskOk(w, s, t');
    var k, k', e := s.tasks[t], s.tasks[t'], s.tasks[t].phase.entry;
    if Inside(k'.phase) {
      if k.policy == k'.policy {
        L.HoldersAgree(s.locks[k.policy], k.ticket, k'.ticket);
        assert SameQueue(k, k');
        assert false;
      }
      forall from ensures SumFrom(Insert(s.rows, e), k'.policy, from) <= SumFrom(s.rows, k'.policy, from) {
        AppendSums(Remove(s.rows, e.id), e, k'.policy, from, from);
        RemoveLowersSums(s.rows, e.id, k'.policy, from, from);
      }
    }
  }

  lemma InformedStaysInside(w: Setup, s: State, s': State, k: Task)
    requires Informed(w, s, k) && s.clock <= s'.clock
    requires Inside(k.phase) ==> forall from :: SumFrom(s'.rows, k.policy, from) <= SumFrom(s.rows, k.policy, from)
    ensures Informed(w, s', k)
  {
    if Inside(k.phase) { InformedStays(w, s, s', k); }
  }

  lemma StepKeepsInv(w: Setup, s: State, e: Event)
    requires Inv(w, s)
    ensures Inv(w, Step(w, s, e))
  {
    match e
    case Tick(to) => if to >= s.clock { TickKeepsInv(w, s, to); }
    case Rollback(id) => RollbackKeepsInv(w, s, id);
    case Call(t, req) => CallKeepsInv(w, s, t, req);
    case Enter(t) => EnterKeepsInv(w, s, t);
    case Fetch(t) => FetchKeepsInv(w, s, t);
    case Tally(t) => TallyKeepsInv(w, s, t);
    case Decide(t) => DecideKeepsInv(w, s, t);
    case Stamp(t, id) => StampKeepsInv(w, s, t, id);
    case Write(t) => WriteKeepsInv(w, s, t);
    case Leave(t) => LeaveKeepsInv(w, s, t);
  }

  lemma {:induction false} RunKeepsInv(w: Setup, s: State, es: seq<Event>)
    requires Inv(w, s)
    ensures Inv(w, Run(w, s, es))
    decreases |es|
  {
    if es != [] {
      RunKeepsInv(w, s, es[..|es| - 1]);
      StepKeepsInv(w, Run(w, s, es[..|es| - 1]), es[|es| - 1]);
    }
  }

  // ----- Main results -----

  /**
   Sliding-window safety: whatever the interleaving of requests, rollbacks and clock advances, the
   surviving entries of a policy stamped in ANY closed interval of 24 hours, 7 days or 30 days sum to at
   most that window's limit (and to nothing under a negative one).
   */
  lemma SlidingWindowSafety(w: Setup, clock: int, es: seq<Event>, p: string, v: Window, from: int)
    requires p in w.policies && v in w.policies[p].limits
    ensures var rows, limit := Run(w, Init(clock), es).rows, w.policies[p].limits[v];
      && (v == Daily ==> SumWithin(rows, p, from, from + 86_400_000) <= if limit < 0.0 then 0.0 else limit)
      && (v == Weekly ==> SumWithin(rows, p, from, from + 604_800_000) <= if limit < 0.0 then 0.0 else limit)
      && (v == Monthly ==> SumWithin(rows, p, from, from + 2_592_000_000) <= if limit < 0.0 then 0.0 else limit)
  {
    hide Run, SumWithin;
    InitInv(w, clock);
    RunKeepsInv(w, Init(clock), es);
    assert WindowOk(w, Run(w, Init(clock), es).rows, p, v, from);
  }

  lemma InitInv(w: Setup, clock: int)
    ensures Inv(w, Init(clock))
  {
    forall p, v, from ensures WindowOk(w, [], p, v, from) { }
  }

  /** No two requests of one policy are ever between their check and their write. */
  lemma OneInsidePerPolicy(w: Setup, clock: int, es: seq<Event>, t: nat, t': nat)
    requires var s := Run(w, Init(clock), es);
      t in s.tasks && t' in s.tasks && Inside(s.tasks[t].phase) && Inside(s.tasks[t'].phase) && s.tasks[t].policy == s.tasks[t'].policy
    ensures t == t'
  {
    InitInv(w, clock);
    RunKeepsInv(w, Init(clock), es);
    var s := Run(w, Init(clock), es);
    assert TaskOk(w, s, t) && TaskOk(w, s, t');
    L.HoldersAgree(s.locks[s.tasks[t].policy], s.tasks[t].ticket, s.tasks[t'].ticket);
    assert SameQueue(s.tasks[t], s.tasks[t']);
  }

  // ----- Where rows and verdicts come from -----

  /** Whose request it is, and what may still come of it. */
  ghost predicate Honest(w: Setup, k: Task) {
    if k.req.keyId !in w.keys then k.phase == Done(Denied(NoKey))
    else if w.keys[k.req.keyId].None? then k.phase == Done(Denied(NoPolicyBound))
    else
      && k.policy == w.keys[k.req.keyId].value
      && match k.phase
         case Queued => true
         case Granted => true
         case Leaving(v) => HonestVerdict(w, k, v)
         case Done(v) => HonestVerdict(w, k, v)
         case Stamped(e, _) => Admissible(w, k) && EntryOf(k, e)
         case _ => Admissible(w, k)
  }

  ghost predicate Admissible(w: Setup, k: Task) {
    k.policy in w.policies && Acceptable(w.policies[k.policy], k.req)
  }

  ghost predicate HonestVerdict(w: Setup, k: Task, v: Verdict) {
    match v
    case Allowed(_) => Admissible(w, k)
    case Denied(PolicyMissing) => k.policy !in w.policies
    case Denied(why) => k.policy in w.policies && exists u :: Justified(w.policies[k.policy], u, k.req, why)
  }

  /** The entry holds what was asked, under the policy it was checked against. */
  predicate EntryOf(k: Task, e: Entry) {
    && e.keyId == k.req.keyId && e.policy == k.policy && e.operation == k.req.operation
    && k.req.amount == Some(e.amount) && e.destination == k.req.destination
  }

  ghost predicate FromTask(s: State, e: Entry, t: nat) {
    && t in s.tasks && EntryOf(s.tasks[t], e)
    && (s.tasks[t].phase == Leaving(Allowed(e.id)) || s.tasks[t].phase == Done(Allowed(e.id)))
  }

  ghost predicate Traced(w: Setup, s: State) {
    && (forall t <- s.tasks :: Honest(w, s.tasks[t]))
    && (forall e <- s.rows :: exists t :: FromTask(s, e, t))
  }

  lemma DecisionIsHonest(w: Setup, k: Task, why: Denial)
    requires k.policy in w.policies && Precheck(w.policies[k.policy], k.req) == Some(why)
    ensures exists u :: Justified(w.policies[k.policy], u, k.req, why)
  {
    AddressPermittedIff(w.policies[k.policy], k.req);
    assert OperationPermitted(w.policies[k.policy], k.req) <==> MayOperate(w.policies[k.policy], k.req);
    assert Justified(w.policies[k.policy], Usage(0.0, 0.0, 0.0), k.req, why);
  }

  lemma BudgetDenialIsHonest(c: Conditions, u: Usage, r: Request, why: Denial)
    requires Acceptable(c, r) && BudgetCheck(c, u, r.amount.value) == Some(why)
    ensures Justified(c, u, r, why)
  {
  }

  predicate Concerns(e: Event, t: nat) {
    match e
    case Tick(_) => false
    case Rollback(_) => false
    case Call(u, _) => t == u
    case Stamp(u, _) => t == u
    case _ => t == e.t
  }

  /** A segment changes the task whose segment it is and no other. */
  lemma OthersStay(w: Setup, s: State, e: Event, t: nat)
    requires !Concerns(e, t)
    ensures t in Step(w, s, e).tasks <==> t in s.tasks
    ensures t in s.tasks ==> Step(w, s, e).tasks[t] == s.tasks[t]
  {
    hide L.Acquire, L.Grant, L.Release, L.CanGrant, Precheck, BudgetCheck, UsageAt, OfPolicy, Insert, Remove;
  }

  lemma FetchStaysHonest(w: Setup, s: State, t: nat)
    requires t in s.tasks && Honest(w, s.tasks[t])
    ensures Honest(w, Step(w, s, Fetch(t)).tasks[t])
  {
    hide Justified, Acceptable, Precheck, OfPolicy;
    var k := s.tasks[t];
    if k.phase.Granted? && k.policy in w.policies {
      PrecheckIff(w.policies[k.policy], k.req);
      var why := Precheck(w.policies[k.policy], k.req);
      if why.Some? { DecisionIsHonest(w, k, why.value); PrecheckReasons(w.policies[k.policy], k.req); }
    }
  }

  lemma DecideStaysHonest(w: Setup, s: State, t: nat)
    requires t in s.tasks && Honest(w, s.tasks[t])
    ensures Honest(w, Step(w, s, Decide(t)).tasks[t])
  {
    hide Justified, Acceptable, BudgetCheck;
    var k := s.tasks[t];
    if k.phase.Tallied? && k.req.amount.Some? && k.policy in w.policies {
      var why := BudgetCheck(w.policies[k.policy], k.phase.usage, k.req.amount.value);
      if why.Some? {
        BudgetDenialIsHonest(w.policies[k.policy], k.phase.usage, k.req, why.value);
        BudgetReasons(w.policies[k.policy], k.phase.usage, k.req.amount.value);
      }
    }
  }

  lemma TaskStaysHonest(w: Setup, s: State, e: Event, t: nat)
    requires (t in s.tasks ==> Honest(w, s.tasks[t])) && t in Step(w, s, e).tasks
    ensures Honest(w, Step(w, s, e).tasks[t])
  {
    hide L.Acquire, L.Grant, L.Release, L.CanGrant, Justified, Acceptable, Precheck, BudgetCheck, UsageAt, OfPolicy, Insert, Remove;
    if !Concerns(e, t) {
      hide Step, Honest;
      OthersStay(w, s, e, t);
    } else if e.Fetch? {
      hide Honest;
      if t in s.tasks { FetchStaysHonest(w, s, t); }
    } else if e.Decide? {
      hide Honest;
      if t in s.tasks { DecideStaysHonest(w, s, t); }
    }
  }

  lemma PrecheckReasons(c: Conditions, r: Request)
    ensures Precheck(c, r) != Some(PolicyMissing)
  {
  }

  lemma BudgetReasons(c: Conditions, u: Usage, amount: real)
    ensures BudgetCheck(c, u, amount) != Some(PolicyMissing)
  {
  }

  lemma AllowedStays(w: Setup, s: State, ev: Event, e: Entry, t: nat)
    requires FromTask(s, e, t)
    ensures FromTask(Step(w, s, ev), e, t)
  {
    hide L.Acquire, L.Grant, L.Release, L.CanGrant, Precheck, BudgetCheck, UsageAt, OfPolicy, Insert, Remove;
    if !Concerns(ev, t) {
      hide Step;
      OthersStay(w, s, ev, t);
    }
  }

  lemma WriteIsTraced(w: Setup, s: State, t: nat)
    requires t in s.tasks && s.tasks[t].phase.Stamped? && Honest(w, s.tasks[t])
    ensures FromTask(Step(w, s, Write(t)), s.tasks[t].phase.entry, t)
  {
    hide Insert, Acceptable;
  }

  lemma RowsAfter(w: Setup, s: State, ev: Event, e: Entry)
    requires e in Step(w, s, ev).rows
    ensures e in s.rows || (ev.Write? && ev.t in s.tasks && s.tasks[ev.t].phase.Stamped? && s.tasks[ev.t].phase.entry == e)
  {
    hide L.Acquire, L.Grant, L.Release, L.CanGrant, Precheck, BudgetCheck, UsageAt, OfPolicy, Remove;
    if ev.Rollback? { RemoveTakesOnly(s.rows, ev.id, e); }
    if ev.Write? && ev.t in s.tasks && s.tasks[ev.t].phase.Stamped? {
      RemoveTakesOnly(s.rows, s.tasks[ev.t].phase.entry.id, e);
    }
  }

  lemma RowStaysTraced(w: Setup, s: State, ev: Event, e: Entry)
    requires Traced(w, s) && e in Step(w, s, ev).rows
    ensures exists t :: FromTask(Step(w, s, ev), e, t)
  {
    hide Step, FromTask, Honest;
    RowsAfter(w, s, ev, e);
    if e in s.rows {
      var t :| FromTask(s, e, t);
      AllowedStays(w, s, ev, e, t);
    } else {
      WriteIsTraced(w, s, ev.t);
    }
  }

  lemma {:induction false} RunIsTraced(w: Setup, clock: int, es: seq<Event>)
    ensures Traced(w, Run(w, Init(clock), es))
    decreases |es|
  {
    if es != [] {
      hide Step, Honest, FromTask;
      var n := |es| - 1;
      var s := Run(w, Init(clock), es[..n]);
      RunIsTraced(w, clock, es[..n]);
      var s' := Run(w, Init(clock), es);
      forall t | t in s'.tasks ensures Honest(w, s'.tasks[t]) { TaskStaysHonest(w, s, es[n], t); }
      forall e | e in s'.rows ensures exists t :: FromTask(s', e, t) { RowStaysTraced(w, s, es[n], e); }
    }
  }

  /** Over any run every row is the entry of a request that was allowed, with what that request asked for. */
  lemma RowsComeFromRequests(w: Setup, clock: int, es: seq<Event>, i: nat)
    requires i < |Run(w, Init(clock), es).rows|
    ensures exists t :: FromTask(Run(w, Init(clock), es), Run(w, Init(clock), es).rows[i], t)
  {
    RunIsTraced(w, clock, es);
    assert Run(w, Init(clock), es).rows[i] in Run(w, Init(clock), es).rows;
  }

  /** And every verdict is true: allowed only if acceptable, and denied for the reason given. */
  lemma VerdictsAreHonest(w: Setup, clock: int, es: seq<Event>, t: nat)
    requires t in Run(w, Init(clock), es).tasks
    ensures Honest(w, Run(w, Init(clock), es).tasks[t])
  {
    RunIsTraced(w, clock, es);
  }

  /** An entry is stamped with the clock as it is when the entry is built. */
  lemma EntryIsStampedNow(w: Setup, s: State, t: nat, id: string)
    requires t in s.tasks && s.tasks[t].phase.Approved? && s.tasks[t].req.amount.Some?
    ensures var phase := Step(w, s, Stamp(t, id)).tasks[t].phase;
      phase.Stamped? && phase.entry.id == id && phase.entry.timestamp == s.clock && EntryOf(s.tasks[t], phase.entry)
  {
  }

  /** The eight segments of one request, in order. */
  function Alone(t: nat, req: Request, id: string): seq<Event> {
    [Call(t, req), Enter(t), Fetch(t), Tally(t), Decide(t), Stamp(t, id), Write(t), Leave(t)]
  }

  predicate Permits(c: Conditions, r: Request, u: Usage) {
    Precheck(c, r).None? && BudgetCheck(c, u, r.amount.value).None?
  }

  function Reservation(s: State, p: string, r: Request, id: string): Entry
    requires r.amount.Some?
  {
    Entry(id, r.keyId, p, r.operation, r.amount.value, r.destination, s.clock)
  }

  function RunAlone(w: Setup, s: State, t: nat, req: Request, id: string): State {
    Step(w, Step(w, Step(w, Step(w, Step(w, Step(w, Step(w, Step(w, s, Call(t, req)), Enter(t)), Fetch(t)), Tally(t)), Decide(t)), Stamp(t, id)), Write(t)), Leave(t))
  }

  lemma RunAloneIsRun(w: Setup, s: State, t: nat, req: Request, id: string)
    ensures Run(w, s, Alone(t, req, id)) == RunAlone(w, s, t, req, id)
  {
    var es := Alone(t, req, id);
    assert es[..7][..6] == es[..6] && es[..6][..5] == es[..5] && es[..5][..4] == es[..4];
    assert es[..4][..3] == es[..3] && es[..3][..2] == es[..2] && es[..2][..1] == es[..1] && es[..1][..0] == [];
    assert Run(w, s, es[..1]) == Step(w, s, es[0]);
    assert Run(w, s, es[..2]) == Step(w, Run(w, s, es[..1]), es[1]);
    assert Run(w, s, es[..3]) == Step(w, Run(w, s, es[..2]), es[2]);
    assert Run(w, s, es[..4]) == Step(w, Run(w, s, es[..3]), es[3]);
    assert Run(w, s, es[..5]) == Step(w, Run(w, s, es[..4]), es[4]);
    assert Run(w, s, es[..6]) == Step(w, Run(w, s, es[..5]), es[5]);
    assert Run(w, s, es[..7]) == Step(w, Run(w, s, es[..6]), es[6]);
  }

  /** Acceptable in itself, and within every limit of what the ledger holds for the policy. */
  ghost predicate Fits(c: Conditions, rows: seq<Entry>, p: string, now: int, r: Request) {
    && Acceptable(c, r)
    && (Daily in c.limits ==> SumFrom(rows, p, now - 86_400_000) + r.amount.value <= c.limits[Daily])
    && (Weekly in c.limits ==> SumFrom(rows, p, now - 604_800_000) + r.amount.value <= c.limits[Weekly])
    && (Monthly in c.limits ==> SumFrom(rows, p, now - 2_592_000_000) + r.amount.value <= c.limits[Monthly])
  }

  lemma PermitsIff(c: Conditions, rows: seq<Entry>, p: string, now: int, r: Request)
    ensures Permits(c, r, UsageAt(OfPolicy(rows, p), p, now)) <==> Fits(c, rows, p, now, r)
  {
    hide Precheck, Acceptable, SumFrom, OfPolicy;
    PrecheckIff(c, r);
    OfPolicySums(rows, p, now - 86_400_000);
    OfPolicySums(rows, p, now - 604_800_000);
    OfPolicySums(rows, p, now - 2_592_000_000);
    assert Acceptable(c, r) ==> r.amount.Some? by { AcceptableHasAmount(c, r); }
  }

  lemma AcceptableHasAmount(c: Conditions, r: Request)
    ensures Acceptable(c, r) ==> r.amount.Some?
  {
  }

  /** Inserting under a new id appends; no row is lost, changed or doubled. */
  lemma InsertNew(rows: seq<Entry>, e: Entry)
    requires forall i :: 0 <= i < |rows| ==> rows[i].id != e.id
    ensures Insert(rows, e) == rows + [e]
  {
    RemoveAbsent(rows, e.id);
  }

  /** Deleting takes the rows of one id and no other. */
  lemma {:induction false} RemoveTakesOnly(rows: seq<Entry>, id: string, e: Entry)
    ensures e in Remove(rows, id) <==> e in rows && e.id != id
    decreases |rows|
  {
    if rows != [] {
      RemoveTakesOnly(rows[..|rows| - 1], id, e);
      assert rows == rows[..|rows| - 1] + [rows[|rows| - 1]];
    }
  }

  /**
   Nothing that fits is refused: on a policy whose lock is free, an uninterrupted request is allowed
   exactly when the policy permits it against the ledger as it stands, it then adds exactly its own row,
   and in every case the lock is free again.
   */
  lemma AloneReserves(w: Setup, s: State, t: nat, req: Request, id: string)
    requires t !in s.tasks && req.keyId in w.keys && w.keys[req.keyId].Some? && w.keys[req.keyId].value in w.policies
    requires var q := LockOf(s, w.keys[req.keyId].value); L.Inv(q) && L.AllReleasedBefore(q, |q.tickets|)
    ensures var p := w.keys[req.keyId].value; var c := w.policies[p];
      var s' := Run(w, s, Alone(t, req, id));
      && t in s'.tasks && s'.tasks[t].phase.Done?
      && (s'.tasks[t].phase.verdict.Allowed? <==> Fits(c, s.rows, p, s.clock, req))
      && (s'.tasks[t].phase.verdict.Allowed? ==> s'.tasks[t].phase.verdict.entryId == id)
      && (s'.tasks[t].phase.verdict.Allowed? ==>
            s'.rows == Insert(s.rows, Entry(id, req.keyId, p, req.operation, req.amount.value, req.destination, s.clock)))
      && (s'.tasks[t].phase.verdict.Denied? ==> s'.rows == s.rows)
      && L.AllReleasedBefore(LockOf(s', p), |LockOf(s', p).tickets|)
  {
    hide Step, Run, Alone, Permits, Acceptable, SumFrom, UsageAt, OfPolicy, Insert, L.Inv, L.Acquire, L.Grant, L.Release, L.CanGrant, L.AllReleasedBefore;
    RunAloneIsRun(w, s, t, req, id);
    var p := w.keys[req.keyId].value;
    var q := LockOf(s, p);
    PermitsIff(w.policies[p], s.rows, p, s.clock, req);
    AcceptableHasAmount(w.policies[p], req);
    L.Uncontended(q);
    GrantedAlone(w, s, t, req);
    var s2 := Step(w, Step(w, s, Call(t, req)), Enter(t));
    AloneSegments(w, s2, t, id);
    var s7 := Step(w, Step(w, Step(w, Step(w, Step(w, s2, Fetch(t)), Tally(t)), Decide(t)), Stamp(t, id)), Write(t));
    LeaveAlone(w, s7, t);
  }

  lemma LeaveAlone(w: Setup, s: State, t: nat)
    requires t in s.tasks && s.tasks[t].phase.Leaving?
    ensures var k := s.tasks[t];
      Step(w, s, Leave(t)) ==
        Move(s.(locks := s.locks[k.policy := L.Release(LockOf(s, k.policy), k.ticket)]), t, Done(k.phase.verdict))
  {
  }

  lemma GrantedAlone(w: Setup, s: State, t: nat, req: Request)
    requires t !in s.tasks && req.keyId in w.keys && w.keys[req.keyId].Some?
    requires var q := LockOf(s, w.keys[req.keyId].value); L.CanGrant(L.Acquire(q), |q.tickets|)
    ensures var p := w.keys[req.keyId].value; var q := LockOf(s, p);
      Step(w, Step(w, s, Call(t, req)), Enter(t)) ==
        s.(locks := s.locks[p := L.Grant(L.Acquire(q), |q.tickets|)], tasks := s.tasks[t := Task(req, p, |q.tickets|, Granted)])
  {
    var p := w.keys[req.keyId].value;
    var q := LockOf(s, p);
    var s1 := Step(w, s, Call(t, req));
    var s2 := Step(w, s1, Enter(t));
    assert LockOf(s1, p) == L.Acquire(q);
    assert s2.locks == s.locks[p := L.Grant(L.Acquire(q), |q.tickets|)];
    assert s2.tasks == s.tasks[t := Task(req, p, |q.tickets|, Granted)];
  }

  /** From the grant on: the middle of an uninterrupted request. */
  lemma AloneSegments(w: Setup, s: State, t: nat, id: string)
    requires t in s.tasks && s.tasks[t].phase.Granted? && s.tasks[t].policy in w.policies
    ensures var k := s.tasks[t];
      var c := w.policies[k.policy];
      var s' := Step(w, Step(w, Step(w, Step(w, Step(w, s, Fetch(t)), Tally(t)), Decide(t)), Stamp(t, id)), Write(t));
      && t in s'.tasks && s'.tasks[t].phase.Leaving? && s'.tasks[t] == k.(phase := s'.tasks[t].phase) && s'.locks == s.locks
      && (s'.tasks[t].phase.verdict.Allowed? <==> Permits(c, k.req, UsageAt(OfPolicy(s.rows, k.policy), k.policy, s.clock)))
      && (s'.tasks[t].phase.verdict.Allowed? ==>
            s'.tasks[t].phase.verdict == Allowed(id) && s'.rows == Insert(s.rows, Reservation(s, k.policy, k.req, id)))
      && (s'.tasks[t].phase.verdict.Denied? ==> s'.rows == s.rows)
  {
    hide L.Acquire, L.Grant, L.Release, L.CanGrant, SumFrom, OfPolicy, Remove, OperationPermitted, AddressPermitted;
    var k, c := s.tasks[t], w.policies[s.tasks[t].policy];
    var s1 := Step(w, s, Fetch(t));
    if Precheck(c, k.req).None? {
      var usage := UsageAt(OfPolicy(s.rows, k.policy), k.policy, s.clock);
      var s3 := Step(w, Step(w, s1, Tally(t)), Decide(t));
      if BudgetCheck(c, usage, k.req.amount.value).None? {
        assert s3.tasks[t].phase == Approved(s.clock);
      } else {
        assert s3.tasks[t].phase.Leaving?;
      }
    } else {
      assert s1.tasks[t].phase.Leaving?;
    }
  }

  lemma {:induction false} RemoveAbsent(rows: seq<Entry>, id: string)
    requires forall i :: 0 <= i < |rows| ==> rows[i].id != id
    ensures Remove(rows, id) == rows
    decreases |rows|
  {
    if rows != [] {
      RemoveAbsent(rows[..|rows| - 1], id);
      assert rows == rows[..|rows| - 1] + [rows[|rows| - 1]];
    }
  }

  lemma InsertThenRemove(rows: seq<Entry>, e: Entry)
    requires forall i :: 0 <= i < |rows| ==> rows[i].id != e.id
    ensures Remove(Insert(rows, e), e.id) == rows
  {
    RemoveAbsent(rows, e.id);
    assert (rows + [e])[..|rows|] == rows;
  }

  /** A reservation followed by its rollback leaves the ledger exactly as it was. */
  lemma RollbackUndoesReservation(w: Setup, s: State, t: nat, req: Request, id: string)
    requires t !in s.tasks && req.keyId in w.keys && w.keys[req.keyId].Some? && w.keys[req.keyId].value in w.policies
    requires var q := LockOf(s, w.keys[req.keyId].value); L.Inv(q) && L.AllReleasedBefore(q, |q.tickets|)
    requires forall i :: 0 <= i < |s.rows| ==> s.rows[i].id != id
    ensures Step(w, Run(w, s, Alone(t, req, id)), Rollback(id)).rows == s.rows
  {
    hide Run, Alone, Insert, Remove, L.Inv, L.AllReleasedBefore, UsageAt, BudgetCheck, LockOf, OfPolicy;
    AloneReserves(w, s, t, req, id);
    RemoveAbsent(s.rows, id);
    var s' := Run(w, s, Alone(t, req, id));
    if s'.tasks[t].phase.verdict.Allowed? {
      InsertThenRemove(s.rows, Reservation(s, w.keys[req.keyId].value, req, id));
    }
  }

  // ----- The service as the program holds it: module state, updated segment by segment -----

  class Service {
    const setup: Setup
    var clock: int
    var rows: seq<Entry>
    var locks: map<string, L.Queue>
    var tasks: map<nat, Task>

    function View(): State
      reads this
    {
      State(clock, rows, locks, tasks)
    }

    constructor (setup: Setup, now: int)
      ensures View() == Init(now) && this.setup == setup
    {
      this.setup, clock, rows, locks, tasks := setup, now, [], map[], map[];
    }

    method SetPhase(t: nat, phase: Phase)
      requires t in tasks
      modifies `tasks
      ensures View() == Move(old(View()), t, phase)
    {
      tasks := tasks[t := tasks[t].(phase := phase)];
    }

    /** Look the key up and join the policy's promise chain. */
    method CheckAndReserve(t: nat, req: Request)
      requires t !in tasks
      modifies `tasks, `locks
      ensures View() == Step(setup, old(View()), Call(t, req))
    {
      if req.keyId !in setup.keys {
        tasks := tasks[t := Task(req, "", 0, Done(Denied(NoKey)))];
      } else if setup.keys[req.keyId].None? {
        tasks := tasks[t := Task(req, "", 0, Done(Denied(NoPolicyBound)))];
      } else {
        var p := setup.keys[req.keyId].value;
        var q := if p in locks then locks[p] else L.Empty(L.TailJoins);
        locks := locks[p := L.Acquire(q)];
        tasks := tasks[t := Task(req, p, |q.tickets|, Queued)];
      }
    }

    method LockGranted(t: nat)
      requires t in tasks && tasks[t].phase.Queued?
      modifies `tasks, `locks
      ensures View() == Step(setup, old(View()), Enter(t))
    {
      var k := tasks[t];
      var q := if k.policy in locks then locks[k.policy] else L.Empty(L.TailJoins);
      if L.CanGrant(q, k.ticket) {
        locks := locks[k.policy := L.Grant(q, k.ticket)];
        SetPhase(t, Granted);
      }
    }

    method FindByPolicy(p: string) returns (found: seq<Entry>)
      ensures found == OfPolicy(rows, p)
    {
      found := [];
      for i := 0 to |rows|
        invariant found == OfPolicy(rows[..i], p)
      {
        assert rows[..i + 1][..i] == rows[..i];
        if rows[i].policy == p { found := found + [rows[i]]; }
      }
      assert rows[..|rows|] == rows;
    }

    method FetchEntries(t: nat)
      requires t in tasks && tasks[t].phase.Granted?
      modifies `tasks
      ensures View() == Step(setup, old(View()), Fetch(t))
    {
      var k := tasks[t];
      if k.policy !in setup.policies {
        SetPhase(t, Leaving(Denied(PolicyMissing)));
        return;
      }
      var why := Precheck(setup.policies[k.policy], k.req);
      if why.Some? {
        SetPhase(t, Leaving(Denied(why.value)));
      } else {
        var entries := FindByPolicy(k.policy);
        SetPhase(t, Fetched(entries));
      }
    }

    method TallyUsage(t: nat)
      requires t in tasks && tasks[t].phase.Fetched?
      requires forall e :: e in tasks[t].phase.entries ==> e.policy == tasks[t].policy
      modifies `tasks
      ensures View() == Step(setup, old(View()), Tally(t))
    {
      var usage := GetBudgetUsage(tasks[t].phase.entries, tasks[t].policy, clock);
      SetPhase(t, Tallied(usage, clock));
    }

    method DecideRequest(t: nat)
      requires t in tasks && tasks[t].phase.Tallied? && tasks[t].policy in setup.policies
      requires Precheck(setup.policies[tasks[t].policy], tasks[t].req).None?
      modifies `tasks
      ensures View() == Step(setup, old(View()), Decide(t))
    {
      var k := tasks[t];
      var denial := CheckPolicy(setup.policies[k.policy], k.req, k.phase.usage);
      if denial.Some? { SetPhase(t, Leaving(Denied(denial.value))); } else { SetPhase(t, Approved(k.phase.readAt)); }
    }

    method StampEntry(t: nat, id: string)
      requires t in tasks && tasks[t].phase.Approved? && tasks[t].req.amount.Some?
      modifies `tasks
      ensures View() == Step(setup, old(View()), Stamp(t, id))
    {
      var k := tasks[t];
      var e := Entry(id, k.req.keyId, k.policy, k.req.operation, k.req.amount.value, k.req.destination, clock);
      SetPhase(t, Stamped(e, k.phase.readAt));
    }

    method Delete(id: string)
      modifies `rows
      ensures rows == Remove(old(rows), id)
    {
      var kept := [];
      for i := 0 to |rows|
        invariant kept == Remove(rows[..i], id)
      {
        assert rows[..i + 1][..i] == rows[..i];
        if rows[i].id != id { kept := kept + [rows[i]]; }
      }
      assert rows[..|rows|] == rows;
      rows := kept;
    }

    method WriteEntry(t: nat)
      requires t in tasks && tasks[t].phase.Stamped?
      modifies `rows, `tasks
      ensures View() == Step(setup, old(View()), Write(t))
    {
      var e := tasks[t].phase.entry;
      Delete(e.id);
      rows := rows + [e];
      SetPhase(t, Leaving(Allowed(e.id)));
    }

    method ReleaseLock(t: nat)
      requires t in tasks && tasks[t].phase.Leaving?
      modifies `locks, `tasks
      ensures View() == Step(setup, old(View()), Leave(t))
    {
      var k := tasks[t];
      var q := if k.policy in locks then locks[k.policy] else L.Empty(L.TailJoins);
      locks := locks[k.policy := L.Release(q, k.ticket)];
      SetPhase(t, Done(k.phase.verdict));
    }

    /** Unlocked, at any time, for any entry. */
    method RollbackReservation(id: string)
      modifies `rows
      ensures View() == Step(setup, old(View()), Rollback(id))
    {
      Delete(id);
    }
  }

  /** What the middleware keeps of one request until its response is sent. */
  class AgentRequest {
    const service: Service
    var reservation: Option<string>

    constructor (service: Service, verdict: Verdict)
      ensures this.service == service
      ensures reservation == if verdict.Allowed? then Some(verdict.entryId) else None
    {
      this.service := service;
      reservation := if verdict.Allowed? then Some(verdict.entryId) else None;
    }

    /** A failed response rolls the reservation back, and only the first time. */
    method Finished(status: int)
      modifies this`reservation, service`rows
      ensures service.View() ==
        if status >= 400 && old(reservation).Some? then Step(service.setup, old(service.View()), Rollback(old(reservation).value))
        else old(service.View())
      ensures reservation == if status >= 400 then None else old(reservation)
    {
      if status >= 400 && reservation.Some? {
        service.RollbackReservation(reservation.value);
        reservation := None;
      }
    }
  }
}
