/**
 Allowances from a parent wallet to its members: one-time transfers, recurring ones run by the
 scheduler, the vault shares they move and the limit on what a member may receive in a period.

 A request or the execution of one due allowance is one step. Amounts are real numbers.
 */
module Allowances {
  import opened Wrappers
  import opened Tables
  import C = Calendar

  // ----- Vault positions -----

  datatype Position = Position(shares: real, deposited: real)

  type Vault = map<string, Position>

  function GetPosition(v: Vault, wallet: string): Position {
    if wallet in v then v[wallet] else Position(0.0, 0.0)
  }

  /** The position left and the shares taken out of it. */
  function Debit(p: Position, amount: real): (Position, real)
    requires 0.0 < amount <= p.deposited
  {
    var ratio := if p.shares > 0.0 then amount / p.deposited else 0.0;
    var moved := p.shares * ratio;
    (Position(p.shares - moved, p.deposited - amount), moved)
  }

  /** The receiver's position is read after the sender's is written, so they may be the same. */
  function Transfer(v: Vault, from: string, to: string, amount: real): Option<Vault>
    requires amount > 0.0
  {
    var sender := GetPosition(v, from);
    if sender.deposited < amount then None
    else
      var (left, moved) := Debit(sender, amount);
      var v1 := v[from := left];
      var receiver := GetPosition(v1, to);
      Some(v1[to := Position(receiver.shares + moved, receiver.deposited + amount)])
  }

  ghost function Sum(m: map<string, real>): real {
    if m == map[] then 0.0
    else
      var k :| k in m;
      m[k] + Sum(m - {k})
  }

  lemma {:induction false} SumWithout(m: map<string, real>, k: string)
    requires k in m
    ensures Sum(m) == m[k] + Sum(m - {k})
    decreases |m|
  {
    var j :| j in m && Sum(m) == m[j] + Sum(m - {j});
    if j != k {
      SumWithout(m - {j}, k);
      SumWithout(m - {k}, j);
      assert m - {j} - {k} == m - {k} - {j};
    }
  }

  lemma SumWith(m: map<string, real>, k: string, x: real)
    ensures Sum(m[k := x]) == Sum(m) - (if k in m then m[k] else 0.0) + x
  {
    SumWithout(m[k := x], k);
    assert m[k := x] - {k} == m - {k};
    if k in m {
      SumWithout(m, k);
    } else {
      assert m - {k} == m;
    }
  }

  ghost function Shares(v: Vault): map<string, real> {
    map w | w in v :: v[w].shares
  }

  ghost function Deposits(v: Vault): map<string, real> {
    map w | w in v :: v[w].deposited
  }

  ghost function TotalShares(v: Vault): real { Sum(Shares(v)) }

  ghost function TotalDeposited(v: Vault): real { Sum(Deposits(v)) }

  lemma TotalsWith(v: Vault, w: string, p: Position)
    ensures TotalShares(v[w := p]) == TotalShares(v) - GetPosition(v, w).shares + p.shares
    ensures TotalDeposited(v[w := p]) == TotalDeposited(v) - GetPosition(v, w).deposited + p.deposited
  {
    assert Shares(v[w := p]) == Shares(v)[w := p.shares];
    assert Deposits(v[w := p]) == Deposits(v)[w := p.deposited];
    SumWith(Shares(v), w, p.shares);
    SumWith(Deposits(v), w, p.deposited);
  }

  ghost predicate Solvent(v: Vault) {
    forall w <- v :: v[w].shares >= 0.0 && v[w].deposited >= 0.0
  }

  /** A debit takes shares in proportion: what is left is worth as many shares per deposit as before. */
  lemma DebitKeepsRatio(p: Position, amount: real)
    requires 0.0 < amount <= p.deposited && p.shares >= 0.0
    ensures var (left, moved) := Debit(p, amount);
      && left.shares * p.deposited == p.shares * left.deposited
      && (left.deposited > 0.0 ==> left.shares / left.deposited == p.shares / p.deposited)
      && 0.0 <= moved <= p.shares && left.shares >= 0.0 && (left.deposited == 0.0 ==> left.shares == 0.0)
  {
  }

  /** Both totals stay, even when sender and receiver are one wallet, and no position goes negative. */
  lemma TransferConserves(v: Vault, from: string, to: string, amount: real)
    requires amount > 0.0 && Solvent(v) && Transfer(v, from, to, amount).Some?
    ensures var u := Transfer(v, from, to, amount).value;
      && TotalShares(u) == TotalShares(v) && TotalDeposited(u) == TotalDeposited(v) && Solvent(u)
      && u.Keys == v.Keys + {from, to}
      && (forall w :: w != from && w != to ==> GetPosition(u, w) == GetPosition(v, w))
      && (from != to ==> GetPosition(u, from).deposited == GetPosition(v, from).deposited - amount)
      && (from == to ==> GetPosition(u, from) == GetPosition(v, from))
  {
    hide Debit, TotalShares, TotalDeposited;
    var sender := GetPosition(v, from);
    DebitKeepsRatio(sender, amount);
    var (left, moved) := Debit(sender, amount);
    assert left == Position(sender.shares - moved, sender.deposited - amount) by { DebitParts(sender, amount); }
    TotalsWith(v, from, left);
    var v1 := v[from := left];
    var receiver := GetPosition(v1, to);
    TotalsWith(v1, to, Position(receiver.shares + moved, receiver.deposited + amount));
  }

  lemma DebitParts(p: Position, amount: real)
    requires 0.0 < amount <= p.deposited
    ensures Debit(p, amount).0 == Position(p.shares - Debit(p, amount).1, p.deposited - amount)
  {
  }

  // ----- Limits -----

  datatype Membership = Membership(parent: string, member: string, active: bool, limit: Option<real>, period: C.Frequency)

  datatype Limits = Limits(isMember: bool, limit: Option<real>, period: C.Frequency)

  predicate ActiveMember(ms: seq<Membership>, parent: string, member: string) {
    exists i :: 0 <= i < |ms| && ms[i].parent == parent && ms[i].member == member && ms[i].active
  }

  /** An active membership of w that sets a limit. */
  predicate Limiting(m: Membership, w: string) {
    m.member == w && m.active && m.limit.Some?
  }

  predicate IsMember(ms: seq<Membership>, w: string) {
    exists i :: 0 <= i < |ms| && ms[i].member == w && ms[i].active
  }

  predicate FirstLeast(ms: seq<Membership>, w: string, k: nat) {
    && k < |ms| && Limiting(ms[k], w)
    && (forall i :: 0 <= i < |ms| && Limiting(ms[i], w) ==> ms[k].limit.value <= ms[i].limit.value)
    && (forall i :: 0 <= i < k && Limiting(ms[i], w) ==> ms[k].limit.value < ms[i].limit.value)
  }

  /** The first membership with the least limit. */
  function LeastLimit(ms: seq<Membership>, w: string): (r: Option<nat>)
    ensures r.None? <==> forall i :: 0 <= i < |ms| ==> !Limiting(ms[i], w)
    ensures r.Some? ==> FirstLeast(ms, w, r.value)
  {
    if ms == [] then None
    else
      var n := |ms| - 1;
      var before := LeastLimit(ms[..n], w);
      assert forall i :: 0 <= i < n ==> ms[..n][i] == ms[i];
      if Limiting(ms[n], w) && (before.None? || ms[n].limit.value < ms[before.value].limit.value) then Some(n) else before
  }

  function LimitsOf(ms: seq<Membership>, w: string): Limits {
    match LeastLimit(ms, w)
    case None => Limits(IsMember(ms, w), None, C.Monthly)
    case Some(k) => Limits(true, ms[k].limit, ms[k].period)
  }

  lemma LimitsWithOneMore(ms: seq<Membership>, i: nat, w: string)
    requires i < |ms|
    ensures LimitsOf(ms[..i + 1], w) ==
      var before, m := LimitsOf(ms[..i], w), ms[i];
      if !(m.member == w && m.active) then before
      else if m.limit.Some? && (before.limit.None? || m.limit.value < before.limit.value) then Limits(true, m.limit, m.period)
      else before.(isMember := true)
  {
    var up := ms[..i + 1];
    assert up[..i] == ms[..i] && up[i] == ms[i];
    assert IsMember(up, w) <==> IsMember(ms[..i], w) || (ms[i].member == w && ms[i].active);
  }

  method GetMemberLimits(ms: seq<Membership>, w: string) returns (r: Limits)
    ensures r == LimitsOf(ms, w)
    ensures r.isMember <==> IsMember(ms, w)
    ensures r.limit.Some? ==> forall i :: 0 <= i < |ms| && Limiting(ms[i], w) ==> r.limit.value <= ms[i].limit.value
    ensures r.limit.None? ==> forall i :: 0 <= i < |ms| ==> !Limiting(ms[i], w)
  {
    r := Limits(false, None, C.Monthly);
    for i := 0 to |ms|
      invariant r == LimitsOf(ms[..i], w)
    {
      hide LimitsOf;
      var m := ms[i];
      LimitsWithOneMore(ms, i, w);
      if m.member == w && m.active {
        r := r.(isMember := true);
        if m.limit.Some? && (r.limit.None? || m.limit.value < r.limit.value) {
          r := Limits(true, m.limit, m.period);
        }
      }
    }
    assert ms[..|ms|] == ms;
  }

  // ----- Records and usage -----

  datatype Kind = OneTimeTransfer | Execution(parent: string) | VaultRedeem

  datatype Record = Record(kind: Kind, from: string, to: string, amount: real, completed: bool, createdAt: int)

  predicate ReceivedSince(r: Record, w: string, since: int) {
    r.to == w && r.completed && r.createdAt >= since
  }

  predicate RedeemedSince(r: Record, w: string, since: int) {
    r.from == w && r.kind == VaultRedeem && r.createdAt >= since
  }

  function Received(rs: seq<Record>, w: string, since: int): real {
    if rs == [] then 0.0
    else
      var n := |rs| - 1;
      Received(rs[..n], w, since) + if ReceivedSince(rs[n], w, since) then rs[n].amount else 0.0
  }

  function Redeemed(rs: seq<Record>, w: string, since: int): real {
    if rs == [] then 0.0
    else
      var n := |rs| - 1;
      Redeemed(rs[..n], w, since) + if RedeemedSince(rs[n], w, since) then rs[n].amount else 0.0
  }

  function PeriodUsage(rs: seq<Record>, w: string, period: C.Frequency, now: int): real {
    Received(rs, w, now - C.Period(period)) + Redeemed(rs, w, now - C.Period(period))
  }

  method GetPeriodUsage(rs: seq<Record>, w: string, period: C.Frequency, now: int) returns (total: real)
    ensures total == PeriodUsage(rs, w, period, now)
  {
    var since := now - C.Period(period);
    total := 0.0;
    for i := 0 to |rs|
      invariant total == Received(rs[..i], w, since)
    {
      assert rs[..i + 1][..i] == rs[..i];
      if ReceivedSince(rs[i], w, since) { total := total + rs[i].amount; }
    }
    assert rs[..|rs|] == rs;
    var received := total;
    for i := 0 to |rs|
      invariant total == received + Redeemed(rs[..i], w, since)
    {
      assert rs[..i + 1][..i] == rs[..i];
      if RedeemedSince(rs[i], w, since) { total := total + rs[i].amount; }
    }
  }

  predicate Allowed(ms: seq<Membership>, rs: seq<Record>, w: string, amount: real, now: int) {
    var l := LimitsOf(ms, w);
    !l.isMember || l.limit.None? || PeriodUsage(rs, w, l.period, now) + amount <= l.limit.value
  }

  method CheckLimit(ms: seq<Membership>, rs: seq<Record>, w: string, amount: real, now: int) returns (ok: bool)
    ensures ok <==> Allowed(ms, rs, w, amount, now)
  {
    var l := GetMemberLimits(ms, w);
    if !l.isMember || l.limit.None? { return true; }
    var used := GetPeriodUsage(rs, w, l.period, now);
    ok := !(used + amount > l.limit.value);
  }

  /** A completed redemption names its wallet as sender and receiver, and so is counted twice. */
  lemma RedemptionCountsTwice(rs: seq<Record>, w: string, amount: real, stamp: int, period: C.Frequency, now: int)
    requires stamp >= now - C.Period(period)
    ensures PeriodUsage(rs + [Record(VaultRedeem, w, w, amount, true, stamp)], w, period, now) ==
      PeriodUsage(rs, w, period, now) + 2.0 * amount
  {
    var r := Record(VaultRedeem, w, w, amount, true, stamp);
    assert (rs + [r])[..|rs|] == rs;
  }

  // ----- The state and its steps -----

  /** `start` is what `next` was at first; the program keeps only `next`. */
  datatype Recurring = Recurring(
    from: string, to: string, amount: real, start: int, next: int, frequency: C.Frequency, end: Option<int>,
    cancelled: bool)

  datatype State = State(vault: Vault, members: seq<Membership>, recurring: map<string, Recurring>, records: seq<Record>)

  /** `stamp` and `checkAt` are the clock when the request is validated and when its limit is checked. */
  datatype Event =
    | OneTime(from: string, to: string, amount: real, stamp: int, checkAt: int)
    | Subscribe(id: string, from: string, to: string, amount: real, frequency: C.Frequency, first: Option<int>, end: Option<int>, stamp: int, checkAt: int)
    | CancelAllowance(id: string, caller: string)
    | Execute(id: string, now: int, checkAt: int)
    | SetMembers(members: seq<Membership>)

  predicate Due(a: Recurring, now: int) {
    !a.cancelled && a.next <= now && (a.end.None? || a.end.value > now)
  }

  /** The validation, membership and limit checks shared by both kinds of request. */
  predicate Accepted(s: State, from: string, to: string, amount: real, checkAt: int) {
    amount > 0.0 && ActiveMember(s.members, from, to) && Allowed(s.members, s.records, to, amount, checkAt)
  }

  /** Moves the shares if the sender has enough, and leaves a record either way. */
  function Pay(s: State, kind: Kind, from: string, to: string, amount: real, stamp: int): State
    requires amount > 0.0
  {
    var moved := Transfer(s.vault, from, to, amount);
    s.(vault := if moved.Some? then moved.value else s.vault,
       records := s.records + [Record(kind, from, to, amount, moved.Some?, stamp)])
  }

  function Step(s: State, e: Event): State {
    match e
    case OneTime(from, to, amount, stamp, checkAt) =>
      if Accepted(s, from, to, amount, checkAt) then Pay(s, OneTimeTransfer, from, to, amount, stamp) else s
    case Subscribe(id, from, to, amount, frequency, first, end, stamp, checkAt) =>
      if id in s.recurring || !Accepted(s, from, to, amount, checkAt) then s
      else
        var start := if first.Some? then first.value else stamp;
        s.(recurring := s.recurring[id := Recurring(from, to, amount, start, start, frequency, end, false)])
    case CancelAllowance(id, caller) =>
      if id in s.recurring && s.recurring[id].from == caller then
        s.(recurring := s.recurring[id := s.recurring[id].(cancelled := true)])
      else s
    case Execute(id, now, checkAt) =>
      if id in s.recurring && Due(s.recurring[id], now)
         && Accepted(s, s.recurring[id].from, s.recurring[id].to, s.recurring[id].amount, checkAt)
      then
        var a := s.recurring[id];
        Pay(s, Execution(id), a.from, a.to, a.amount, now).(recurring := s.recurring[id := a.(next := C.Advance(a.next, a.frequency))])
      else s
    case SetMembers(members) => s.(members := members)
  }

  function Run(s: State, es: seq<Event>): State
    decreases |es|
  {
    if es == [] then s else Run(Step(s, es[0]), es[1..])
  }

  // ----- Conservation over runs -----

  lemma StepConserves(s: State, e: Event)
    requires Solvent(s.vault)
    ensures var t := Step(s, e).vault;
      Solvent(t) && TotalShares(t) == TotalShares(s.vault) && TotalDeposited(t) == TotalDeposited(s.vault)
  {
    hide Transfer, TotalShares, TotalDeposited, Solvent, Allowed;
    match e
    case OneTime(from, to, amount, stamp, checkAt) =>
      if amount > 0.0 && Transfer(s.vault, from, to, amount).Some? { TransferConserves(s.vault, from, to, amount); }
    case Execute(id, now, checkAt) =>
      if id in s.recurring {
        var a := s.recurring[id];
        if a.amount > 0.0 && Transfer(s.vault, a.from, a.to, a.amount).Some? { TransferConserves(s.vault, a.from, a.to, a.amount); }
      }
    case _ =>
  }

  /** Over any run total deposits and total shares stay, and no position goes negative. */
  lemma {:induction false} RunConserves(s: State, es: seq<Event>)
    requires Solvent(s.vault)
    ensures var t := Run(s, es).vault;
      Solvent(t) && TotalShares(t) == TotalShares(s.vault) && TotalDeposited(t) == TotalDeposited(s.vault)
    decreases |es|
  {
    if es != [] {
      hide Step, TotalShares, TotalDeposited, Solvent;
      StepConserves(s, es[0]);
      RunConserves(Step(s, es[0]), es[1..]);
    }
  }

  // ----- Records say what was moved -----

  /** Completed amounts sent to w, less completed amounts taken from it. */
  function Net(rs: seq<Record>, w: string): real {
    if rs == [] then 0.0
    else
      var n := |rs| - 1;
      Net(rs[..n], w)
      + (if rs[n].completed && rs[n].to == w then rs[n].amount else 0.0)
      - (if rs[n].completed && rs[n].from == w then rs[n].amount else 0.0)
  }

  lemma NetAppend(rs: seq<Record>, r: Record, w: string)
    ensures Net(rs + [r], w) ==
      Net(rs, w) + (if r.completed && r.to == w then r.amount else 0.0) - (if r.completed && r.from == w then r.amount else 0.0)
  {
    assert (rs + [r])[..|rs|] == rs;
  }

  lemma {:induction false} NetConcat(rs: seq<Record>, more: seq<Record>, w: string)
    ensures Net(rs + more, w) == Net(rs, w) + Net(more, w)
    decreases |more|
  {
    if more == [] {
      assert rs + more == rs;
    } else {
      var n := |more| - 1;
      assert (rs + more)[..|rs| + n] == rs + more[..n];
      NetConcat(rs, more[..n], w);
    }
  }

  ghost predicate Accounted(s: State, t: State, w: string) {
    GetPosition(t.vault, w).deposited - Net(t.records, w) == GetPosition(s.vault, w).deposited - Net(s.records, w)
  }

  /** A payment that went through moves the deposit from sender to receiver, and one that did not moves nothing. */
  lemma PayIsAccounted(s: State, kind: Kind, from: string, to: string, amount: real, stamp: int, w: string)
    requires amount > 0.0
    ensures Accounted(s, Pay(s, kind, from, to, amount, stamp), w)
    ensures var t := Pay(s, kind, from, to, amount, stamp);
      && t.records == s.records + [t.records[|s.records|]] && t.members == s.members && t.recurring == s.recurring
      && var r := t.records[|s.records|];
        && r.kind == kind && r.from == from && r.to == to && r.amount == amount && r.createdAt == stamp
        && (r.completed <==> GetPosition(s.vault, from).deposited >= amount)
        && (!r.completed ==> t.vault == s.vault)
  {
    hide Net;
    var t := Pay(s, kind, from, to, amount, stamp);
    NetAppend(s.records, t.records[|s.records|], w);
    if Transfer(s.vault, from, to, amount).Some? { DepositsMove(s.vault, from, to, amount, w); }
  }

  lemma DepositsMove(v: Vault, from: string, to: string, amount: real, w: string)
    requires amount > 0.0 && Transfer(v, from, to, amount).Some?
    ensures GetPosition(Transfer(v, from, to, amount).value, w).deposited ==
      GetPosition(v, w).deposited + (if to == w then amount else 0.0) - (if from == w then amount else 0.0)
  {
    hide Debit;
    DebitParts(GetPosition(v, from), amount);
  }

  lemma StepIsAccounted(s: State, e: Event, w: string)
    ensures Accounted(s, Step(s, e), w)
    ensures Step(s, e).records == s.records || Step(s, e).records == s.records + [Step(s, e).records[|s.records|]]
  {
    hide Pay, Accounted, Allowed, ActiveMember;
    match e
    case OneTime(from, to, amount, stamp, _) =>
      if amount > 0.0 { PayIsAccounted(s, OneTimeTransfer, from, to, amount, stamp, w); }
      assert Accounted(s, s, w) by { Unmoved(s, s, w); }
    case Execute(id, now, _) =>
      if id in s.recurring && s.recurring[id].amount > 0.0 {
        var a := s.recurring[id];
        PayIsAccounted(s, Execution(id), a.from, a.to, a.amount, now, w);
        Reschedule(s, Pay(s, Execution(id), a.from, a.to, a.amount, now), Step(s, e), w);
      }
      assert Accounted(s, s, w) by { Unmoved(s, s, w); }
    case _ => Unmoved(s, Step(s, e), w);
  }

  lemma Unmoved(s: State, t: State, w: string)
    requires t.vault == s.vault && t.records == s.records
    ensures Accounted(s, t, w)
  {
  }

  lemma Reschedule(s: State, t: State, u: State, w: string)
    requires Accounted(s, t, w)
    ensures u.vault == t.vault && u.records == t.records ==> Accounted(s, u, w)
  {
  }

  lemma {:induction false} RunIsAccounted(s: State, es: seq<Event>, w: string)
    ensures Accounted(s, Run(s, es), w)
    ensures s.records <= Run(s, es).records
    decreases |es|
  {
    if es != [] {
      hide Step;
      StepIsAccounted(s, es[0], w);
      RunIsAccounted(Step(s, es[0]), es[1..], w);
    }
  }

  /**
   Over any run each wallet's deposit is what it was, plus the completed amounts the run's records send to
   it, less the completed amounts they take from it.
   */
  lemma DepositsFollowRecords(s: State, es: seq<Event>, w: string)
    ensures var t := Run(s, es);
      && s.records <= t.records
      && GetPosition(t.vault, w).deposited == GetPosition(s.vault, w).deposited + Net(t.records[|s.records|..], w)
  {
    hide Run, Net;
    RunIsAccounted(s, es, w);
    var t := Run(s, es);
    assert t.records == s.records + t.records[|s.records|..];
    NetConcat(s.records, t.records[|s.records|..], w);
  }

  /** The run's step that added a record; the record is completed exactly when the sender could pay just before it. */
  ghost predicate AddedBy(s: State, es: seq<Event>, i: nat, n: nat)
    requires n < |es| && i < |Run(s, es).records|
  {
    var r, before := Run(s, es).records[i], Run(s, es[..n]);
    && |before.records| == i && |Step(before, es[n]).records| == i + 1
    && (r.completed <==> GetPosition(before.vault, r.from).deposited >= r.amount)
    && RecordOf(before, es[n], r)
  }

  /** The record holds what was asked for, and the time the request or tick was stamped. */
  ghost predicate RecordOf(s: State, e: Event, r: Record) {
    match e
    case OneTime(from, to, amount, stamp, _) =>
      r.kind == OneTimeTransfer && r.from == from && r.to == to && r.amount == amount && r.createdAt == stamp
    case Execute(id, now, _) =>
      && r.kind == Execution(id) && id in s.recurring && r.createdAt == now
      && r.from == s.recurring[id].from && r.to == s.recurring[id].to && r.amount == s.recurring[id].amount
    case _ => false
  }

  lemma StepAddsRecord(s: State, e: Event)
    requires Step(s, e).records != s.records
    ensures var t := Step(s, e);
      && |t.records| == |s.records| + 1 && t.records[..|s.records|] == s.records
      && var r := t.records[|s.records|];
        RecordOf(s, e, r) && (r.completed <==> GetPosition(s.vault, r.from).deposited >= r.amount)
  {
    hide Pay, Allowed, ActiveMember, Due;
    match e
    case OneTime(from, to, amount, stamp, _) => PayIsAccounted(s, OneTimeTransfer, from, to, amount, stamp, "");
    case Execute(id, now, _) =>
      var a := s.recurring[id];
      PayIsAccounted(s, Execution(id), a.from, a.to, a.amount, now, "");
    case _ =>
  }

  lemma {:induction false} RecordsAreAdded(s: State, es: seq<Event>, i: nat) returns (n: nat)
    requires |s.records| <= i < |Run(s, es).records|
    ensures n < |es| && AddedBy(s, es, i, n)
    decreases |es|
  {
    hide Step, RecordOf;
    var k := |es| - 1;
    assert es != [] by { RunNothing(s, es); }
    RunLast(s, es);
    var before := Run(s, es[..k]);
    if Step(before, es[k]).records != before.records { StepAddsRecord(before, es[k]); }
    RunIsAccounted(s, es[..k], "");
    if i < |before.records| {
      n := RecordsAreAdded(s, es[..k], i);
      assert es[..k][..n] == es[..n] && es[..k][n] == es[n];
    } else {
      n := k;
    }
  }

  lemma RunNothing(s: State, es: seq<Event>)
    ensures es == [] ==> Run(s, es) == s
  {
  }

  lemma RunLast(s: State, es: seq<Event>)
    requires es != []
    ensures Run(s, es) == Step(Run(s, es[..|es| - 1]), es[|es| - 1])
  {
    RunAppend(s, es[..|es| - 1], es[|es| - 1]);
    assert es == es[..|es| - 1] + [es[|es| - 1]];
  }

  // ----- What is accepted and what is executed -----

  /** Redemptions of w from `a` to `b` inclusive. */
  function RedeemedWithin(rs: seq<Record>, w: string, a: int, b: int): real {
    if rs == [] then 0.0
    else
      var n := |rs| - 1;
      RedeemedWithin(rs[..n], w, a, b)
      + if rs[n].kind == VaultRedeem && rs[n].from == w && a <= rs[n].createdAt <= b then rs[n].amount else 0.0
  }

  /** Usage is what the last day, week or thirty days hold, when nothing is stamped later than it is read. */
  lemma {:induction false} UsageIsWindow(rs: seq<Record>, w: string, period: C.Frequency, now: int)
    requires forall i :: 0 <= i < |rs| ==> rs[i].createdAt <= now
    ensures PeriodUsage(rs, w, period, now) == Within(rs, w, now - Length(period), now) + RedeemedWithin(rs, w, now - Length(period), now)
    decreases |rs|
  {
    C.StepLengths(period);
    if rs != [] { UsageIsWindow(rs[..|rs| - 1], w, period, now); }
  }

  /**
   A request is accepted exactly when its amount is positive, its recipient an active member of the sender,
   and the recipient's least limit, if it has any, has room for it in its period.
   */
  lemma AcceptedIff(s: State, from: string, to: string, amount: real, now: int)
    requires forall i :: 0 <= i < |s.records| ==> s.records[i].createdAt <= now
    ensures Accepted(s, from, to, amount, now) <==>
      && amount > 0.0
      && (exists i :: 0 <= i < |s.members| && s.members[i].parent == from && s.members[i].member == to && s.members[i].active)
      && forall k: nat :: FirstLeast(s.members, to, k) ==>
           var since := now - Length(s.members[k].period);
           Within(s.records, to, since, now) + RedeemedWithin(s.records, to, since, now) + amount <= s.members[k].limit.value
  {
    hide Within, RedeemedWithin, PeriodUsage, LeastLimit;
    var least := LeastLimit(s.members, to);
    if least.Some? {
      UsageIsWindow(s.records, to, s.members[least.value].period, now);
      forall k: nat | FirstLeast(s.members, to, k) ensures k == least.value {}
    } else {
      forall k: nat | k < |s.members| ensures !FirstLeast(s.members, to, k) {}
    }
  }

  /** An execution goes ahead exactly when it is due, not cancelled, not past its end, and accepted. */
  lemma ExecutesIff(s: State, id: string, now: int, checkAt: int)
    ensures Step(s, Execute(id, now, checkAt)).records != s.records <==>
      && id in s.recurring
      && var a := s.recurring[id];
        && !a.cancelled && now >= a.next && (a.end.None? || now < a.end.value)
        && Accepted(s, a.from, a.to, a.amount, checkAt)
    ensures Step(s, Execute(id, now, checkAt)).records == s.records ==> Step(s, Execute(id, now, checkAt)) == s
  {
    hide Accepted;
    if id in s.recurring && s.recurring[id].amount > 0.0 {
      var a := s.recurring[id];
      PayIsAccounted(s, Execution(id), a.from, a.to, a.amount, now, "");
    }
    assert id in s.recurring && Accepted(s, s.recurring[id].from, s.recurring[id].to, s.recurring[id].amount, checkAt) ==> s.recurring[id].amount > 0.0 by {
      if id in s.recurring { AcceptedIsPositive(s, s.recurring[id].from, s.recurring[id].to, s.recurring[id].amount, checkAt); }
    }
  }

  /** An accepted one-time request leaves one record, an accepted recurring one is scheduled, and others change nothing. */
  lemma RequestsGoAheadIff(s: State, from: string, to: string, amount: real, stamp: int, checkAt: int,
                           id: string, frequency: C.Frequency, first: Option<int>, end: Option<int>)
    ensures var t := Step(s, OneTime(from, to, amount, stamp, checkAt));
      && (t.records != s.records <==> Accepted(s, from, to, amount, checkAt)) && (t.records == s.records ==> t == s)
      && t.recurring == s.recurring
    ensures var t := Step(s, Subscribe(id, from, to, amount, frequency, first, end, stamp, checkAt));
      && (t != s <==> id !in s.recurring && Accepted(s, from, to, amount, checkAt))
      && (t != s ==> id in t.recurring) && t.records == s.records && t.vault == s.vault
  {
    hide Accepted;
    AcceptedIsPositive(s, from, to, amount, checkAt);
    if amount > 0.0 { PayIsAccounted(s, OneTimeTransfer, from, to, amount, stamp, ""); }
  }

  lemma AcceptedIsPositive(s: State, from: string, to: string, amount: real, now: int)
    ensures Accepted(s, from, to, amount, now) ==> amount > 0.0
  {
  }

  // ----- The recurring schedule -----

  /** When an allowance was executed, in order. */
  function Executions(rs: seq<Record>, id: string): seq<int> {
    if rs == [] then []
    else
      var n := |rs| - 1;
      if rs[n].kind == Execution(id) then Executions(rs[..n], id) + [rs[n].createdAt] else Executions(rs[..n], id)
  }

  lemma ExecutionsAppend(rs: seq<Record>, r: Record, id: string)
    ensures Executions(rs + [r], id) == if r.kind == Execution(id) then Executions(rs, id) + [r.createdAt] else Executions(rs, id)
  {
    assert (rs + [r])[..|rs|] == rs;
  }

  ghost predicate InTime(a: Recurring, k: nat, at: int) {
    at >= C.AdvanceBy(a.start, a.frequency, k) && (a.end.Some? ==> at < a.end.value)
  }

  ghost predicate Scheduled(a: Recurring, times: seq<int>) {
    && a.next == C.AdvanceBy(a.start, a.frequency, |times|)
    && forall k :: 0 <= k < |times| ==> InTime(a, k, times[k])
  }

  ghost predicate ScheduleInv(s: State) {
    && (forall id <- s.recurring :: Scheduled(s.recurring[id], Executions(s.records, id)))
    && (forall id :: id !in s.recurring ==> Executions(s.records, id) == [])
  }

  lemma ExecutionKeepsSchedule(a: Recurring, times: seq<int>, now: int)
    requires Scheduled(a, times) && Due(a, now)
    ensures Scheduled(a.(next := C.Advance(a.next, a.frequency)), times + [now])
  {
    hide C.Advance;
    var b := a.(next := C.Advance(a.next, a.frequency));
    assert b.next == C.AdvanceBy(b.start, b.frequency, |times| + 1);
    forall k | 0 <= k < |times| + 1 ensures InTime(b, k, (times + [now])[k]) {
      if k < |times| { assert InTime(a, k, times[k]); }
    }
  }

  lemma SameSchedule(a: Recurring, b: Recurring, times: seq<int>)
    requires Scheduled(a, times) && b == a.(cancelled := b.cancelled)
    ensures Scheduled(b, times)
  {
    forall k | 0 <= k < |times| ensures InTime(b, k, times[k]) {
      assert InTime(a, k, times[k]);
    }
  }

  lemma RecordKeepsSchedule(s: State, t: State, r: Record)
    requires ScheduleInv(s) && t.recurring == s.recurring && t.records == s.records + [r] && !r.kind.Execution?
    ensures ScheduleInv(t)
  {
    hide Scheduled, Executions;
    forall id ensures Executions(t.records, id) == Executions(s.records, id) {
      ExecutionsAppend(s.records, r, id);
    }
  }

  lemma ExecutionStepKeepsSchedule(s: State, t: State, id: string, r: Record)
    requires ScheduleInv(s) && id in s.recurring && Due(s.recurring[id], r.createdAt)
    requires r.kind == Execution(id) && t.records == s.records + [r]
    requires var a := s.recurring[id]; t.recurring == s.recurring[id := a.(next := C.Advance(a.next, a.frequency))]
    ensures ScheduleInv(t)
  {
    hide Scheduled, Executions, C.Advance, Due;
    ExecutionKeepsSchedule(s.recurring[id], Executions(s.records, id), r.createdAt);
    forall k ensures Executions(t.records, k) == if k == id then Executions(s.records, id) + [r.createdAt] else Executions(s.records, k) {
      ExecutionsAppend(s.records, r, k);
    }
  }

  lemma StepKeepsSchedule(s: State, e: Event)
    requires ScheduleInv(s)
    ensures ScheduleInv(Step(s, e))
  {
    hide Transfer, Accepted, C.Advance;
    var t := Step(s, e);
    match e
    case OneTime(from, to, amount, stamp, checkAt) =>
      hide ScheduleInv;
      if t != s { RecordKeepsSchedule(s, t, t.records[|s.records|]); }
    case Subscribe(id, from, to, amount, frequency, first, end, stamp, checkAt) =>
      hide Executions, Scheduled;
      if t != s { Unstarted(t.recurring[id]); }
    case CancelAllowance(id, caller) =>
      hide Executions, Scheduled;
      if id in s.recurring { SameSchedule(s.recurring[id], s.recurring[id].(cancelled := true), Executions(s.records, id)); }
    case Execute(id, now, checkAt) =>
      hide ScheduleInv;
      if t != s { ExecutionStepKeepsSchedule(s, t, id, t.records[|s.records|]); }
    case SetMembers(_) =>
      hide Executions, Scheduled;
  }

  lemma Unstarted(a: Recurring)
    requires a.next == a.start
    ensures Scheduled(a, [])
  {
  }

  /**
   After any run the next execution is the start advanced once per execution record, and the k-th record
   is neither early nor at or past the end date.
   */
  lemma {:induction false} RunKeepsSchedule(s: State, es: seq<Event>)
    requires ScheduleInv(s)
    ensures ScheduleInv(Run(s, es))
    decreases |es|
  {
    if es != [] {
      hide Step, ScheduleInv;
      StepKeepsSchedule(s, es[0]);
      RunKeepsSchedule(Step(s, es[0]), es[1..]);
    }
  }

  /** A cancelled allowance stays cancelled and is never executed again. */
  lemma {:induction false} CancelledNeverExecutes(s: State, es: seq<Event>, id: string)
    requires id in s.recurring && s.recurring[id].cancelled
    ensures id in Run(s, es).recurring && Run(s, es).recurring[id] == s.recurring[id]
    ensures Executions(Run(s, es).records, id) == Executions(s.records, id)
    decreases |es|
  {
    if es != [] {
      hide Executions;
      var t := Step(s, es[0]);
      CancelledStep(s, es[0], id);
      hide Step;
      CancelledNeverExecutes(t, es[1..], id);
    }
  }

  lemma CancelledStep(s: State, e: Event, id: string)
    requires id in s.recurring && s.recurring[id].cancelled
    ensures id in Step(s, e).recurring && Step(s, e).recurring[id] == s.recurring[id]
    ensures Executions(Step(s, e).records, id) == Executions(s.records, id)
  {
    hide Executions, Transfer, Accepted, C.Advance;
    var t := Step(s, e);
    if t.records != s.records {
      ExecutionsAppend(s.records, t.records[|s.records|], id);
      assert t.records == s.records + [t.records[|s.records|]];
    }
  }

  /** Only its sender can cancel it, and that request does. */
  lemma CancelledOnlyBySender(s: State, e: Event, id: string)
    requires id in s.recurring && !s.recurring[id].cancelled
    ensures id in Step(s, e).recurring
    ensures Step(s, e).recurring[id].cancelled <==> e == CancelAllowance(id, s.recurring[id].from)
  {
    hide Transfer, Accepted, C.Advance;
  }

  /** An allowance is as it was asked for, but for its next execution and whether it is cancelled. */
  ghost predicate AsAsked(es: seq<Event>, id: string, a: Recurring) {
    exists i :: 0 <= i < |es| && Asks(es[i], id, a)
  }

  predicate Asks(e: Event, id: string, a: Recurring) {
    && e.Subscribe? && e.id == id && e.from == a.from && e.to == a.to && e.amount == a.amount && e.amount > 0.0
    && e.frequency == a.frequency && e.end == a.end && a.start == if e.first.Some? then e.first.value else e.stamp
  }

  lemma SubscribedStep(s: State, e: Event, id: string)
    requires id in Step(s, e).recurring
    ensures var a := Step(s, e).recurring[id];
      if id in s.recurring then a == s.recurring[id].(next := a.next, cancelled := a.cancelled)
      else Asks(e, id, a) && a.next == a.start && !a.cancelled
  {
    hide Transfer, Allowed, ActiveMember, C.Advance, Due;
  }

  /** Over any run from nothing scheduled every allowance is as some request asked. */
  lemma {:induction false} AllowancesAreAsAsked(s: State, es: seq<Event>, id: string)
    requires s.recurring == map[] && id in Run(s, es).recurring
    ensures AsAsked(es, id, Run(s, es).recurring[id])
    decreases |es|
  {
    hide Step, Asks;
    assert es != [] by { RunNothing(s, es); }
    var n := |es| - 1;
    RunLast(s, es);
    var before := Run(s, es[..n]);
    SubscribedStep(before, es[n], id);
    if id in before.recurring {
      AllowancesAreAsAsked(s, es[..n], id);
      var i :| 0 <= i < n && Asks(es[..n][i], id, before.recurring[id]);
      SameTerms(es[i], id, before.recurring[id], Run(s, es).recurring[id]);
    }
  }

  lemma SameTerms(e: Event, id: string, a: Recurring, b: Recurring)
    requires Asks(e, id, a) && b == a.(next := b.next, cancelled := b.cancelled)
    ensures Asks(e, id, b)
  {
  }

  function CountBy(times: seq<int>, until: int): (n: nat)
    ensures n <= |times|
  {
    if times == [] then 0
    else CountBy(times[..|times| - 1], until) + if times[|times| - 1] <= until then 1 else 0
  }

  /** By any time T there are at most floor((T - start) / step) + 1 executions, and none before the start. */
  lemma {:induction false} ExecutionsByTime(a: Recurring, times: seq<int>, until: int)
    requires forall k :: 0 <= k < |times| ==> InTime(a, k, times[k])
    ensures until < a.start ==> CountBy(times, until) == 0
    ensures until >= a.start ==> CountBy(times, until) <= (until - a.start) / C.Step(a.frequency) + 1
  {
    if times != [] {
      hide C.Step, C.AdvanceBy;
      var n := |times| - 1;
      var step := C.Step(a.frequency);
      forall k | 0 <= k < n ensures InTime(a, k, times[..n][k]) {
        assert InTime(a, k, times[k]);
      }
      ExecutionsByTime(a, times[..n], until);
      assert InTime(a, n, times[n]);
      C.AdvanceByAtLeast(a.start, a.frequency, n);
      if times[n] <= until { QuotientAtLeast(until - a.start, n, step); }
    }
  }

  lemma NothingScheduledYet(s: State)
    requires s.recurring == map[] && s.records == []
    ensures ScheduleInv(s)
  {
  }

  /** So over any run, from nothing scheduled, an allowance's execution records by time T number at most that. */
  lemma RunExecutionsByTime(s: State, es: seq<Event>, id: string, until: int)
    requires s.recurring == map[] && s.records == [] && id in Run(s, es).recurring
    ensures var t := Run(s, es);
      var a, count := t.recurring[id], CountBy(Executions(t.records, id), until);
      if until < a.start then count == 0 else count <= (until - a.start) / C.Step(a.frequency) + 1
  {
    hide Run, CountBy, Executions, InTime, C.AdvanceBy, C.Step;
    NothingScheduledYet(s);
    RunKeepsSchedule(s, es);
    var t := Run(s, es);
    var a, times := t.recurring[id], Executions(t.records, id);
    assert Scheduled(a, times);
    ExecutionsByTime(a, times, until);
  }

  lemma QuotientAtLeast(x: int, n: nat, step: int)
    requires step > 0 && x >= n * step
    ensures x >= 0 && x / step >= n
  {
    assert n * step >= 0;
    var q := x / step;
    assert x == q * step + x % step;
    assert (q + 1) * step == q * step + step;
    LessFactor(n, q + 1, step);
  }

  lemma LessFactor(n: int, m: int, step: int)
    requires step > 0 && n * step < m * step
    ensures n < m
  {
  }

  // ----- The withdrawal window -----

  predicate Counts(r: Record, w: string, a: int, b: int) {
    r.to == w && r.completed && a <= r.createdAt <= b
  }

  /** Completed amounts w received from `a` to `b` inclusive. */
  function Within(rs: seq<Record>, w: string, a: int, b: int): real {
    if rs == [] then 0.0
    else
      var n := |rs| - 1;
      Within(rs[..n], w, a, b) + if Counts(rs[n], w, a, b) then rs[n].amount else 0.0
  }

  ghost predicate PositiveAmounts(rs: seq<Record>) {
    forall i :: 0 <= i < |rs| ==> rs[i].amount > 0.0
  }

  lemma {:induction false} WithinUsage(rs: seq<Record>, w: string, a: int, b: int, since: int)
    requires PositiveAmounts(rs) && since <= a
    ensures 0.0 <= Within(rs, w, a, b) <= Received(rs, w, since) && Redeemed(rs, w, since) >= 0.0
  {
    if rs != [] {
      WithinUsage(rs[..|rs| - 1], w, a, b, since);
    }
  }

  lemma WithinAppend(rs: seq<Record>, r: Record, w: string, a: int, b: int)
    ensures Within(rs + [r], w, a, b) ==
      Within(rs, w, a, b) + if Counts(r, w, a, b) then r.amount else 0.0
  {
    assert (rs + [r])[..|rs|] == rs;
  }

  function Length(period: C.Frequency): int {
    match period
    case Daily => 86_400_000
    case Weekly => 604_800_000
    case _ => 2_592_000_000
  }

  function Max(x: real, y: real): real { if x >= y then x else y }

  ghost predicate WindowSafe(rs: seq<Record>, w: string, limit: real, length: int) {
    forall a, b :: b - a <= length ==> Within(rs, w, a, b) <= Max(limit, 0.0)
  }

  /** How long before its limit check an event takes the time it stamps on its record. */
  function Lag(e: Event): int {
    match e
    case OneTime(_, _, _, stamp, checkAt) => checkAt - stamp
    case Execute(_, now, checkAt) => checkAt - now
    case _ => 0
  }

  ghost predicate Limited(s: State, w: string, limit: real, period: C.Frequency) {
    LimitsOf(s.members, w) == Limits(true, Some(limit), period)
  }

  /** The selected limit and period of w stay the same over the run, and no event lags more than `lag`. */
  ghost predicate Steady(s: State, es: seq<Event>, w: string, limit: real, period: C.Frequency, lag: int)
    decreases |es|
  {
    && Limited(s, w, limit, period)
    && (es != [] ==> Lag(es[0]) <= lag && Steady(Step(s, es[0]), es[1..], w, limit, period, lag))
  }

  lemma PayKeepsWindow(s: State, r: Record, checkAt: int, w: string, limit: real, period: C.Frequency, lag: int)
    requires PositiveAmounts(s.records) && r.amount > 0.0 && WindowSafe(s.records, w, limit, C.Period(period) - lag)
    requires Limited(s, w, limit, period) && checkAt - r.createdAt <= lag
    requires r.to == w ==> Allowed(s.members, s.records, w, r.amount, checkAt)
    ensures WindowSafe(s.records + [r], w, limit, C.Period(period) - lag)
  {
    hide LimitsOf;
    var since := checkAt - C.Period(period);
    forall a, b | b - a <= C.Period(period) - lag ensures Within(s.records + [r], w, a, b) <= Max(limit, 0.0) {
      hide Within, WindowSafe, Received, Redeemed;
      WithinAppend(s.records, r, w, a, b);
      assert Within(s.records, w, a, b) <= Max(limit, 0.0) by { WindowAt(s.records, w, limit, C.Period(period) - lag, a, b); }
      if Counts(r, w, a, b) {
        WithinUsage(s.records, w, a, b, since);
      }
    }
  }

  lemma WindowAt(rs: seq<Record>, w: string, limit: real, length: int, a: int, b: int)
    requires WindowSafe(rs, w, limit, length) && b - a <= length
    ensures Within(rs, w, a, b) <= Max(limit, 0.0)
  {
  }

  lemma StepKeepsWindow(s: State, e: Event, w: string, limit: real, period: C.Frequency, lag: int)
    requires PositiveAmounts(s.records) && WindowSafe(s.records, w, limit, C.Period(period) - lag)
    requires Limited(s, w, limit, period) && Lag(e) <= lag
    ensures PositiveAmounts(Step(s, e).records) && WindowSafe(Step(s, e).records, w, limit, C.Period(period) - lag)
  {
    hide LimitsOf, Allowed, Transfer, WindowSafe, Limited, C.Advance;
    var t := Step(s, e);
    if t.records != s.records {
      var r := t.records[|s.records|];
      var checkAt := e.checkAt;
      PayKeepsWindow(s, r, checkAt, w, limit, period, lag);
      assert t.records == s.records + [r];
    }
  }

  lemma {:induction false} WindowOverRun(s: State, es: seq<Event>, w: string, limit: real, period: C.Frequency, lag: int)
    requires PositiveAmounts(s.records) && WindowSafe(s.records, w, limit, C.Period(period) - lag)
    requires Steady(s, es, w, limit, period, lag)
    ensures WindowSafe(Run(s, es).records, w, limit, C.Period(period) - lag)
    decreases |es|
  {
    if es != [] {
      hide Step, WindowSafe, PositiveAmounts, Limited;
      StepKeepsWindow(s, es[0], w, limit, period, lag);
      WindowOverRun(Step(s, es[0]), es[1..], w, limit, period, lag);
    }
  }

  /**
   From an empty history, what a member receives in any interval no longer than its period of a day, a week
   or thirty days, less the largest lag, stays within its limit; without lag that is any interval of the
   period itself.
   */
  lemma WithdrawalWindow(s: State, es: seq<Event>, w: string, limit: real, period: C.Frequency, lag: int, a: int, b: int)
    requires s.records == [] && Steady(s, es, w, limit, period, lag) && b - a <= Length(period) - lag
    ensures Within(Run(s, es).records, w, a, b) <= if limit < 0.0 then 0.0 else limit
  {
    hide Run, Steady;
    C.StepLengths(period);
    WindowOverRun(s, es, w, limit, period, lag);
  }

  // ----- No longer interval is safe -----

  /** p, whose deposit backs each share with one unit, and its member m, whose limit is `limit` per period. */
  function Holding(deposits: real, received: Vault, records: seq<Record>, limit: real, period: C.Frequency): State {
    State(received["p" := Position(deposits, deposits)], [Membership("p", "m", true, Some(limit), period)], map[], records)
  }

  function Paid(amount: real, stamp: int): Record {
    Record(OneTimeTransfer, "p", "m", amount, true, stamp)
  }

  lemma SoleLimit(limit: real, period: C.Frequency)
    ensures LimitsOf([Membership("p", "m", true, Some(limit), period)], "m") == Limits(true, Some(limit), period)
  {
    assert [Membership("p", "m", true, Some(limit), period)][..0] == [];
  }

  lemma EvenDebit(deposits: real, amount: real)
    requires 0.0 < amount <= deposits
    ensures Debit(Position(deposits, deposits), amount).0 == Position(deposits - amount, deposits - amount)
  {
    assert deposits * (amount / deposits) == amount;
  }

  /** p can send m the whole limit when nothing m received is recent enough to count. */
  lemma PaysWholeLimit(deposits: real, received: Vault, records: seq<Record>, limit: real, period: C.Frequency, stamp: int, checkAt: int)
    returns (after: Vault)
    requires 0.0 < limit <= deposits && PeriodUsage(records, "m", period, checkAt) == 0.0
    ensures Step(Holding(deposits, received, records, limit, period), OneTime("p", "m", limit, stamp, checkAt)) ==
      Holding(deposits - limit, after, records + [Paid(limit, stamp)], limit, period)
  {
    hide PeriodUsage, LimitsOf, Debit;
    var s := Holding(deposits, received, records, limit, period);
    SoleLimit(limit, period);
    assert s.members[0].active;
    EvenDebit(deposits, limit);
    var left := Position(deposits - limit, deposits - limit);
    after := Transfer(s.vault, "p", "m", limit).value;
    assert after["p"] == left;
    assert after == after["p" := left];
  }

  lemma OneRecordUsage(r: Record, period: C.Frequency, now: int)
    requires r.kind == OneTimeTransfer && r.createdAt < now - C.Period(period)
    ensures PeriodUsage([], "m", period, now) == 0.0 && PeriodUsage([r], "m", period, now) == 0.0
  {
    assert [r][..0] == [];
    assert Received([], "m", now - C.Period(period)) == 0.0 && Redeemed([], "m", now - C.Period(period)) == 0.0;
  }

  lemma TwoRecordsWithin(amount: real, stamp: int)
    requires stamp >= 0
    ensures Within([Paid(amount, 0)] + [Paid(amount, stamp)], "m", 0, stamp) == 2.0 * amount
  {
    var r1, r2 := Paid(amount, 0), Paid(amount, stamp);
    assert [r1][..0] == [] && ([r1] + [r2])[..1] == [r1];
    assert Within([], "m", 0, stamp) == 0.0;
    assert Within([r1], "m", 0, stamp) == amount;
  }

  lemma TwoSteps(s: State, e1: Event, e2: Event, w: string, limit: real, period: C.Frequency, lag: int)
    requires Limited(s, w, limit, period) && Limited(Step(s, e1), w, limit, period)
    requires Limited(Step(Step(s, e1), e2), w, limit, period) && Lag(e1) <= lag && Lag(e2) <= lag
    ensures Run(s, [e1, e2]) == Step(Step(s, e1), e2)
    ensures Steady(s, [e1, e2], w, limit, period, lag)
  {
    hide Step, Limited;
    assert [e1, e2][1..] == [e2] && [e2][1..] == [];
    assert Run(Step(s, e1), [e2]) == Step(Step(s, e1), e2);
    assert Steady(Step(Step(s, e1), e2), [], w, limit, period, lag);
  }

  /** The stamp of the earliest second request that the first one is not held against. */
  function FirstFree(period: C.Frequency, lag: int): (stamp: int)
    ensures stamp >= 0 && stamp + lag > C.Period(period)
  {
    if lag > C.Period(period) then 0 else C.Period(period) - lag + 1
  }

  /**
   For every limit, period and lag: two requests for the whole limit, the second stamped as soon as a check
   that much later no longer sees the first, both go through.
   */
  lemma LagLetsWindowOverflow(limit: real, period: C.Frequency, lag: int) returns (s: State, es: seq<Event>)
    requires limit > 0.0
    ensures s.records == [] && Steady(s, es, "m", limit, period, lag)
    ensures Within(Run(s, es).records, "m", 0, FirstFree(period, lag)) == 2.0 * limit
  {
    hide Step, PeriodUsage, Within, LimitsOf, Run, Steady, FirstFree;
    var stamp := FirstFree(period, lag);
    var e1, e2 := OneTime("p", "m", limit, 0, lag), OneTime("p", "m", limit, stamp, stamp + lag);
    s, es := Holding(2.0 * limit, map[], [], limit, period), [e1, e2];
    OneRecordUsage(Paid(limit, 0), period, stamp + lag);
    assert PeriodUsage([], "m", period, lag) == 0.0 by { OneRecordUsage(Paid(limit, lag - C.Period(period) - 1), period, lag); }
    var v1 := PaysWholeLimit(2.0 * limit, map[], [], limit, period, 0, lag);
    assert [] + [Paid(limit, 0)] == [Paid(limit, 0)];
    var v2 := PaysWholeLimit(limit, v1, [Paid(limit, 0)], limit, period, stamp, stamp + lag);
    SoleLimit(limit, period);
    TwoSteps(s, e1, e2, "m", limit, period, lag);
    TwoRecordsWithin(limit, stamp);
  }

  /** Every run with at most this lag keeps every interval of this length within the limit. */
  ghost predicate AlwaysSafe(limit: real, period: C.Frequency, lag: int, length: int) {
    forall s: State, es: seq<Event>, w: string, a: int, b: int :: s.records == [] && Steady(s, es, w, limit, period, lag) && b - a <= length ==>
      Within(Run(s, es).records, w, a, b) <= limit
  }

  lemma {:induction false} WithinNothing(rs: seq<Record>, w: string, a: int, b: int)
    requires b < a
    ensures Within(rs, w, a, b) == 0.0
    decreases |rs|
  {
    if rs != [] { WithinNothing(rs[..|rs| - 1], w, a, b); }
  }

  /**
   The exact condition: intervals of a length are within the limit over all runs exactly when the length is
   at most the period less the lag (or there is nothing in them); so those of the period itself are exactly
   when no check comes later than its stamp.
   */
  lemma WindowSafeIff(limit: real, period: C.Frequency, lag: int, length: int)
    requires limit > 0.0
    ensures AlwaysSafe(limit, period, lag, length) <==> length < 0 || length <= Length(period) - lag
    ensures AlwaysSafe(limit, period, lag, Length(period)) <==> lag <= 0
  {
    LengthSafeIff(limit, period, lag, length);
    LengthSafeIff(limit, period, lag, Length(period));
  }

  lemma LengthSafeIff(limit: real, period: C.Frequency, lag: int, length: int)
    requires limit > 0.0
    ensures AlwaysSafe(limit, period, lag, length) <==> length < 0 || length <= Length(period) - lag
  {
    hide Steady, Run, Within;
    C.StepLengths(period);
    if length < 0 || length <= Length(period) - lag {
      forall s: State, es: seq<Event>, w: string, a: int, b: int | s.records == [] && Steady(s, es, w, limit, period, lag) && b - a <= length
        ensures Within(Run(s, es).records, w, a, b) <= limit
      {
        if b < a {
          WithinNothing(Run(s, es).records, w, a, b);
        } else {
          WithdrawalWindow(s, es, w, limit, period, lag, a, b);
        }
      }
    } else {
      var s, es := LagLetsWindowOverflow(limit, period, lag);
      assert FirstFree(period, lag) - 0 <= length;
      assert Within(Run(s, es).records, "m", 0, FirstFree(period, lag)) > limit;
    }
  }

  // ----- The handlers and the scheduler's tick -----

  /** The executions one tick attempts, decided before the first of them. */
  function DueEvents(recurring: map<string, Recurring>, order: seq<string>, now: int, clock: string -> int): (es: seq<Event>)
    ensures forall e <- es :: e.Execute? && e.now == now && e.id in order && e.id in recurring && Due(recurring[e.id], now)
  {
    if order == [] then []
    else
      var n := |order| - 1;
      var before := DueEvents(recurring, order[..n], now, clock);
      if order[n] in recurring && Due(recurring[order[n]], now) then before + [Execute(order[n], now, clock(order[n]))] else before
  }

  lemma {:induction false} RunAppend(s: State, es: seq<Event>, e: Event)
    ensures Run(s, es + [e]) == Step(Run(s, es), e)
    decreases |es|
  {
    if es == [] {
      assert [] + [e] == [e] && [e][1..] == [];
      assert Run(s, [e]) == Run(Step(s, e), []);
    } else {
      hide Step;
      assert (es + [e])[0] == es[0] && (es + [e])[1..] == es[1..] + [e];
      RunAppend(Step(s, es[0]), es[1..], e);
    }
  }

  /** One tick attempts every listed allowance that is due, once, and no other. */
  lemma {:induction false} TickAttemptsIff(recurring: map<string, Recurring>, order: seq<string>, now: int, clock: string -> int, id: string)
    requires Distinct(order)
    ensures var es := DueEvents(recurring, order, now, clock);
      && (Execute(id, now, clock(id)) in es <==>
            && id in order && id in recurring && !recurring[id].cancelled && now >= recurring[id].next
            && (recurring[id].end.None? || now < recurring[id].end.value))
      && (forall e <- es :: e == Execute(e.id, now, clock(e.id)))
      && (forall i, j :: 0 <= i < j < |es| ==> es[i] != es[j])
    decreases |order|
  {
    if order != [] {
      var n := |order| - 1;
      var init := order[..n];
      assert order == init + [order[n]];
      TickAttemptsIff(recurring, init, now, clock, id);
      forall e | e in DueEvents(recurring, init, now, clock) ensures e.id != order[n] {
        assert e.id in init;
      }
    }
  }

  class Accounts {
    var vault: Vault
    var members: seq<Membership>
    var recurring: map<string, Recurring>
    var records: seq<Record>

    constructor (s: State)
      ensures View() == s
    {
      vault, members, recurring, records := s.vault, s.members, s.recurring, s.records;
    }

    ghost function View(): State
      reads this
    {
      State(vault, members, recurring, records)
    }

    method PayFromVault(kind: Kind, from: string, to: string, amount: real, stamp: int)
      requires amount > 0.0
      modifies this`vault, this`records
      ensures View() == Pay(old(View()), kind, from, to, amount, stamp)
    {
      var ok := false;
      var sender := GetPosition(vault, from);
      if sender.deposited >= amount {
        var (left, moved) := Debit(sender, amount);
        vault := vault[from := left];
        var receiver := GetPosition(vault, to);
        vault := vault[to := Position(receiver.shares + moved, receiver.deposited + amount)];
        ok := true;
      }
      records := records + [Record(kind, from, to, amount, ok, stamp)];
    }

    method PostOneTime(from: string, to: string, amount: real, stamp: int, checkAt: int) returns (accepted: bool)
      modifies this
      ensures View() == Step(old(View()), OneTime(from, to, amount, stamp, checkAt))
      ensures accepted <==> Accepted(old(View()), from, to, amount, checkAt)
    {
      if amount <= 0.0 || !ActiveMember(members, from, to) { return false; }
      accepted := CheckLimit(members, records, to, amount, checkAt);
      if accepted { PayFromVault(OneTimeTransfer, from, to, amount, stamp); }
    }

    method PostRecurring(id: string, from: string, to: string, amount: real, frequency: C.Frequency, first: Option<int>, end: Option<int>, stamp: int, checkAt: int)
      returns (accepted: bool)
      requires id !in recurring
      modifies this
      ensures View() == Step(old(View()), Subscribe(id, from, to, amount, frequency, first, end, stamp, checkAt))
    {
      if amount <= 0.0 || !ActiveMember(members, from, to) { return false; }
      accepted := CheckLimit(members, records, to, amount, checkAt);
      if accepted {
        var start := if first.Some? then first.value else stamp;
        recurring := recurring[id := Recurring(from, to, amount, start, start, frequency, end, false)];
      }
    }

    method PutCancel(id: string, caller: string) returns (ok: bool)
      modifies this
      ensures View() == Step(old(View()), CancelAllowance(id, caller))
    {
      if id !in recurring || recurring[id].from != caller || recurring[id].cancelled { return false; }
      recurring := recurring[id := recurring[id].(cancelled := true)];
      ok := true;
    }

    /** One due allowance, from the copy of it the tick read at the start. */
    method ExecuteDue(id: string, copy: Recurring, now: int, checkAt: int)
      requires id in recurring && recurring[id] == copy && Due(copy, now) && copy.amount > 0.0
      modifies this
      ensures View() == Step(old(View()), Execute(id, now, checkAt))
      ensures recurring.Keys == old(recurring.Keys) && forall k :: k in recurring && k != id ==> recurring[k] == old(recurring)[k]
    {
      if !ActiveMember(members, copy.from, copy.to) { return; }
      var allowed := CheckLimit(members, records, copy.to, copy.amount, checkAt);
      if !allowed { return; }
      PayFromVault(Execution(id), copy.from, copy.to, copy.amount, now);
      recurring := recurring[id := copy.(next := C.Advance(copy.next, copy.frequency))];
    }

    method ProcessDueAllowances(order: seq<string>, now: int, clock: string -> int)
      requires Distinct(order) && forall id <- recurring :: recurring[id].amount > 0.0
      modifies this
      ensures View() == Run(old(View()), DueEvents(old(recurring), order, now, clock))
    {
      hide Step, Due;
      var copies := recurring;
      for i := 0 to |order|
        invariant View() == Run(old(View()), DueEvents(copies, order[..i], now, clock))
        invariant recurring.Keys == copies.Keys
        invariant forall j :: i <= j < |order| && order[j] in copies ==> recurring[order[j]] == copies[order[j]]
      {
        var id := order[i];
        assert order[..i + 1][..i] == order[..i];
        if id in copies && Due(copies[id], now) {
          RunAppend(old(View()), DueEvents(copies, order[..i], now, clock), Execute(id, now, clock(id)));
          ExecuteDue(id, copies[id], now, clock(id));
        }
      }
      assert order[..|order|] == order;
    }
  }
}
