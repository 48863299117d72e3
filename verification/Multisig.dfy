/**
 M-of-N approval of administrative actions: the first signer's request is recorded, later signers add
 their address, and the request that completes the count runs the handler with what was first asked.

 Each request, prune or rejection is one step. The handler's run is an entry appended to a log.
 */
module Multisig {
  import opened Wrappers

  datatype Action =
    | EmergencyRelease | TriggerAbort | TriggerResume | TriggerLegalConfirm
    | KycReview | UserRoleChange | AuthorityVerify | ForceRedeliver

  function Expiry(a: Action): nat {
    match a
    case EmergencyRelease | TriggerAbort | TriggerResume | TriggerLegalConfirm => 60 * 60 * 1000
    case _ => 4 * 60 * 60 * 1000
  }

  /** The configured count, at least 1, or the policy's 2. */
  function RequiredCount(configured: Option<int>): (n: nat)
    ensures n >= 1
  {
    match configured
    case None => 2
    case Some(n) => if n < 1 then 1 else n
  }

  type Fields = map<string, string>

  datatype Signature = Signature(address: string, signedAt: int)

  datatype Status = Pending | Approved | Rejected | Expired

  datatype Approval = Approval(
    action: Action, params: Fields, route: Fields, required: nat, signatures: seq<Signature>, status: Status,
    createdBy: string, createdAt: int, expiresAt: int)

  /** The handler's run: under which record, and with which body and route parameters. */
  datatype Execution = Execution(id: string, action: Action, body: Fields, route: Fields, at: int)

  datatype State = State(records: map<string, Approval>, executed: seq<Execution>)

  datatype Outcome = Forbidden | TooMany | Awaiting | Ran | NotFound | NotPending | Mismatch | Gone | AlreadySigned

  /**
   A protected request. `signer` is None without a wallet, `limited` is the rate limiter's verdict and
   `newId` the random id drawn if a record is created.
   */
  datatype Request = Request(
    action: Action, signer: Option<string>, limited: bool, body: Fields, route: Fields,
    configured: Option<int>, newId: string, now: int)

  function ApprovalId(q: Request): string {
    if "approval_id" in q.body then q.body["approval_id"] else ""
  }

  function Params(body: Fields): Fields {
    body - {"approval_id"}
  }

  predicate HasSigned(a: Approval, address: string) {
    exists i :: 0 <= i < |a.signatures| && a.signatures[i].address == address
  }

  function Created(q: Request): Approval
    requires q.signer.Some?
  {
    var n := RequiredCount(q.configured);
    Approval(q.action, Params(q.body), q.route, n, [Signature(q.signer.value, q.now)],
      if n <= 1 then Approved else Pending, q.signer.value, q.now, q.now + Expiry(q.action))
  }

  function Signed(a: Approval, q: Request): Approval
    requires q.signer.Some?
  {
    var b := a.(signatures := a.signatures + [Signature(q.signer.value, q.now)]);
    if |b.signatures| >= b.required then b.(status := Approved) else b
  }

  /** A drawn id is never taken: such a request does not occur. */
  function Handle(s: State, q: Request): (State, Outcome) {
    var id := ApprovalId(q);
    if q.signer.None? then (s, Forbidden)
    else if q.limited then (s, TooMany)
    else if id == "" then
      if q.newId in s.records then (s, Awaiting)
      else
        var a := Created(q);
        var records := s.records[q.newId := a];
        if a.status == Approved then (State(records, s.executed + [Execution(q.newId, q.action, a.params, q.route, q.now)]), Ran)
        else (State(records, s.executed), Awaiting)
    else if id !in s.records then (s, NotFound)
    else
      var a := s.records[id];
      if a.status != Pending then (s, NotPending)
      else if a.action != q.action then (s, Mismatch)
      else if q.now > a.expiresAt then (s.(records := s.records[id := a.(status := Expired)]), Gone)
      else if HasSigned(a, q.signer.value) then (s, AlreadySigned)
      else
        var b := Signed(a, q);
        var records := s.records[id := b];
        if b.status == Approved then (State(records, s.executed + [Execution(id, q.action, b.params, q.route + b.route, q.now)]), Ran)
        else (State(records, s.executed), Awaiting)
  }

  function Pruned(a: Approval, now: int): Approval {
    if a.status == Pending && now > a.expiresAt then a.(status := Expired) else a
  }

  function Prune(s: State, now: int): State {
    s.(records := map id | id in s.records :: Pruned(s.records[id], now))
  }

  function Reject(s: State, id: string): State {
    if id in s.records && s.records[id].status == Pending then s.(records := s.records[id := s.records[id].(status := Rejected)]) else s
  }

  datatype Event = Call(q: Request) | PruneAt(now: int) | RejectId(id: string)

  function Step(s: State, e: Event): State {
    match e
    case Call(q) => Handle(s, q).0
    case PruneAt(now) => Prune(s, now)
    case RejectId(id) => Reject(s, id)
  }

  /** The state after a history that starts with no records. */
  function Run(es: seq<Event>): State {
    if es == [] then State(map[], []) else Step(Run(es[..|es| - 1]), es[|es| - 1])
  }

  // ----- What the records say about the history -----

  predicate NamesNone(q: Request) {
    "approval_id" !in q.body || q.body["approval_id"] == ""
  }

  predicate Names(q: Request, id: string) {
    id != "" && "approval_id" in q.body && q.body["approval_id"] == id
  }

  /** e created the record id: an unlimited request by a wallet, naming no record. */
  predicate Creates(e: Event, id: string) {
    e.Call? && e.q.signer.Some? && !e.q.limited && NamesNone(e.q) && e.q.newId == id
  }

  /** e is a request for `action` by `address` that creates or names the record id. */
  predicate Signs(e: Event, id: string, action: Action, address: string) {
    && e.Call? && e.q.signer == Some(address) && !e.q.limited && e.q.action == action
    && (Names(e.q, id) || Creates(e, id))
  }

  ghost predicate CreatedAsAsked(es: seq<Event>, id: string, a: Approval) {
    exists i :: 0 <= i < |es| && Creates(es[i], id) && CreatedBy(es[i].q, a)
  }

  /** The first four actions are open for an hour, the others for four. */
  function Deadline(q: Request): int {
    if q.action == EmergencyRelease || q.action == TriggerAbort || q.action == TriggerResume || q.action == TriggerLegalConfirm
    then q.now + 3_600_000 else q.now + 14_400_000
  }

  predicate CreatedBy(q: Request, a: Approval) {
    && q.signer == Some(a.createdBy) && a.action == q.action && a.route == q.route
    && a.params == (map f | f in q.body && f != "approval_id" :: q.body[f])
    && (q.configured.None? ==> a.required == 2)
    && (q.configured.Some? ==> a.required == if q.configured.value < 1 then 1 else q.configured.value)
    && a.createdAt == q.now && a.expiresAt == Deadline(q)
    && |a.signatures| >= 1 && a.signatures[0] == Signature(a.createdBy, a.createdAt)
  }

  /** An expired record was touched after its deadline, and a rejected one was rejected. */
  ghost predicate ClosedForCause(es: seq<Event>, id: string, a: Approval) {
    && (a.status == Expired ==> exists i :: 0 <= i < |es| && TooLate(es[i], id, a.expiresAt))
    && (a.status == Rejected ==> RejectId(id) in es)
  }

  predicate TooLate(e: Event, id: string, deadline: int) {
    (e.PruneAt? && e.now > deadline) || (e.Call? && Names(e.q, id) && e.q.now > deadline)
  }

  ghost predicate SignedInHistory(es: seq<Event>, id: string, a: Approval, g: Signature) {
    exists i :: 0 <= i < |es| && Signs(es[i], id, a.action, g.address) && es[i].q.now == g.signedAt
  }

  predicate DistinctSigners(a: Approval) {
    forall i, j :: 0 <= i < j < |a.signatures| ==> a.signatures[i].address != a.signatures[j].address
  }

  ghost predicate RecordInv(es: seq<Event>, id: string, a: Approval) {
    && CreatedAsAsked(es, id, a)
    && DistinctSigners(a) && ClosedForCause(es, id, a)
    && (forall i :: 0 <= i < |a.signatures| ==> SignedInHistory(es, id, a, a.signatures[i]) && a.signatures[i].signedAt <= a.expiresAt)
    && (a.status == Pending ==> |a.signatures| < a.required)
    && (a.status == Approved ==> |a.signatures| >= a.required)
  }

  ghost predicate ExecutionInv(s: State, k: nat)
    requires k < |s.executed|
  {
    var x := s.executed[k];
    && x.id in s.records
    && var a := s.records[x.id];
      && a.status == Approved && x.action == a.action && x.body == a.params && x.at <= a.expiresAt
      && (forall f <- a.route :: f in x.route && x.route[f] == a.route[f])
      && exists i :: 0 <= i < |a.signatures| && a.signatures[i].signedAt == x.at
  }

  ghost predicate OncePerRecord(s: State) {
    forall j, k :: 0 <= j < k < |s.executed| ==> s.executed[j].id != s.executed[k].id
  }

  ghost predicate ApprovedRan(s: State) {
    forall id <- s.records :: s.records[id].status == Approved ==> exists k :: 0 <= k < |s.executed| && s.executed[k].id == id
  }

  ghost predicate Inv(es: seq<Event>, s: State) {
    && (forall id <- s.records :: RecordInv(es, id, s.records[id]))
    && (forall k :: 0 <= k < |s.executed| ==> ExecutionInv(s, k))
    && OncePerRecord(s) && ApprovedRan(s)
  }

  lemma HistoryGrows(es: seq<Event>, e: Event, id: string, a: Approval)
    requires RecordInv(es, id, a)
    ensures RecordInv(es + [e], id, a)
  {
    var fs := es + [e];
    var c :| 0 <= c < |es| && Creates(es[c], id) && CreatedBy(es[c].q, a);
    assert fs[c] == es[c];
    forall i | 0 <= i < |a.signatures| ensures SignedInHistory(fs, id, a, a.signatures[i]) {
      assert SignedInHistory(es, id, a, a.signatures[i]);
      var j :| 0 <= j < |es| && Signs(es[j], id, a.action, a.signatures[i].address) && es[j].q.now == a.signatures[i].signedAt;
      assert fs[j] == es[j];
    }
    if a.status == Expired {
      var j :| 0 <= j < |es| && TooLate(es[j], id, a.expiresAt);
      assert fs[j] == es[j];
    }
  }

  lemma NewRecord(es: seq<Event>, e: Event)
    requires e.Call? && Creates(e, e.q.newId)
    ensures RecordInv(es + [e], e.q.newId, Created(e.q))
  {
    var fs := es + [e];
    assert fs[|es|] == e;
    assert Signs(fs[|es|], e.q.newId, e.q.action, e.q.signer.value);
    assert CreatedBy(e.q, Created(e.q));
  }

  lemma OneMoreSignature(es: seq<Event>, e: Event, id: string, a: Approval)
    requires RecordInv(es, id, a) && a.status == Pending
    requires e.Call? && e.q.signer.Some? && !e.q.limited && Names(e.q, id) && a.action == e.q.action
    requires e.q.now <= a.expiresAt && !HasSigned(a, e.q.signer.value)
    ensures RecordInv(es + [e], id, Signed(a, e.q))
  {
    hide Created, Deadline;
    var fs, b := es + [e], Signed(a, e.q);
    HistoryGrows(es, e, id, a);
    assert fs[|es|] == e;
    assert Signs(fs[|es|], id, a.action, e.q.signer.value);
    var c :| 0 <= c < |fs| && Creates(fs[c], id) && CreatedBy(fs[c].q, a);
    assert CreatedBy(fs[c].q, b);
    forall i | 0 <= i < |b.signatures| ensures SignedInHistory(fs, id, b, b.signatures[i]) && b.signatures[i].signedAt <= b.expiresAt {
      if i < |a.signatures| {
        assert SignedInHistory(fs, id, a, a.signatures[i]);
      }
    }
  }

  lemma StatusOnly(es: seq<Event>, id: string, a: Approval, status: Status)
    requires RecordInv(es, id, a) && (status == Expired || status == Rejected)
    requires ClosedForCause(es, id, a.(status := status))
    ensures RecordInv(es, id, a.(status := status))
  {
    hide Created, Deadline;
    var b := a.(status := status);
    var c :| 0 <= c < |es| && Creates(es[c], id) && CreatedBy(es[c].q, a);
    assert CreatedBy(es[c].q, b);
    forall i | 0 <= i < |b.signatures| ensures SignedInHistory(es, id, b, b.signatures[i]) {
      assert SignedInHistory(es, id, a, a.signatures[i]);
    }
  }

  /** Approved, rejected and expired are absorbing: no request, prune or rejection changes such a record. */
  lemma ClosedRecordsStay(s: State, e: Event, id: string)
    requires id in s.records && s.records[id].status != Pending
    ensures id in Step(s, e).records && Step(s, e).records[id] == s.records[id]
  {
  }

  /** So they stay as they are over any further history. */
  lemma {:induction false} ClosedForever(es: seq<Event>, more: seq<Event>, id: string)
    requires id in Run(es).records && Run(es).records[id].status != Pending
    ensures id in Run(es + more).records && Run(es + more).records[id] == Run(es).records[id]
    decreases |more|
  {
    if more == [] {
      assert es + more == es;
    } else {
      hide Step;
      var n := |more| - 1;
      assert (es + more)[..|es| + n] == es + more[..n];
      ClosedForever(es, more[..n], id);
      ClosedRecordsStay(Run(es + more[..n]), more[n], id);
    }
  }

  /** What was asked never changes, and signatures are only added. */
  lemma TermsStay(s: State, e: Event, id: string)
    requires id in s.records
    ensures id in Step(s, e).records
    ensures var a, b := s.records[id], Step(s, e).records[id];
      && b == a.(signatures := b.signatures, status := b.status)
      && |a.signatures| <= |b.signatures| && b.signatures[..|a.signatures|] == a.signatures
  {
  }

  lemma CallKeepsRecords(es: seq<Event>, s: State, e: Event, id: string)
    requires e.Call? && (forall k <- s.records :: RecordInv(es, k, s.records[k])) && id in Step(s, e).records
    ensures RecordInv(es + [e], id, Step(s, e).records[id])
  {
    hide RecordInv, Signed, HasSigned, Created;
    var t := Step(s, e);
    if id in s.records { HistoryGrows(es, e, id, s.records[id]); }
    if id !in s.records {
      NewRecord(es, e);
    } else if t.records[id] != s.records[id] {
      var a := s.records[id];
      assert Names(e.q, id);
      if e.q.now > a.expiresAt {
        assert TooLate((es + [e])[|es|], id, a.expiresAt);
        StatusOnly(es + [e], id, a, Expired);
      } else {
        OneMoreSignature(es, e, id, a);
      }
    }
  }

  lemma StepKeepsRecords(es: seq<Event>, s: State, e: Event, id: string)
    requires (forall k <- s.records :: RecordInv(es, k, s.records[k])) && id in Step(s, e).records
    ensures RecordInv(es + [e], id, Step(s, e).records[id])
  {
    hide RecordInv, Handle;
    match e
    case Call(q) => CallKeepsRecords(es, s, e, id);
    case PruneAt(now) =>
      HistoryGrows(es, e, id, s.records[id]);
      if Pruned(s.records[id], now) != s.records[id] {
        assert TooLate((es + [e])[|es|], id, s.records[id].expiresAt);
        StatusOnly(es + [e], id, s.records[id], Expired);
      }
    case RejectId(_) =>
      HistoryGrows(es, e, id, s.records[id]);
      if Step(s, e).records[id] != s.records[id] {
        assert (es + [e])[|es|] == e;
        StatusOnly(es + [e], id, s.records[id], Rejected);
      }
  }

  predicate IsApproved(s: State, id: string) {
    id in s.records && s.records[id].status == Approved
  }

  /** Each step runs nothing and approves nothing, or runs the one record it approves. */
  lemma RunsAreApprovals(es: seq<Event>, s: State, e: Event)
    requires forall k <- s.records :: RecordInv(es, k, s.records[k])
    ensures var t, n := Step(s, e), |s.executed|;
      || (t.executed == s.executed && forall id :: IsApproved(t, id) ==> IsApproved(s, id))
      || (&& |t.executed| == n + 1 && t.executed[..n] == s.executed && ExecutionInv(t, n)
          && !IsApproved(s, t.executed[n].id)
          && forall id :: IsApproved(t, id) ==> IsApproved(s, id) || id == t.executed[n].id)
  {
    hide RecordInv, HasSigned;
    var t := Step(s, e);
    if t.executed != s.executed {
      var x := t.executed[|s.executed|];
      var a := t.records[x.id];
      assert a.signatures[|a.signatures| - 1].signedAt == x.at;
    }
  }

  lemma StepKeepsRuns(es: seq<Event>, s: State, e: Event)
    requires Inv(es, s)
    ensures var t := Step(s, e);
      (forall k :: 0 <= k < |t.executed| ==> ExecutionInv(t, k)) && OncePerRecord(t) && ApprovedRan(t)
  {
    hide RecordInv, Step;
    var t, n := Step(s, e), |s.executed|;
    RunsAreApprovals(es, s, e);
    assert forall k :: 0 <= k < n ==> t.executed[k] == s.executed[k];
    forall k | 0 <= k < n ensures ExecutionInv(t, k) && IsApproved(s, t.executed[k].id) {
      assert ExecutionInv(s, k);
      ClosedRecordsStay(s, e, s.executed[k].id);
    }
    forall id | id in t.records && t.records[id].status == Approved
      ensures exists k :: 0 <= k < |t.executed| && t.executed[k].id == id
    {
      assert IsApproved(t, id);
      if IsApproved(s, id) {
        var k :| 0 <= k < n && s.executed[k].id == id;
        assert t.executed[k].id == id;
      } else {
        assert t.executed[n].id == id;
      }
    }
  }

  lemma {:induction false} InvAlways(es: seq<Event>)
    ensures Inv(es, Run(es))
  {
    if es != [] {
      hide Step, RecordInv, ExecutionInv;
      var n := |es| - 1;
      var s, t := Run(es[..n]), Run(es);
      InvAlways(es[..n]);
      assert es == es[..n] + [es[n]];
      forall id | id in t.records ensures RecordInv(es, id, t.records[id]) {
        StepKeepsRecords(es[..n], s, es[n], id);
      }
      StepKeepsRuns(es[..n], s, es[n]);
    }
  }

  /** The history holds a request by the address for that action on that record, no later than the deadline. */
  ghost predicate SignedBy(es: seq<Event>, id: string, action: Action, address: string, deadline: int) {
    exists i :: 0 <= i < |es| && Signs(es[i], id, action, address) && es[i].q.now <= deadline
  }

  /** At least so many distinct addresses as were required when the record was created. */
  predicate Enough(q: Request, who: set<string>) {
    && |who| >= 1
    && (q.configured.None? ==> |who| >= 2)
    && (q.configured.Some? ==> |who| >= q.configured.value)
  }

  ghost predicate RanAsCreated(es: seq<Event>, x: Execution, create: nat) {
    && create < |es| && Creates(es[create], x.id)
    && var q := es[create].q;
      && x.action == q.action && x.body == (map f | f in q.body && f != "approval_id" :: q.body[f])
      && (forall f <- q.route :: f in x.route && x.route[f] == q.route[f])
      && x.at <= Deadline(q)
      && exists who: set<string> :: Enough(q, who) && forall w <- who :: SignedBy(es, x.id, q.action, w, Deadline(q))
  }

  function Addresses(gs: seq<Signature>): (r: set<string>)
    ensures forall w :: w in r <==> exists i :: 0 <= i < |gs| && gs[i].address == w
    ensures (forall i, j :: 0 <= i < j < |gs| ==> gs[i].address != gs[j].address) ==> |r| == |gs|
  {
    if gs == [] then {} else
      var r := Addresses(gs[..|gs| - 1]);
      assert gs == gs[..|gs| - 1] + [gs[|gs| - 1]];
      r + {gs[|gs| - 1].address}
  }

  /**
   In any history, every run of a protected handler is of a record some request created: with that
   request's action, body and route parameters, no later than its expiry, and after at least the count then
   required of distinct addresses asked for that same action on that same record. No record runs twice.
   */
  lemma RunsAreApproved(es: seq<Event>, k: nat)
    requires k < |Run(es).executed|
    ensures exists create :: RanAsCreated(es, Run(es).executed[k], create)
    ensures forall j :: 0 <= j < |Run(es).executed| && Run(es).executed[j].id == Run(es).executed[k].id ==> j == k
  {
    hide Run;
    InvAlways(es);
    var s := Run(es);
    var x := s.executed[k];
    assert ExecutionInv(s, k);
    var a := s.records[x.id];
    assert RecordInv(es, x.id, a);
    var c :| 0 <= c < |es| && Creates(es[c], x.id) && CreatedBy(es[c].q, a);
    var who := Addresses(a.signatures);
    forall w | w in who ensures SignedBy(es, x.id, a.action, w, a.expiresAt) {
      var i :| 0 <= i < |a.signatures| && a.signatures[i].address == w;
      assert SignedInHistory(es, x.id, a, a.signatures[i]);
    }
    assert Enough(es[c].q, who);
    assert RanAsCreated(es, x, c);
  }

  /**
   A pending record lacks signatures, and each further distinct signer in time runs the handler exactly when
   that makes up the number.
   */
  lemma NextSignerRunsIff(es: seq<Event>, id: string, q: Request)
    requires id in Run(es).records && Run(es).records[id].status == Pending
    requires Names(q, id) && q.signer.Some? && !q.limited && q.action == Run(es).records[id].action
    requires q.now <= Run(es).records[id].expiresAt
    requires forall i :: 0 <= i < |Run(es).records[id].signatures| ==> Run(es).records[id].signatures[i].address != q.signer.value
    ensures var s := Run(es); var a := s.records[id];
      && (Handle(s, q).1 == Ran <==> |a.signatures| + 1 >= a.required)
      && (Handle(s, q).1 == Ran ==> Handle(s, q).0.executed == s.executed + [Execution(id, a.action, a.params, q.route + a.route, q.now)])
      && Handle(s, q).0.records[id].signatures == a.signatures + [Signature(q.signer.value, q.now)]
  {
    hide Run;
  }

  /**
   Without a configured count no creating request ever runs the handler; the record it leaves has its
   signature alone for as long as it is pending, and runs, as created, at its second distinct signer.
   */
  lemma SecondSignerRuns(es: seq<Event>, create: nat, id: string, q: Request)
    requires create < |es| && Creates(es[create], id) && es[create].q.configured.None?
    requires id in Run(es).records && Run(es).records[id].status == Pending
    requires forall i :: 0 <= i < |es| && Creates(es[i], id) ==> i == create
    requires Names(q, id) && q.signer.Some? && !q.limited && q.action == es[create].q.action
    requires q.now <= Deadline(es[create].q) && q.signer != es[create].q.signer
    ensures var s, c := Run(es), es[create].q;
      && Handle(s, q).1 == Ran
      && |Handle(s, q).0.executed| == |s.executed| + 1
      && var x := Handle(s, q).0.executed[|s.executed|];
        && x.id == id && x.action == c.action && x.at == q.now
        && x.body == (map f | f in c.body && f != "approval_id" :: c.body[f])
        && (forall f <- c.route :: f in x.route && x.route[f] == c.route[f])
  {
    hide Run, Handle, Deadline;
    InvAlways(es);
    var a := Run(es).records[id];
    assert RecordInv(es, id, a);
    assert CreatedBy(es[create].q, a);
    assert |a.signatures| == 1;
    NextSignerRunsIff(es, id, q);
  }

  lemma UnconfiguredNeverRunsAlone(s: State, q: Request)
    requires NamesNone(q) && q.configured.None?
    ensures Handle(s, q).1 != Ran && Handle(s, q).0.executed == s.executed
  {
  }

  /** A configured count of one, or less, runs at once, with what was asked. */
  lemma ConfiguredOneRunsAtOnce(s: State, q: Request)
    requires NamesNone(q) && q.signer.Some? && !q.limited && q.newId !in s.records
    ensures Handle(s, q).1 == Ran <==> q.configured.Some? && q.configured.value <= 1
    ensures var asked := Execution(q.newId, q.action, map f | f in q.body && f != "approval_id" :: q.body[f], q.route, q.now);
      Handle(s, q).1 == Ran ==> Handle(s, q).0.executed == s.executed + [asked]
  {
    assert Params(q.body) == map f | f in q.body && f != "approval_id" :: q.body[f];
  }

  /** After a prune no record is pending past its deadline, and records still open are untouched. */
  lemma PruneClosesOverdue(s: State, now: int, id: string)
    requires id in s.records
    ensures var a, b := s.records[id], Step(s, PruneAt(now)).records[id];
      b == if a.status == Pending && now > a.expiresAt then a.(status := Expired) else a
  {
  }

  /** A rejection closes a pending record and nothing else. */
  lemma RejectClosesPending(s: State, id: string)
    requires id in s.records && s.records[id].status == Pending
    ensures Step(s, RejectId(id)).records == s.records[id := s.records[id].(status := Rejected)]
    ensures Step(s, RejectId(id)).executed == s.executed
  {
  }

  // ----- The middleware -----

  class Approvals {
    var records: map<string, Approval>
    ghost var executed: seq<Execution>

    constructor ()
      ensures View() == Run([])
    {
      records, executed := map[], [];
    }

    ghost function View(): State
      reads this
    {
      State(records, executed)
    }

    /** What `next()` hands to the handler, when it is called. */
    method RequireMultisig(q: Request) returns (outcome: Outcome, handed: Option<Execution>)
      requires q.newId !in records
      modifies this
      ensures (View(), outcome) == Handle(old(View()), q)
      ensures handed.Some? <==> outcome == Ran
      ensures executed == old(executed) + (if handed.Some? then [handed.value] else [])
    {
      handed := None;
      if q.signer.None? { return Forbidden, None; }
      if q.limited { return TooMany, None; }
      var signer := q.signer.value;
      var id := ApprovalId(q);
      if id == "" {
        var n := RequiredCount(q.configured);
        var a := Approval(q.action, Params(q.body), q.route, n, [Signature(signer, q.now)], Pending, signer, q.now, q.now + Expiry(q.action));
        records := records[q.newId := a];
        if n <= 1 {
          a := a.(status := Approved);
          records := records[q.newId := a];
          var x := Execution(q.newId, q.action, a.params, q.route, q.now);
          executed := executed + [x];
          assert a == Created(q) && records == old(records)[q.newId := a];
          return Ran, Some(x);
        }
        return Awaiting, None;
      }
      if id !in records { return NotFound, None; }
      var a := records[id];
      if a.status != Pending { return NotPending, None; }
      if a.action != q.action { return Mismatch, None; }
      if q.now > a.expiresAt {
        records := records[id := a.(status := Expired)];
        return Gone, None;
      }
      if HasSigned(a, signer) { return AlreadySigned, None; }
      a := a.(signatures := a.signatures + [Signature(signer, q.now)]);
      if |a.signatures| >= a.required {
        a := a.(status := Approved);
        records := records[id := a];
        var x := Execution(id, q.action, a.params, q.route + a.route, q.now);
        executed := executed + [x];
        return Ran, Some(x);
      }
      records := records[id := a];
      outcome := Awaiting;
    }

    /** `pending` lists the pending records. */
    method PruneExpired(pending: seq<string>, now: int)
      requires forall id :: id in pending <==> id in records && records[id].status == Pending
      modifies this`records
      ensures View() == Step(old(View()), PruneAt(now))
    {
      var copies := records;
      for i := 0 to |pending|
        invariant records == map id | id in copies :: if id in pending[..i] then Pruned(copies[id], now) else copies[id]
      {
        var id := pending[i];
        assert pending[..i + 1] == pending[..i] + [id];
        var a := copies[id];
        if now > a.expiresAt { records := records[id := a.(status := Expired)]; }
      }
      assert pending[..|pending|] == pending;
    }

    method RejectApproval(id: string) returns (ok: bool)
      modifies this`records
      ensures View() == Step(old(View()), RejectId(id))
      ensures ok <==> id in old(records) && old(records)[id].status == Pending
    {
      if id !in records || records[id].status != Pending { return false; }
      records := records[id := records[id].(status := Rejected)];
      ok := true;
    }
  }
}
