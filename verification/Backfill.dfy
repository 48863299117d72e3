/**
 The migration that gives every record a plan id and moves the rows whose key contains one.

 A table is a map from key to row. An absent plan id is "", and the text of an undefined one is
 "undefined", as string concatenation makes it. SHA-256 in hexadecimal is a parameter.
 */
module Backfill {
  import opened Wrappers
  import opened Text
  import opened Tables
  import D = Decimal

  datatype Plan = Plan(planId: string, createdAt: int, recipients: nat)

  /** Records stored under the id they carry. */
  datatype Owned =
    | Binding(id: string, plan: string, active: bool, recipients: nat)
    | Trigger(id: string, plan: string, recipientIndex: int)

  /** Rows whose key is made of their fields. */
  datatype Row =
    | PathRow(wallet: string, plan: string, body: string)
    | IndexRow(first: string, wallet: string, plan: string, body: string)
    | LogRow(wallet: string, authority: string, recipient: int, plan: string, status: string)

  type Hash = string -> string

  ghost predicate HexDigest(hash: Hash) {
    forall s :: |hash(s)| == 64
  }

  ghost predicate CollisionFree(hash: Hash) {
    forall s, t :: hash(s) == hash(t) ==> s == t
  }

  // ----- Step 1 and the current plan -----

  function SetPlans(t: map<string, Plan>, hash: Hash): map<string, Plan>
    requires forall s :: |hash(s)| == 64
  {
    map k | k in t :: if t[k].planId != "" then t[k] else t[k].(planId := hash(k)[..32])
  }

  function Planless(t: map<string, Plan>): set<string> {
    set k | k in t && t[k].planId == ""
  }

  /** The newest wanted plan, the first listed one among equals: sorting by age and taking the first. */
  function LatestWhere(plans: map<string, Plan>, ids: seq<string>, want: Plan -> bool): (r: Option<Plan>)
    ensures r.Some? ==> want(r.value) && r.value in plans.Values
    ensures r.Some? ==> forall k <- ids :: k in plans && want(plans[k]) ==> plans[k].createdAt <= r.value.createdAt
    ensures r.None? ==> forall k <- ids :: !(k in plans && want(plans[k]))
  {
    if ids == [] then None
    else
      var rest := LatestWhere(plans, ids[1..], want);
      if ids[0] in plans && want(plans[ids[0]]) && (rest.None? || plans[ids[0]].createdAt >= rest.value.createdAt) then
        Some(plans[ids[0]])
      else rest
  }

  /** What is asked of a plan: nothing, a number of recipients, or at least one. */
  datatype Wanted = AnyPlan | Exactly(n: int) | AtLeast(n: int)

  predicate Wants(w: Wanted, p: Plan) {
    match w
    case AnyPlan => true
    case Exactly(n) => p.recipients == n
    case AtLeast(n) => p.recipients >= n
  }

  /** The plan listed at i is wanted, none wanted is newer, and none listed before it is as new. */
  ghost predicate FirstNewest(plans: map<string, Plan>, ids: seq<string>, w: Wanted, i: nat) {
    && i < |ids| && ids[i] in plans && Wants(w, plans[ids[i]])
    && forall j :: 0 <= j < |ids| && ids[j] in plans && Wants(w, plans[ids[j]]) ==>
         if j < i then plans[ids[j]].createdAt < plans[ids[i]].createdAt else plans[ids[j]].createdAt <= plans[ids[i]].createdAt
  }

  lemma {:induction false} LatestIsFirstNewest(plans: map<string, Plan>, ids: seq<string>, want: Plan -> bool, w: Wanted)
    returns (i: nat)
    requires forall p :: want(p) <==> Wants(w, p)
    ensures var r := LatestWhere(plans, ids, want);
      r.Some? ==> FirstNewest(plans, ids, w, i) && i < |ids| && ids[i] in plans && r.value == plans[ids[i]]
    decreases |ids|
  {
    i := 0;
    if ids != [] {
      hide Wants;
      var rest := LatestWhere(plans, ids[1..], want);
      var k := LatestIsFirstNewest(plans, ids[1..], want, w);
      if ids[0] in plans && want(plans[ids[0]]) && (rest.None? || plans[ids[0]].createdAt >= rest.value.createdAt) {
        HeadIsFirstNewest(plans, ids, want, w);
      } else if rest.Some? {
        i := k + 1;
        TailIsFirstNewest(plans, ids, w, k);
      }
    }
  }

  lemma HeadIsFirstNewest(plans: map<string, Plan>, ids: seq<string>, want: Plan -> bool, w: Wanted)
    requires ids != [] && ids[0] in plans && Wants(w, plans[ids[0]]) && forall p :: want(p) <==> Wants(w, p)
    requires var rest := LatestWhere(plans, ids[1..], want); rest.None? || plans[ids[0]].createdAt >= rest.value.createdAt
    ensures FirstNewest(plans, ids, w, 0)
  {
    hide Wants, LatestWhere;
    forall j | 0 < j < |ids| && ids[j] in plans && Wants(w, plans[ids[j]])
      ensures plans[ids[j]].createdAt <= plans[ids[0]].createdAt
    {
      assert ids[1..][j - 1] == ids[j];
      assert ids[j] in ids[1..];
    }
  }

  lemma TailIsFirstNewest(plans: map<string, Plan>, ids: seq<string>, w: Wanted, k: nat)
    requires ids != [] && FirstNewest(plans, ids[1..], w, k)
    requires ids[0] in plans && Wants(w, plans[ids[0]]) ==> plans[ids[0]].createdAt < plans[ids[1..][k]].createdAt
    ensures FirstNewest(plans, ids, w, k + 1)
  {
    hide Wants;
    var rest := ids[1..];
    assert forall j :: 1 <= j < |ids| ==> ids[j] == rest[j - 1];
  }

  datatype Current = Current(plan: Option<string>, recipients: nat) {
    function Field(): string { if plan.Some? then plan.value else "" }
    function Text(): string { if plan.Some? then plan.value else "undefined" }
  }

  function CurrentOf(plans: map<string, Plan>, ids: seq<string>): Current {
    match LatestWhere(plans, ids, _ => true)
    case None => Current(None, 0)
    case Some(p) => Current(Some(p.planId), p.recipients)
  }

  // ----- Steps 2 and 7: records that keep their key -----

  function Assigned(r: Owned, plans: map<string, Plan>, ids: seq<string>): string {
    var c := CurrentOf(plans, ids);
    var match_ :=
      if r.Binding? then
        if r.active then None else LatestWhere(plans, ids, (p: Plan) => p.recipients == r.recipients)
      else if r.recipientIndex <= c.recipients then None
      else LatestWhere(plans, ids, (p: Plan) => p.recipients >= r.recipientIndex);
    if match_.Some? then match_.value.planId else c.Field()
  }

  function PatchOne(t: map<string, Owned>, r: Owned, plans: map<string, Plan>, ids: seq<string>): (map<string, Owned>, nat) {
    if r.plan != "" then (t, 0)
    else (if r.id in t then t[r.id := r.(plan := Assigned(r, plans, ids))] else t, 1)
  }

  function PatchAll(t: map<string, Owned>, n: nat, rs: seq<Owned>, plans: map<string, Plan>, ids: seq<string>): (map<string, Owned>, nat)
    decreases |rs|
  {
    if rs == [] then (t, n)
    else
      var (t1, d) := PatchOne(t, rs[0], plans, ids);
      PatchAll(t1, n + d, rs[1..], plans, ids)
  }

  predicate OwnKeys(t: map<string, Owned>) {
    forall k <- t :: t[k].id == k
  }

  function Records(t: map<string, Owned>, ids: seq<string>): seq<Owned>
    requires Covers(ids, t)
  {
    seq(|ids|, i requires 0 <= i < |ids| => t[ids[i]])
  }

  // ----- Steps 3 to 6: rows that move -----

  function NewKey(id: string, r: Row, c: Current, hash: Hash): string {
    if r.PathRow? then hash(r.wallet + ":" + c.Text()) else id + "_" + c.Text()
  }

  function Kept(r: Row, c: Current): bool {
    !r.LogRow? || 1 <= r.recipient <= c.recipients
  }

  function WithPlan(r: Row, p: string): (s: Row)
    ensures s.plan == p
  {
    r.(plan := p)
  }

  predicate Waiting(t: map<string, Row>, k: string) {
    k in t && t[k].plan == ""
  }

  function RekeyOne(t: map<string, Row>, id: string, c: Current, hash: Hash): (map<string, Row>, nat) {
    if !Waiting(t, id) then (t, 0)
    else if !Kept(t[id], c) then (t - {id}, 1)
    else
      var key, r := NewKey(id, t[id], c, hash), WithPlan(t[id], c.Field());
      (if key == id then t[id := r] else t[key := r] - {id}, 1)
  }

  function RekeyAll(t: map<string, Row>, n: nat, ids: seq<string>, c: Current, hash: Hash): (map<string, Row>, nat)
    decreases |ids|
  {
    if ids == [] then (t, n)
    else
      var (t1, d) := RekeyOne(t, ids[0], c, hash);
      RekeyAll(t1, n + d, ids[1..], c, hash)
  }

  // ----- The whole run -----

  datatype Db = Db(
    plans: map<string, Plan>, bindings: map<string, Owned>, paths: map<string, Row>,
    recipientIndex: map<string, Row>, mnemonicIndex: map<string, Row>, deliveryLog: map<string, Row>,
    triggers: map<string, Owned>)

  /** The order in which each table lists its keys. */
  datatype Orders = Orders(
    plans: seq<string>, bindings: seq<string>, paths: seq<string>, recipientIndex: seq<string>,
    mnemonicIndex: seq<string>, deliveryLog: seq<string>, triggers: seq<string>)

  predicate Lists(o: Orders, d: Db) {
    && Covers(o.plans, d.plans) && Covers(o.bindings, d.bindings) && Covers(o.paths, d.paths)
    && Covers(o.recipientIndex, d.recipientIndex) && Covers(o.mnemonicIndex, d.mnemonicIndex)
    && Covers(o.deliveryLog, d.deliveryLog) && Covers(o.triggers, d.triggers)
  }

  function Run(d: Db, o: Orders, hash: Hash): (Db, nat)
    requires Lists(o, d) && forall s :: |hash(s)| == 64
  {
    var plans := SetPlans(d.plans, hash);
    var c := CurrentOf(plans, o.plans);
    var bindings := PatchAll(d.bindings, 0, Records(d.bindings, o.bindings), plans, o.plans);
    var paths := RekeyAll(d.paths, 0, o.paths, c, hash);
    var recipientIndex := RekeyAll(d.recipientIndex, 0, o.recipientIndex, c, hash);
    var mnemonicIndex := RekeyAll(d.mnemonicIndex, 0, o.mnemonicIndex, c, hash);
    var deliveryLog := RekeyAll(d.deliveryLog, 0, o.deliveryLog, c, hash);
    var triggers := PatchAll(d.triggers, 0, Records(d.triggers, o.triggers), plans, o.plans);
    (Db(plans, bindings.0, paths.0, recipientIndex.0, mnemonicIndex.0, deliveryLog.0, triggers.0),
     |Planless(d.plans)| + bindings.1 + paths.1 + recipientIndex.1 + mnemonicIndex.1 + deliveryLog.1 + triggers.1)
  }

  // ----- Idempotence -----

  lemma {:induction false} PatchNothing(t: map<string, Owned>, n: nat, rs: seq<Owned>, plans: map<string, Plan>, ids: seq<string>)
    ensures PatchAll(t, n, rs, plans, ids).1 >= n
    ensures PatchAll(t, n, rs, plans, ids).1 == n <==> forall r <- rs :: r.plan != ""
    ensures PatchAll(t, n, rs, plans, ids).1 == n ==> PatchAll(t, n, rs, plans, ids).0 == t
    decreases |rs|
  {
    if rs != [] {
      var (t1, d) := PatchOne(t, rs[0], plans, ids);
      PatchNothing(t1, n + d, rs[1..], plans, ids);
      assert rs == [rs[0]] + rs[1..];
    }
  }

  lemma {:induction false} RekeyNothing(t: map<string, Row>, n: nat, ids: seq<string>, c: Current, hash: Hash)
    ensures RekeyAll(t, n, ids, c, hash).1 >= n
    ensures RekeyAll(t, n, ids, c, hash).1 == n <==> forall k <- ids :: !Waiting(t, k)
    ensures RekeyAll(t, n, ids, c, hash).1 == n ==> RekeyAll(t, n, ids, c, hash).0 == t
    decreases |ids|
  {
    if ids != [] {
      var (t1, d) := RekeyOne(t, ids[0], c, hash);
      RekeyNothing(t1, n + d, ids[1..], c, hash);
      assert ids == [ids[0]] + ids[1..];
    }
  }

  function Patched(r: Owned, plans: map<string, Plan>, ids: seq<string>): Owned {
    if r.plan == "" then r.(plan := Assigned(r, plans, ids)) else r
  }

  /** What patching leaves at one key whose only record is r. */
  lemma {:induction false} PatchedRow(t: map<string, Owned>, n: nat, rs: seq<Owned>, plans: map<string, Plan>, ids: seq<string>, r: Owned)
    requires forall q <- rs :: q.id == r.id ==> q == r
    requires r.id in t && (t[r.id] == Patched(r, plans, ids) || (t[r.id] == r && r in rs))
    ensures r.id in PatchAll(t, n, rs, plans, ids).0
    ensures PatchAll(t, n, rs, plans, ids).0[r.id] == Patched(r, plans, ids)
    decreases |rs|
  {
    if rs != [] {
      hide Assigned;
      var (t1, d) := PatchOne(t, rs[0], plans, ids);
      assert rs == [rs[0]] + rs[1..];
      PatchedRow(t1, n + d, rs[1..], plans, ids, r);
    }
  }

  lemma {:induction false} PatchKeepsKeys(t: map<string, Owned>, n: nat, rs: seq<Owned>, plans: map<string, Plan>, ids: seq<string>)
    ensures PatchAll(t, n, rs, plans, ids).0.Keys == t.Keys
    decreases |rs|
  {
    if rs != [] {
      hide Assigned;
      var (t1, d) := PatchOne(t, rs[0], plans, ids);
      PatchKeepsKeys(t1, n + d, rs[1..], plans, ids);
    }
  }

  /** Every record keeps its key and everything but a missing plan id, in whatever order they are listed. */
  lemma PatchedTable(t: map<string, Owned>, order: seq<string>, plans: map<string, Plan>, ids: seq<string>)
    requires OwnKeys(t) && Covers(order, t)
    ensures PatchAll(t, 0, Records(t, order), plans, ids).0 == map k | k in t :: Patched(t[k], plans, ids)
  {
    hide Assigned, PatchAll;
    var rs := Records(t, order);
    PatchKeepsKeys(t, 0, rs, plans, ids);
    forall k | k in t ensures PatchAll(t, 0, rs, plans, ids).0[k] == Patched(t[k], plans, ids) {
      var i :| 0 <= i < |order| && order[i] == k;
      assert rs[i] == t[k];
      PatchedRow(t, 0, rs, plans, ids, t[k]);
    }
  }

  ghost predicate AllPlanned(t: map<string, Row>) {
    forall k <- t :: t[k].plan != ""
  }

  /** With a current plan no row is left waiting. */
  lemma {:induction false} RekeyLeavesNoneWaiting(t: map<string, Row>, n: nat, ids: seq<string>, c: Current, hash: Hash)
    requires c.Field() != "" || forall k :: Waiting(t, k) ==> !Kept(t[k], c)
    requires forall k :: Waiting(t, k) ==> k in ids
    ensures AllPlanned(RekeyAll(t, n, ids, c, hash).0)
    decreases |ids|
  {
    if ids == [] {
      assert forall k <- t :: !Waiting(t, k);
    } else {
      var (t1, d) := RekeyOne(t, ids[0], c, hash);
      assert ids == [ids[0]] + ids[1..];
      forall k | Waiting(t1, k) ensures Waiting(t, k) && k != ids[0] && t1[k] == t[k] {}
      RekeyLeavesNoneWaiting(t1, n + d, ids[1..], c, hash);
    }
  }

  ghost predicate NoLogs(t: map<string, Row>) {
    forall k <- t :: !t[k].LogRow?
  }

  /** Without one, a waiting row is still waiting, maybe under another key. */
  lemma {:induction false} RekeyLeavesSomeWaiting(t: map<string, Row>, n: nat, ids: seq<string>, c: Current, hash: Hash, w: string)
    returns (k: string)
    requires c.Field() == "" && NoLogs(t) && Waiting(t, w)
    ensures Waiting(RekeyAll(t, n, ids, c, hash).0, k)
    decreases |ids|
  {
    k := w;
    if ids != [] {
      var (t1, d) := RekeyOne(t, ids[0], c, hash);
      var u := if Waiting(t, ids[0]) then NewKey(ids[0], t[ids[0]], c, hash) else w;
      k := RekeyLeavesSomeWaiting(t1, n + d, ids[1..], c, hash, u);
    }
  }

  /** Each table holds rows of its own kind, and each owned record is stored under its id. */
  ghost predicate WellFormed(d: Db) {
    && OwnKeys(d.bindings) && OwnKeys(d.triggers)
    && NoLogs(d.paths) && NoLogs(d.recipientIndex) && NoLogs(d.mnemonicIndex)
    && (forall k <- d.deliveryLog :: d.deliveryLog[k].LogRow?)
  }

  ghost predicate AllOwnedPlanned(t: map<string, Owned>) {
    forall k <- t :: t[k].plan != ""
  }

  ghost predicate NothingUnplanned(d: Db) {
    && AllOwnedPlanned(d.bindings) && AllOwnedPlanned(d.triggers)
    && AllPlanned(d.paths) && AllPlanned(d.recipientIndex) && AllPlanned(d.mnemonicIndex)
  }

  /** Which plans the record may belong to: the current one, or an older one of its size if there is one. */
  predicate Choice(r: Owned, w: Wanted, newest: Plan, plans: map<string, Plan>, ids: seq<string>) {
    match r
    case Binding(_, _, active, recipients) =>
      if !active && exists k <- ids :: k in plans && plans[k].recipients == recipients then w == Exactly(recipients)
      else w == AnyPlan
    case Trigger(_, _, index) =>
      if index > newest.recipients && exists k <- ids :: k in plans && plans[k].recipients >= index then w == AtLeast(index)
      else w == AnyPlan
  }

  /**
   A record without a plan gets the id of the newest plan, the first listed among equals; but one that is
   not active, or whose recipient the newest plan does not have, that of the newest plan of its size.
   */
  lemma AssignedPlan(r: Owned, plans: map<string, Plan>, ids: seq<string>) returns (newest: nat, w: Wanted, i: nat)
    requires Covers(ids, plans) && plans != map[]
    ensures FirstNewest(plans, ids, AnyPlan, newest) && Choice(r, w, plans[ids[newest]], plans, ids)
    ensures FirstNewest(plans, ids, w, i) && Assigned(r, plans, ids) == plans[ids[i]].planId
  {
    hide FirstNewest, LatestWhere;
    var k :| k in plans;
    assert k in ids;
    newest := LatestIsFirstNewest(plans, ids, _ => true, AnyPlan);
    var n := plans[ids[newest]];
    w, i := AnyPlan, newest;
    assert CurrentOf(plans, ids) == Current(Some(n.planId), n.recipients);
    if r.Binding? && !r.active {
      var want := (p: Plan) => p.recipients == r.recipients;
      var j := LatestIsFirstNewest(plans, ids, want, Exactly(r.recipients));
      if LatestWhere(plans, ids, want).Some? { w, i := Exactly(r.recipients), j; }
    }
    if r.Trigger? && r.recipientIndex > n.recipients {
      var want := (p: Plan) => p.recipients >= r.recipientIndex;
      var j := LatestIsFirstNewest(plans, ids, want, AtLeast(r.recipientIndex));
      if LatestWhere(plans, ids, want).Some? { w, i := AtLeast(r.recipientIndex), j; }
    }
  }

  lemma AssignedIsPlan(r: Owned, plans: map<string, Plan>, ids: seq<string>)
    requires forall k <- plans :: plans[k].planId != ""
    requires Covers(ids, plans)
    ensures Assigned(r, plans, ids) != "" <==> plans != map[]
    ensures CurrentOf(plans, ids).Field() != "" <==> plans != map[]
    ensures plans == map[] ==> CurrentOf(plans, ids) == Current(None, 0)
  {
    if plans != map[] {
      var k :| k in plans;
      assert k in ids;
    }
  }

  lemma OwnedAfter(t: map<string, Owned>, order: seq<string>, plans: map<string, Plan>, ids: seq<string>)
    requires OwnKeys(t) && Covers(order, t) && Covers(ids, plans) && forall k <- plans :: plans[k].planId != ""
    ensures OwnKeys(PatchAll(t, 0, Records(t, order), plans, ids).0)
    ensures AllOwnedPlanned(PatchAll(t, 0, Records(t, order), plans, ids).0) <==> plans != map[] || AllOwnedPlanned(t)
  {
    hide Assigned, PatchAll, CurrentOf;
    PatchedTable(t, order, plans, ids);
    var u := PatchAll(t, 0, Records(t, order), plans, ids).0;
    forall k | k in t ensures u[k].plan != "" <==> plans != map[] || t[k].plan != "" {
      AssignedIsPlan(t[k], plans, ids);
    }
    assert forall k :: k in u <==> k in t;
  }

  lemma RowsAfter(t: map<string, Row>, order: seq<string>, c: Current, hash: Hash)
    requires NoLogs(t) && Covers(order, t)
    ensures AllPlanned(RekeyAll(t, 0, order, c, hash).0) <==> c.Field() != "" || AllPlanned(t)
  {
    var u := RekeyAll(t, 0, order, c, hash).0;
    if c.Field() != "" {
      RekeyLeavesNoneWaiting(t, 0, order, c, hash);
    } else if AllPlanned(t) {
      RekeyNothing(t, 0, order, c, hash);
    } else {
      var w :| w in t && t[w].plan == "";
      var k := RekeyLeavesSomeWaiting(t, 0, order, c, hash, w);
      assert Waiting(u, k);
    }
  }

  lemma SecondPatch(t: map<string, Owned>, order: seq<string>, plans: map<string, Plan>, ids: seq<string>)
    requires Covers(order, t)
    ensures var p := PatchAll(t, 0, Records(t, order), plans, ids);
      (p.1 == 0 <==> AllOwnedPlanned(t)) && (p.1 == 0 ==> p.0 == t)
  {
    var rs := Records(t, order);
    PatchNothing(t, 0, rs, plans, ids);
    if r :| r in rs && r.plan == "" {
      var i :| 0 <= i < |rs| && rs[i] == r;
      assert order[i] in t;
    }
    if k :| k in t && t[k].plan == "" {
      var i :| 0 <= i < |order| && order[i] == k;
      assert rs[i] in rs;
    }
  }

  lemma SecondRekey(t: map<string, Row>, order: seq<string>, c: Current, hash: Hash)
    requires Covers(order, t)
    ensures var p := RekeyAll(t, 0, order, c, hash); (p.1 == 0 <==> AllPlanned(t)) && (p.1 == 0 ==> p.0 == t)
  {
    RekeyNothing(t, 0, order, c, hash);
    if k :| k in t && t[k].plan == "" {
      assert Waiting(t, k) && k in order;
    }
  }

  lemma PlansAfter(t: map<string, Plan>, hash: Hash)
    requires HexDigest(hash)
    ensures forall k <- SetPlans(t, hash) :: SetPlans(t, hash)[k].planId != ""
    ensures SetPlans(t, hash).Keys == t.Keys && SetPlans(SetPlans(t, hash), hash) == SetPlans(t, hash)
    ensures Planless(SetPlans(t, hash)) == {}
  {
    forall k | k in t && t[k].planId == "" ensures SetPlans(t, hash)[k].planId != "" {
      assert |hash(k)[..32]| == 32;
    }
  }

  /** Every plan keeps its age and size, and its id if it has one; else it gets 32 characters of its key's hash. */
  lemma PlansGetIds(t: map<string, Plan>, hash: Hash, k: string)
    requires HexDigest(hash) && k in t
    ensures var u := SetPlans(t, hash);
      && u.Keys == t.Keys && u[k].createdAt == t[k].createdAt && u[k].recipients == t[k].recipients
      && (t[k].planId != "" ==> u[k].planId == t[k].planId)
      && (t[k].planId == "" ==> |u[k].planId| == 32 && u[k].planId <= hash(k))
  {
  }

  /** The current plan is the newest, the first listed among equals. */
  lemma CurrentIsNewest(plans: map<string, Plan>, ids: seq<string>) returns (i: nat)
    requires Covers(ids, plans) && plans != map[]
    ensures FirstNewest(plans, ids, AnyPlan, i)
    ensures CurrentOf(plans, ids) == Current(Some(plans[ids[i]].planId), plans[ids[i]].recipients)
  {
    hide LatestWhere;
    var k :| k in plans;
    assert k in ids;
    i := LatestIsFirstNewest(plans, ids, _ => true, AnyPlan);
  }

  // ----- How much is counted -----

  ghost function WaitingKeys(t: map<string, Row>): set<string> {
    set k | k in t && t[k].plan == ""
  }

  ghost function Unplanned(t: map<string, Owned>): set<string> {
    set k | k in t && t[k].plan == ""
  }

  /** What a step over id makes of the rows still waiting. */
  ghost predicate TakesOnly(t: map<string, Row>, id: string, c: Current, hash: Hash) {
    WaitingKeys(RekeyOne(t, id, c, hash).0) == WaitingKeys(t) - {id}
  }

  lemma TableStepTakesOnly(t: map<string, Row>, id: string, c: Current, hash: Hash)
    requires NoPaths(t) && c.plan.Some? && c.plan.value != "" && NoneInTheWay(t, c.plan.value)
    ensures TakesOnly(t, id, c, hash)
  {
    var u := RekeyOne(t, id, c, hash).0;
    forall k ensures k in WaitingKeys(u) <==> k in WaitingKeys(t) && k != id {
      if Moves(t, id, c) && k == id + "_" + c.plan.value { assert !Waiting(t, k); }
    }
  }

  lemma PathStepTakesOnly(t: map<string, Row>, id: string, c: Current, hash: Hash)
    requires OnlyPaths(t) && c.Field() != "" && NoneAtPlanKeys(t, c, hash)
    ensures TakesOnly(t, id, c, hash)
  {
    var u := RekeyOne(t, id, c, hash).0;
    forall k ensures k in WaitingKeys(u) <==> k in WaitingKeys(t) && k != id {
      if Waiting(t, id) { assert !Waiting(t, hash(t[id].wallet + ":" + c.Text())); }
    }
  }

  lemma PathStepKeeps(t: map<string, Row>, id: string, c: Current, hash: Hash)
    requires OnlyPaths(t) && c.Field() != "" && NoneAtPlanKeys(t, c, hash)
    ensures var u := RekeyOne(t, id, c, hash).0; OnlyPaths(u) && NoneAtPlanKeys(u, c, hash)
  {
    var u := RekeyOne(t, id, c, hash).0;
    forall w ensures !Waiting(u, hash(w + ":" + c.Text())) {
      assert !Waiting(t, hash(w + ":" + c.Text()));
    }
  }

  lemma CountOne(t: map<string, Row>, id: string, c: Current, hash: Hash)
    requires TakesOnly(t, id, c, hash)
    ensures RekeyOne(t, id, c, hash).1 + |WaitingKeys(RekeyOne(t, id, c, hash).0)| == |WaitingKeys(t)|
  {
    if Waiting(t, id) { assert id in WaitingKeys(t); }
  }

  /** Each index and log row without a plan is counted once. */
  lemma {:induction false} RekeyCount(t: map<string, Row>, n: nat, ids: seq<string>, c: Current, hash: Hash)
    requires NoPaths(t) && c.plan.Some? && c.plan.value != "" && NoneInTheWay(t, c.plan.value)
    requires forall q :: Waiting(t, q) ==> q in ids
    ensures RekeyAll(t, n, ids, c, hash).1 == n + |WaitingKeys(t)|
    decreases |ids|
  {
    hide NoneInTheWay, NoPaths, RekeyOne, TakesOnly, Waiting, WaitingKeys, Left;
    if ids == [] {
      NoneWait(t);
    } else {
      hide RekeyAll;
      var (t1, d) := RekeyOne(t, ids[0], c, hash);
      StepKeepsLeft(t, ids[0], c, hash);
      TableStepTakesOnly(t, ids[0], c, hash);
      CountOne(t, ids[0], c, hash);
      WaitingRest(t, t1, ids, c, hash);
      RekeyCount(t1, n + d, ids[1..], c, hash);
      RekeyFirst(t, n, ids, c, hash);
    }
  }

  /** And each path without a plan. */
  lemma {:induction false} PathCount(t: map<string, Row>, n: nat, ids: seq<string>, c: Current, hash: Hash)
    requires OnlyPaths(t) && c.Field() != "" && NoneAtPlanKeys(t, c, hash)
    requires forall q :: Waiting(t, q) ==> q in ids
    ensures RekeyAll(t, n, ids, c, hash).1 == n + |WaitingKeys(t)|
    decreases |ids|
  {
    hide NoneAtPlanKeys, OnlyPaths, RekeyOne, TakesOnly, Waiting, WaitingKeys;
    if ids == [] {
      NoneWait(t);
    } else {
      hide RekeyAll;
      var (t1, d) := RekeyOne(t, ids[0], c, hash);
      PathStepKeeps(t, ids[0], c, hash);
      PathStepTakesOnly(t, ids[0], c, hash);
      CountOne(t, ids[0], c, hash);
      WaitingRest(t, t1, ids, c, hash);
      PathCount(t1, n + d, ids[1..], c, hash);
      RekeyFirst(t, n, ids, c, hash);
    }
  }

  lemma NoneWait(t: map<string, Row>)
    requires forall q :: !Waiting(t, q)
    ensures WaitingKeys(t) == {}
  {
    assert forall k :: k in WaitingKeys(t) ==> Waiting(t, k);
  }

  lemma RekeyFirst(t: map<string, Row>, n: nat, ids: seq<string>, c: Current, hash: Hash)
    requires ids != []
    ensures var (t1, d) := RekeyOne(t, ids[0], c, hash); RekeyAll(t, n, ids, c, hash) == RekeyAll(t1, n + d, ids[1..], c, hash)
  {
  }

  lemma WaitingRest(t: map<string, Row>, t1: map<string, Row>, ids: seq<string>, c: Current, hash: Hash)
    requires ids != [] && TakesOnly(t, ids[0], c, hash) && t1 == RekeyOne(t, ids[0], c, hash).0
    requires forall q :: Waiting(t, q) ==> q in ids
    ensures forall q :: Waiting(t1, q) ==> q in ids[1..]
  {
    assert ids == [ids[0]] + ids[1..];
    forall q | Waiting(t1, q) ensures q in ids[1..] {
      assert q in WaitingKeys(t1);
      assert Waiting(t, q);
    }
  }

  lemma {:induction false} PatchCountOf(t: map<string, Owned>, n: nat, rs: seq<Owned>, plans: map<string, Plan>, ids: seq<string>)
    ensures PatchAll(t, n, rs, plans, ids).1 == n + PlanlessIn(rs)
    decreases |rs|
  {
    if rs != [] {
      hide Assigned;
      var (t1, d) := PatchOne(t, rs[0], plans, ids);
      PatchCountOf(t1, n + d, rs[1..], plans, ids);
    }
  }

  function PlanlessIn(rs: seq<Owned>): nat {
    if rs == [] then 0 else (if rs[0].plan == "" then 1 else 0) + PlanlessIn(rs[1..])
  }

  ghost function UnplannedIn(t: map<string, Owned>, order: seq<string>): set<string> {
    set k | k in order && k in t && t[k].plan == ""
  }

  lemma UnplannedHead(t: map<string, Owned>, order: seq<string>)
    requires order != [] && Distinct(order) && order[0] in t
    ensures |UnplannedIn(t, order)| == |UnplannedIn(t, order[1..])| + if t[order[0]].plan == "" then 1 else 0
  {
    hide Distinct;
    DistinctTail(order);
    var rest := order[1..];
    assert order == [order[0]] + rest;
    assert order[0] !in UnplannedIn(t, rest);
    assert UnplannedIn(t, order) == UnplannedIn(t, rest) + if t[order[0]].plan == "" then {order[0]} else {};
  }

  lemma {:induction false} PlanlessListed(t: map<string, Owned>, order: seq<string>, rs: seq<Owned>)
    requires Distinct(order) && |rs| == |order|
    requires forall i :: 0 <= i < |order| ==> order[i] in t && rs[i] == t[order[i]]
    ensures PlanlessIn(rs) == |UnplannedIn(t, order)|
    decreases |order|
  {
    if order != [] {
      hide UnplannedIn, Distinct;
      DistinctTail(order);
      UnplannedHead(t, order);
      PlanlessListed(t, order[1..], rs[1..]);
    } else {
      assert UnplannedIn(t, order) == {};
    }
  }

  /** And each record without a plan. */
  lemma PatchCount(t: map<string, Owned>, order: seq<string>, plans: map<string, Plan>, ids: seq<string>)
    requires Covers(order, t) && Distinct(order)
    ensures PatchAll(t, 0, Records(t, order), plans, ids).1 == |Unplanned(t)|
  {
    hide PatchAll;
    PatchCountOf(t, 0, Records(t, order), plans, ids);
    forall i | 0 <= i < |order| ensures order[i] in t { assert order[i] in order; }
    PlanlessListed(t, order, Records(t, order));
    assert UnplannedIn(t, order) == Unplanned(t);
  }

  /** With a plan, a run counts everything that had none, once. */
  lemma RunCounts(d: Db, o: Orders, hash: Hash)
    requires HexDigest(hash) && Lists(o, d) && d.plans != map[] && Distinct(o.bindings) && Distinct(o.triggers)
    requires OnlyPaths(d.paths) && NoneAtPlanKeys(d.paths, RunPlan(d, o, hash), hash)
    requires var c := RunPlan(d, o, hash); c.plan.Some? ==>
      Movable(d.recipientIndex, c.plan.value) && Movable(d.mnemonicIndex, c.plan.value) && Movable(d.deliveryLog, c.plan.value)
    ensures Run(d, o, hash).1 ==
      |Planless(d.plans)| + |Unplanned(d.bindings)| + |WaitingKeys(d.paths)| + |WaitingKeys(d.recipientIndex)|
      + |WaitingKeys(d.mnemonicIndex)| + |WaitingKeys(d.deliveryLog)| + |Unplanned(d.triggers)|
  {
    hide RekeyAll, PatchAll, CurrentOf, SetPlans, Planless, LegacyKeyed, NoPaths, NoneInTheWay, NoneAtPlanKeys;
    RunHasPlan(d, o, hash);
    var c := RunPlan(d, o, hash);
    var plans := SetPlans(d.plans, hash);
    PatchCount(d.bindings, o.bindings, plans, o.plans);
    PatchCount(d.triggers, o.triggers, plans, o.plans);
    PathCount(d.paths, 0, o.paths, c, hash);
    RekeyCount(d.recipientIndex, 0, o.recipientIndex, c, hash);
    RekeyCount(d.mnemonicIndex, 0, o.mnemonicIndex, c, hash);
    RekeyCount(d.deliveryLog, 0, o.deliveryLog, c, hash);
  }

  /** One run gives everything a plan exactly when there is one to give or nothing needed it. */
  lemma AfterOneRun(d: Db, o: Orders, hash: Hash)
    requires HexDigest(hash) && WellFormed(d) && Lists(o, d)
    ensures var e := Run(d, o, hash).0;
      && e.plans == SetPlans(d.plans, hash) && AllPlanned(e.deliveryLog)
      && (NothingUnplanned(e) <==> d.plans != map[] || NothingUnplanned(d))
  {
    hide PatchAll, RekeyAll, CurrentOf, Assigned, SetPlans, Planless;
    var plans := SetPlans(d.plans, hash);
    PlansAfter(d.plans, hash);
    var c := CurrentOf(plans, o.plans);
    assert Covers(o.plans, plans);
    AssignedIsPlan(Trigger("", "", 0), plans, o.plans);
    OwnedAfter(d.bindings, o.bindings, plans, o.plans);
    OwnedAfter(d.triggers, o.triggers, plans, o.plans);
    RowsAfter(d.paths, o.paths, c, hash);
    RowsAfter(d.recipientIndex, o.recipientIndex, c, hash);
    RowsAfter(d.mnemonicIndex, o.mnemonicIndex, c, hash);
    RekeyLeavesNoneWaiting(d.deliveryLog, 0, o.deliveryLog, c, hash);
  }

  /** A run over a migrated log and migrated plans changes nothing exactly when the rest is migrated too. */
  lemma RunOverMigrated(e: Db, o: Orders, hash: Hash)
    requires HexDigest(hash) && Lists(o, e)
    requires SetPlans(e.plans, hash) == e.plans && Planless(e.plans) == {} && AllPlanned(e.deliveryLog)
    ensures var again := Run(e, o, hash); (again.1 == 0 <==> NothingUnplanned(e)) && (again.1 == 0 ==> again.0 == e)
  {
    hide PatchAll, RekeyAll, CurrentOf, Assigned, SetPlans, Planless;
    var c := CurrentOf(e.plans, o.plans);
    SecondPatch(e.bindings, o.bindings, e.plans, o.plans);
    SecondPatch(e.triggers, o.triggers, e.plans, o.plans);
    SecondRekey(e.paths, o.paths, c, hash);
    SecondRekey(e.recipientIndex, o.recipientIndex, c, hash);
    SecondRekey(e.mnemonicIndex, o.mnemonicIndex, c, hash);
    SecondRekey(e.deliveryLog, o.deliveryLog, c, hash);
  }

  /**
   A second run changes nothing, in whatever order either run lists the tables, exactly when there is a plan
   or there was nothing left to give a plan to.
   */
  lemma SecondRunChangesNothing(d: Db, first: Orders, second: Orders, hash: Hash)
    requires HexDigest(hash) && WellFormed(d) && Lists(first, d) && Lists(second, Run(d, first, hash).0)
    ensures var again := Run(Run(d, first, hash).0, second, hash);
      && (again.1 == 0 <==> d.plans != map[] || NothingUnplanned(d))
      && (again.1 == 0 ==> again.0 == Run(d, first, hash).0)
  {
    hide Run, SetPlans, Planless;
    PlansAfter(d.plans, hash);
    AfterOneRun(d, first, hash);
    RunOverMigrated(Run(d, first, hash).0, second, hash);
  }

  // ----- Keys -----

  /** The key other code recomputes from a row: deleteByWalletPlan for an index, deliveryLogId for the log. */
  function Base(r: Row): string {
    match r
    case PathRow(wallet, _, _) => wallet
    case IndexRow(first, wallet, _, _) => first + "_" + wallet
    case LogRow(wallet, authority, recipient, _, _) => Lower(Trim(wallet)) + "_" + Trim(authority) + "_" + RecipientText(recipient)
  }

  function RecipientText(n: int): string {
    if n < 0 then "-" + D.Print(-n) else D.Print(n)
  }

  function Key(r: Row): string {
    if r.plan == "" then Base(r) else Base(r) + "_" + r.plan
  }

  ghost predicate WellKeyed(t: map<string, Row>) {
    forall k <- t :: Key(t[k]) == k
  }

  /** Rows without a plan are stored under the key made of their other fields. */
  ghost predicate LegacyKeyed(t: map<string, Row>) {
    forall k :: Waiting(t, k) ==> Base(t[k]) == k
  }

  predicate PlainRow(r: Row) {
    match r
    case PathRow(_, _, _) => false
    case IndexRow(first, wallet, _, _) => Plain(first) && Plain(wallet)
    case LogRow(wallet, authority, _, _, _) => Plain(Lower(Trim(wallet))) && Plain(Trim(authority))
  }

  /** The parts of the keys of rows without a plan hold no separator. */
  ghost predicate PlainParts(t: map<string, Row>) {
    forall k :: Waiting(t, k) ==> PlainRow(t[k])
  }

  function Separators(s: string): (n: nat)
    ensures Plain(s) <==> n == 0
  {
    if s == "" then 0
    else
      var n := Separators(s[1..]);
      assert s == [s[0]] + s[1..];
      if s[0] == '_' then n + 1 else n
  }

  lemma {:induction false} SeparatorsAdd(s: string, t: string)
    ensures Separators(s + t) == Separators(s) + Separators(t)
  {
    if s == "" {
      assert s + t == t;
    } else {
      assert (s + t)[1..] == s[1..] + t;
      SeparatorsAdd(s[1..], t);
    }
  }

  // ----- What the moves make of a whole table -----

  /** No waiting row is stored where another waiting row will go. */
  ghost predicate NoneInTheWay(t: map<string, Row>, p: string) {
    forall k :: Waiting(t, k) ==> !Waiting(t, k + "_" + p)
  }

  predicate Ends(k: string, p: string) {
    |k| > |p| && k[|k| - |p| - 1..] == "_" + p
  }

  function Stem(k: string, p: string): (s: string)
    requires Ends(k, p)
    ensures s + "_" + p == k
  {
    k[..|k| - |p| - 1]
  }

  predicate Moves(t: map<string, Row>, k: string, c: Current) {
    Waiting(t, k) && Kept(t[k], c)
  }

  /** The row the migration leaves under k. */
  function Left(t: map<string, Row>, k: string, c: Current): Option<Row>
    requires c.plan.Some?
  {
    if Ends(k, c.plan.value) && Moves(t, Stem(k, c.plan.value), c) then Some(WithPlan(t[Stem(k, c.plan.value)], c.plan.value))
    else if k in t && t[k].plan != "" then Some(t[k])
    else None
  }

  function Lookup(t: map<string, Row>, k: string): Option<Row> {
    if k in t then Some(t[k]) else None
  }

  ghost predicate NoPaths(t: map<string, Row>) {
    forall k <- t :: !t[k].PathRow?
  }

  lemma StemOf(k: string, p: string)
    ensures Ends(k + "_" + p, p) && Stem(k + "_" + p, p) == k
  {
  }

  /** One step leaves every key's outcome unchanged. */
  lemma StepKeepsLeft(t: map<string, Row>, id: string, c: Current, hash: Hash)
    requires NoPaths(t) && c.plan.Some? && c.plan.value != "" && NoneInTheWay(t, c.plan.value)
    ensures var t1 := RekeyOne(t, id, c, hash).0;
      && NoPaths(t1) && NoneInTheWay(t1, c.plan.value)
      && (forall k :: Waiting(t1, k) ==> Waiting(t, k) && k != id)
      && forall k :: Left(t1, k, c) == Left(t, k, c)
  {
    var p := c.plan.value;
    var t1 := RekeyOne(t, id, c, hash).0;
    StemOf(id, p);
    forall k ensures Left(t1, k, c) == Left(t, k, c) {
      if Moves(t, id, c) && k == id + "_" + p {
        assert Left(t, k, c) == Some(WithPlan(t[id], p));
      }
    }
  }

  /** The outcome does not depend on the order in which the rows are visited. */
  lemma {:induction false} RekeyedTable(t: map<string, Row>, n: nat, ids: seq<string>, c: Current, hash: Hash, k: string)
    requires NoPaths(t) && c.plan.Some? && c.plan.value != "" && NoneInTheWay(t, c.plan.value)
    requires forall q :: Waiting(t, q) ==> q in ids
    ensures Lookup(RekeyAll(t, n, ids, c, hash).0, k) == Left(t, k, c)
    decreases |ids|
  {
    if ids == [] {
      assert !Waiting(t, k);
      if Ends(k, c.plan.value) { assert !Waiting(t, Stem(k, c.plan.value)); }
    } else {
      hide RekeyOne, Left, NoneInTheWay;
      var (t1, d) := RekeyOne(t, ids[0], c, hash);
      StepKeepsLeft(t, ids[0], c, hash);
      assert ids == [ids[0]] + ids[1..];
      RekeyedTable(t1, n + d, ids[1..], c, hash, k);
    }
  }

  ghost predicate OfKind(t: map<string, Row>, logs: bool) {
    forall k <- t :: !t[k].PathRow? && t[k].LogRow? == logs
  }

  lemma RecipientTextIsPlain(n: int)
    ensures Plain(RecipientText(n))
  {
    var digits := D.Print(if n < 0 then -n else n);
    assert D.AllDigits(digits);
  }

  lemma SeparatorsOfBase(t: map<string, Row>, logs: bool, k: string)
    requires OfKind(t, logs) && PlainParts(t) && Waiting(t, k)
    ensures Separators(Base(t[k])) == if logs then 2 else 1
  {
    hide Lower, Trim, RecipientText;
    assert Separators("_") == 1;
    match t[k]
    case IndexRow(first, wallet, _, _) =>
      SeparatorsAdd(first, "_");
      SeparatorsAdd(first + "_", wallet);
    case LogRow(wallet, authority, recipient, _, _) =>
      var w, a, i := Lower(Trim(wallet)), Trim(authority), RecipientText(recipient);
      RecipientTextIsPlain(recipient);
      SeparatorsAdd(w, "_");
      SeparatorsAdd(w + "_", a);
      SeparatorsAdd(w + "_" + a, "_");
      SeparatorsAdd(w + "_" + a + "_", i);
  }

  lemma KeysNeverInTheWay(t: map<string, Row>, logs: bool, p: string)
    requires OfKind(t, logs) && LegacyKeyed(t) && PlainParts(t)
    ensures NoneInTheWay(t, p)
  {
    hide Base, PlainParts;
    forall k | Waiting(t, k) ensures !Waiting(t, k + "_" + p) {
      SeparatorsOfBase(t, logs, k);
      SeparatorsAdd(k, "_");
      SeparatorsAdd(k + "_", p);
      assert Separators("_") == 1;
      if Waiting(t, k + "_" + p) {
        SeparatorsOfBase(t, logs, k + "_" + p);
        assert false;
      }
    }
  }

  lemma KeyWithPlan(r: Row, p: string)
    requires r.plan == "" && p != ""
    ensures Key(WithPlan(r, p)) == Key(r) + "_" + p
  {
  }

  /** What the migration makes of a table of rows that move. */
  ghost predicate Migrated(t: map<string, Row>, u: map<string, Row>, c: Current)
    requires c.plan.Some?
  {
    && AllPlanned(u)
    && (forall k :: Lookup(u, k) == Left(t, k, c))
    && (forall k :: Moves(t, k, c) ==>
          var r := WithPlan(t[k], c.plan.value);
          Key(r) in u && u[Key(r)] == r)
    && (forall k <- u :: Key(u[k]) == k || (k in t && u[k] == t[k]))
  }

  /**
   Whatever the order of the rows, each table ends as Left says: every kept row under the key recomputed
   from its fields, every row that had a plan where it was, unless one is moved there, and nothing else.
   */
  lemma KeysAgree(t: map<string, Row>, order: seq<string>, c: Current, hash: Hash)
    requires NoPaths(t) && LegacyKeyed(t) && Covers(order, t)
    requires c.plan.Some? && c.plan.value != "" && NoneInTheWay(t, c.plan.value)
    ensures Migrated(t, RekeyAll(t, 0, order, c, hash).0, c)
  {
    hide RekeyAll, Base, NoneInTheWay;
    var p := c.plan.value;
    var u := RekeyAll(t, 0, order, c, hash).0;
    forall k ensures Lookup(u, k) == Left(t, k, c) {
      RekeyedTable(t, 0, order, c, hash, k);
    }
    forall k | k in u ensures u[k].plan != "" && (Key(u[k]) == k || (k in t && u[k] == t[k])) {
      assert Lookup(u, k) == Left(t, k, c);
      if Ends(k, p) && Moves(t, Stem(k, p), c) { KeyWithPlan(t[Stem(k, p)], p); }
    }
    forall k | Moves(t, k, c) ensures var r := WithPlan(t[k], p); Key(r) in u && u[Key(r)] == r {
      StemOf(k, p);
      KeyWithPlan(t[k], p);
      assert Lookup(u, k + "_" + p) == Left(t, k + "_" + p, c);
    }
  }

  /** Without a plan an index row is moved by every run, its key growing each time. */
  lemma WithoutPlanKeysGrow(hash: Hash)
    ensures var r, c := IndexRow("a", "w", "", "body"), Current(None, 0);
      && RekeyAll(map["a_w" := r], 0, ["a_w"], c, hash) == (map["a_w_undefined" := r], 1)
      && RekeyAll(map["a_w_undefined" := r], 0, ["a_w_undefined"], c, hash) == (map["a_w_undefined_undefined" := r], 1)
  {
    OneRowMoves(IndexRow("a", "w", "", "body"), "a_w", "a_w_undefined", hash);
    OneRowMoves(IndexRow("a", "w", "", "body"), "a_w_undefined", "a_w_undefined_undefined", hash);
  }

  lemma OneRowMoves(r: Row, id: string, key: string, hash: Hash)
    requires r.IndexRow? && r.plan == "" && key == id + "_undefined"
    ensures RekeyAll(map[id := r], 0, [id], Current(None, 0), hash) == (map[key := r], 1)
  {
    var c := Current(None, 0);
    assert NewKey(id, r, c, hash) == key && key != id && WithPlan(r, "") == r;
    var t := map[id := r];
    assert Waiting(t, id) && t[key := r] - {id} == map[key := r];
    assert RekeyOne(t, id, c, hash) == (map[key := r], 1);
    assert RekeyAll(map[key := r], 1, [], c, hash) == (map[key := r], 1);
  }

  /** A log row is kept exactly when the current plan has its recipient; an index row always is. */
  lemma KeptIff(t: map<string, Row>, u: map<string, Row>, c: Current, k: string)
    requires c.plan.Some? && c.plan.value != "" && Migrated(t, u, c) && Waiting(t, k) && !t[k].PathRow?
    requires k + "_" + c.plan.value !in t
    ensures k + "_" + c.plan.value in u <==> t[k].IndexRow? || 1 <= t[k].recipient <= c.recipients
    ensures k !in u || u[k].plan != ""
  {
    StemOf(k, c.plan.value);
    assert Lookup(u, k + "_" + c.plan.value) == Left(t, k + "_" + c.plan.value, c);
  }

  /** A delivery has one key per wallet, authority, recipient and plan, where its parts hold no separator. */
  lemma LogKeysAgreeIff(r: Row, q: Row)
    requires r.LogRow? && q.LogRow? && PlainRow(r) && PlainRow(q)
    ensures Key(r) == Key(q) <==>
      && Lower(Trim(r.wallet)) == Lower(Trim(q.wallet)) && Trim(r.authority) == Trim(q.authority)
      && r.recipient == q.recipient && r.plan == q.plan
  {
    hide Lower, Trim, RecipientText;
    var (w, a, i) := (Lower(Trim(r.wallet)), Trim(r.authority), RecipientText(r.recipient));
    var (v, b, j) := (Lower(Trim(q.wallet)), Trim(q.authority), RecipientText(q.recipient));
    var end, end' := PlanPart(r.plan), PlanPart(q.plan);
    assert Key(r) == w + "_" + (a + "_" + (i + end));
    assert Key(q) == v + "_" + (b + "_" + (j + end'));
    if Key(r) == Key(q) {
      FirstPart(w, a + "_" + (i + end), v, b + "_" + (j + end'));
      FirstPart(a, i + end, b, j + end');
      LastParts(r.recipient, r.plan, q.recipient, q.plan);
    }
  }

  function PlanPart(p: string): string {
    if p == "" then "" else "_" + p
  }

  lemma PlainWhole(i: string, p: string)
    requires Plain(i)
    ensures Plain(i + PlanPart(p)) <==> p == ""
  {
    if p == "" {
      assert i + PlanPart(p) == i;
    } else {
      assert (i + PlanPart(p))[|i|] == '_';
    }
  }

  lemma LastParts(m: int, p: string, n: int, q: string)
    requires RecipientText(m) + PlanPart(p) == RecipientText(n) + PlanPart(q)
    ensures m == n && p == q
  {
    hide RecipientText;
    var i, j := RecipientText(m), RecipientText(n);
    RecipientTextIsPlain(m);
    RecipientTextIsPlain(n);
    PlainWhole(i, p);
    PlainWhole(j, q);
    if p != "" {
      assert i + PlanPart(p) == i + "_" + p && j + PlanPart(q) == j + "_" + q;
      FirstPart(i, p, j, q);
    } else {
      assert i + PlanPart(p) == i && j + PlanPart(q) == j;
    }
    RecipientTextInjective(m, n);
  }

  lemma SignOf(m: int)
    ensures RecipientText(m)[0] == '-' <==> m < 0
    ensures RecipientText(m) == (if m < 0 then "-" else "") + D.Print(if m < 0 then -m else m)
  {
    hide D.Print;
    var digits := D.Print(if m < 0 then -m else m);
    assert D.AllDigits(digits);
    if m >= 0 { assert "" + digits == digits; }
  }

  lemma RecipientTextInjective(m: int, n: int)
    requires RecipientText(m) == RecipientText(n)
    ensures m == n
  {
    hide RecipientText, D.Print, D.IntOf;
    SignOf(m);
    SignOf(n);
    var x, y := if m < 0 then -m else m, if n < 0 then -n else n;
    var k := if m < 0 then 1 else 0;
    assert RecipientText(m)[k..] == D.Print(x) && RecipientText(n)[k..] == D.Print(y);
    D.PrintIsInverse(x);
    D.PrintIsInverse(y);
  }

  /** A table all of whose rows were under their recomputed keys is so again. */
  lemma WellKeyedStays(t: map<string, Row>, u: map<string, Row>, c: Current)
    requires c.plan.Some? && Migrated(t, u, c) && WellKeyed(t)
    ensures WellKeyed(u)
  {
    forall k | k in u ensures Key(u[k]) == k {
    }
  }

  lemma FirstPart(a: string, x: string, b: string, y: string)
    requires Plain(a) && Plain(b) && a + "_" + x == b + "_" + y
    ensures a == b && x == y
  {
    var s, t := a + "_" + x, b + "_" + y;
    assert s[|a|] == '_' && t[|b|] == '_';
    assert forall i :: 0 <= i < |a| ==> s[i] == a[i];
    assert forall i :: 0 <= i < |b| ==> t[i] == b[i];
    assert |a| == |b|;
    assert s[..|a|] == a && t[..|a|] == b && s[|a| + 1..] == x && t[|a| + 1..] == y;
  }

  lemma SameKeySamePair(r: Row, q: Row, p: string)
    requires r.IndexRow? && q.IndexRow? && Plain(r.first) && Plain(r.wallet) && Plain(q.first) && Plain(q.wallet)
    requires r.plan == "" && q.plan != "" && Key(r) + "_" + p == Key(q)
    ensures r.first == q.first && r.wallet == q.wallet && q.plan == p
  {
    assert Key(r) + "_" + p == r.first + "_" + (r.wallet + "_" + p);
    assert Key(q) == q.first + "_" + (q.wallet + "_" + q.plan);
    FirstPart(r.first, r.wallet + "_" + p, q.first, q.wallet + "_" + q.plan);
    FirstPart(r.wallet, p, q.wallet, q.plan);
  }

  ghost predicate HasPair(t: map<string, Row>, first: string, wallet: string) {
    exists k :: k in t && t[k].IndexRow? && t[k].first == first && t[k].wallet == wallet
  }

  ghost predicate HoldsPair(t: map<string, Row>, k: string, first: string, wallet: string) {
    k in t && t[k].IndexRow? && t[k].first == first && t[k].wallet == wallet
  }

  /** A waiting row is moved onto k. */
  predicate MovedOnto(t: map<string, Row>, k: string, c: Current)
    requires c.plan.Some?
  {
    Ends(k, c.plan.value) && Moves(t, Stem(k, c.plan.value), c)
  }

  /** A pair of address or hash and wallet is indexed afterwards exactly when a row that holds it is not moved onto. */
  lemma PairSurvivesIff(t: map<string, Row>, order: seq<string>, c: Current, hash: Hash, first: string, wallet: string)
    requires OfKind(t, false) && LegacyKeyed(t) && Covers(order, t)
    requires c.plan.Some? && c.plan.value != "" && NoneInTheWay(t, c.plan.value)
    ensures HasPair(RekeyAll(t, 0, order, c, hash).0, first, wallet) <==>
      exists k :: HoldsPair(t, k, first, wallet) && (t[k].plan == "" || !MovedOnto(t, k, c))
  {
    hide RekeyAll, Base, NoneInTheWay;
    var p := c.plan.value;
    var u := RekeyAll(t, 0, order, c, hash).0;
    KeysAgree(t, order, c, hash);
    if k :| HoldsPair(t, k, first, wallet) && (t[k].plan == "" || !MovedOnto(t, k, c)) {
      if t[k].plan == "" {
        assert Moves(t, k, c);
        assert u[Key(WithPlan(t[k], p))].IndexRow?;
      } else {
        assert Lookup(u, k) == Left(t, k, c);
      }
    }
    if HasPair(u, first, wallet) {
      var k :| k in u && u[k].IndexRow? && u[k].first == first && u[k].wallet == wallet;
      assert Lookup(u, k) == Left(t, k, c);
      var q := if MovedOnto(t, k, c) then Stem(k, p) else k;
      assert HoldsPair(t, q, first, wallet) && (t[q].plan == "" || !MovedOnto(t, q, c));
    }
  }

  /** Where the parts of keys hold no separator, an index has the same pairs before and after. */
  lemma PairsSurvive(t: map<string, Row>, order: seq<string>, c: Current, hash: Hash, first: string, wallet: string)
    requires OfKind(t, false) && WellKeyed(t) && Covers(order, t) && forall k <- t :: PlainRow(t[k])
    requires c.plan.Some? && c.plan.value != ""
    ensures HasPair(t, first, wallet) <==> HasPair(RekeyAll(t, 0, order, c, hash).0, first, wallet)
  {
    hide RekeyAll, Base;
    var p := c.plan.value;
    KeysNeverInTheWay(t, false, p);
    PairSurvivesIff(t, order, c, hash, first, wallet);
    if HasPair(t, first, wallet) {
      var k :| k in t && t[k].IndexRow? && t[k].first == first && t[k].wallet == wallet;
      if t[k].plan != "" && MovedOnto(t, k, c) {
        SameKeySamePair(t[Stem(k, p)], t[k], p);
        assert HoldsPair(t, Stem(k, p), first, wallet);
      } else {
        assert HoldsPair(t, k, first, wallet);
      }
    }
  }

  /**
   A row that already had a plan keeps its contents exactly when no waiting row is moved onto its key, or
   an equal one is.
   */
  lemma PlanScopedRowSurvivesIff(t: map<string, Row>, order: seq<string>, c: Current, hash: Hash, k: string)
    requires NoPaths(t) && LegacyKeyed(t) && Covers(order, t)
    requires c.plan.Some? && c.plan.value != "" && NoneInTheWay(t, c.plan.value) && k in t && t[k].plan != ""
    ensures Lookup(RekeyAll(t, 0, order, c, hash).0, k) == Some(t[k]) <==>
      forall s :: s + "_" + c.plan.value == k && Moves(t, s, c) ==> WithPlan(t[s], c.plan.value) == t[k]
  {
    hide RekeyAll, Base, NoneInTheWay;
    var p := c.plan.value;
    KeysAgree(t, order, c, hash);
    assert Lookup(RekeyAll(t, 0, order, c, hash).0, k) == Left(t, k, c);
    if Ends(k, p) { assert Stem(k, p) + "_" + p == k; }
    forall s | s + "_" + p == k ensures Ends(k, p) && Stem(k, p) == s { StemOf(s, p); }
  }

  const LEGACY: Row := LogRow("w", "a", 1, "", "pending")
  const DONE: Row := LogRow("w", "a", 1, "p", "delivered")
  const BOTH: map<string, Row> := map["w_a_1" := LEGACY, "w_a_1_p" := DONE]

  lemma BothAreKeyed()
    ensures WellKeyed(BOTH) && PlainParts(BOTH)
  {
    assert Trim("w") == "w" && Trim("a") == "a" && Lower("w") == "w" && D.Print(1) == "1";
    assert Base(LEGACY) == "w_a_1" && Base(DONE) == "w_a_1";
  }

  /** So the record of a finished delivery can be replaced by an older one that is still pending. */
  lemma DeliveredRowIsOverwritten(hash: Hash)
    ensures WellKeyed(BOTH) && PlainParts(BOTH) && BOTH["w_a_1_p"].status == "delivered"
    ensures RekeyAll(BOTH, 0, ["w_a_1", "w_a_1_p"], Current(Some("p"), 1), hash).0 == map["w_a_1_p" := LogRow("w", "a", 1, "p", "pending")]
  {
    hide Base, Trim, Lower;
    BothAreKeyed();
    var c := Current(Some("p"), 1);
    assert NewKey("w_a_1", LEGACY, c, hash) == "w_a_1_p";
    var t1 := RekeyOne(BOTH, "w_a_1", c, hash).0;
    assert t1 == map["w_a_1_p" := WithPlan(LEGACY, "p")];
    assert RekeyOne(t1, "w_a_1_p", c, hash) == (t1, 0);
    assert ["w_a_1", "w_a_1_p"][1..] == ["w_a_1_p"];
    assert RekeyAll(t1, 1, ["w_a_1_p"], c, hash) == (t1, 1);
  }

  ghost predicate OnlyPaths(t: map<string, Row>) {
    forall k <- t :: t[k].PathRow?
  }

  ghost predicate PathAt(t: map<string, Row>, wallet: string, c: Current, hash: Hash) {
    var k := hash(wallet + ":" + c.Text());
    k in t && t[k].PathRow? && t[k].wallet == wallet && t[k].plan == c.Field()
  }

  /** No waiting path is stored where another wallet's path will go. */
  ghost predicate NoPathInTheWay(t: map<string, Row>, c: Current, hash: Hash) {
    forall w :: Waiting(t, hash(w + ":" + c.Text())) ==> t[hash(w + ":" + c.Text())].wallet == w
  }

  lemma {:induction false} PathStays(t: map<string, Row>, n: nat, ids: seq<string>, c: Current, hash: Hash, wallet: string)
    requires CollisionFree(hash) && OnlyPaths(t) && NoPathInTheWay(t, c, hash) && c.Field() != ""
    requires PathAt(t, wallet, c, hash) || exists k :: k in ids && Waiting(t, k) && t[k].wallet == wallet
    ensures PathAt(RekeyAll(t, n, ids, c, hash).0, wallet, c, hash)
    decreases |ids|
  {
    if ids != [] {
      var (t1, d) := RekeyOne(t, ids[0], c, hash);
      assert ids == [ids[0]] + ids[1..];
      if Waiting(t, ids[0]) {
        var other := t[ids[0]].wallet;
        assert hash(other + ":" + c.Text()) == hash(wallet + ":" + c.Text()) ==> other == wallet by {
          if other + ":" + c.Text() == wallet + ":" + c.Text() {
            assert other == (other + ":" + c.Text())[..|other|];
          }
        }
        assert PathAt(t1, other, c, hash);
      }
      PathStays(t1, n + d, ids[1..], c, hash, wallet);
    }
  }

  /** Every wallet that had a path without a plan has one afterwards under the hash of wallet and plan. */
  lemma PathsFollowTheirWallet(t: map<string, Row>, order: seq<string>, c: Current, hash: Hash, k: string)
    requires CollisionFree(hash) && OnlyPaths(t) && NoPathInTheWay(t, c, hash) && c.Field() != "" && Covers(order, t) && Waiting(t, k)
    ensures PathAt(RekeyAll(t, 0, order, c, hash).0, t[k].wallet, c, hash)
  {
    PathStays(t, 0, order, c, hash, t[k].wallet);
  }

  /** The last listed waiting path of a wallet. */
  function LastWaiting(t: map<string, Row>, ids: seq<string>, wallet: string): (r: Option<Row>)
    ensures r.None? <==> forall k <- ids :: !(Waiting(t, k) && t[k].wallet == wallet)
  {
    if ids == [] then None
    else
      var rest := LastWaiting(t, ids[1..], wallet);
      if rest.Some? then rest
      else if Waiting(t, ids[0]) && t[ids[0]].wallet == wallet then Some(t[ids[0]])
      else None
  }

  lemma {:induction false} SameLastWaiting(t: map<string, Row>, u: map<string, Row>, ids: seq<string>, wallet: string)
    requires forall k <- ids :: Waiting(t, k) == Waiting(u, k) && (Waiting(t, k) ==> t[k] == u[k])
    ensures LastWaiting(t, ids, wallet) == LastWaiting(u, ids, wallet)
    decreases |ids|
  {
    if ids != [] { SameLastWaiting(t, u, ids[1..], wallet); }
  }

  lemma LastOfFirst(t: map<string, Row>, ids: seq<string>, wallet: string)
    requires ids != []
    ensures var rest := LastWaiting(t, ids[1..], wallet);
      LastWaiting(t, ids, wallet) ==
        if rest.Some? then rest else if Waiting(t, ids[0]) && t[ids[0]].wallet == wallet then Some(t[ids[0]]) else None
  {
  }

  /** No path without a plan is stored where one with a plan belongs. */
  ghost predicate NoneAtPlanKeys(t: map<string, Row>, c: Current, hash: Hash) {
    forall w :: !Waiting(t, hash(w + ":" + c.Text()))
  }

  lemma SameTarget(a: string, b: string, c: Current, hash: Hash)
    requires CollisionFree(hash) && hash(a + ":" + c.Text()) == hash(b + ":" + c.Text())
    ensures a == b
  {
    assert a + ":" + c.Text() == b + ":" + c.Text();
    assert a == (a + ":" + c.Text())[..|a|];
  }

  lemma PathStep(t: map<string, Row>, id: string, c: Current, hash: Hash, wallet: string)
    requires CollisionFree(hash) && OnlyPaths(t) && NoneAtPlanKeys(t, c, hash) && c.Field() != ""
    ensures var t1 := RekeyOne(t, id, c, hash).0;
      var target := hash(wallet + ":" + c.Text());
      && OnlyPaths(t1) && NoneAtPlanKeys(t1, c, hash)
      && (forall k :: k != id ==> Waiting(t1, k) == Waiting(t, k) && (Waiting(t, k) ==> t1[k] == t[k]))
      && Lookup(t1, target) ==
        if Waiting(t, id) && t[id].wallet == wallet then Some(WithPlan(t[id], c.Field())) else Lookup(t, target)
  {
    if Waiting(t, id) && hash(t[id].wallet + ":" + c.Text()) == hash(wallet + ":" + c.Text()) {
      SameTarget(t[id].wallet, wallet, c, hash);
    }
  }

  lemma {:induction false} LastPathStays(t: map<string, Row>, n: nat, ids: seq<string>, c: Current, hash: Hash, wallet: string)
    requires CollisionFree(hash) && OnlyPaths(t) && NoneAtPlanKeys(t, c, hash) && c.Field() != "" && Distinct(ids)
    ensures var last := LastWaiting(t, ids, wallet);
      var target := hash(wallet + ":" + c.Text());
      Lookup(RekeyAll(t, n, ids, c, hash).0, target) == if last.Some? then Some(WithPlan(last.value, c.Field())) else Lookup(t, target)
    decreases |ids|
  {
    if ids != [] {
      hide RekeyOne, NoneAtPlanKeys, Lookup, OnlyPaths, Distinct, Waiting, LastWaiting, CollisionFree, WithPlan, RekeyAll;
      LastOfFirst(t, ids, wallet);
      var (t1, d) := RekeyOne(t, ids[0], c, hash);
      PathStep(t, ids[0], c, hash, wallet);
      DistinctTail(ids);
      SameLastWaiting(t, t1, ids[1..], wallet);
      LastPathStays(t1, n + d, ids[1..], c, hash, wallet);
      RekeyFirst(t, n, ids, c, hash);
    }
  }

  // ----- Deleting a plan's index rows by recomputed keys -----

  /** What is left after deleting one plan of one wallet. */
  function Without(t: map<string, Row>, wallet: string, plan: string): map<string, Row> {
    map k | k in t && !(t[k].wallet == wallet && t[k].plan == plan) :: t[k]
  }

  predicate Doomed(r: Row, wallet: string, plan: string) {
    r.wallet == wallet && r.plan == plan
  }

  function EntriesOf(t: map<string, Row>, ids: seq<string>): seq<Row>
    requires Covers(ids, t)
  {
    seq(|ids|, i requires 0 <= i < |ids| => t[ids[i]])
  }

  /** Deletes, for each entry of that wallet and plan, the key recomputed from it. */
  function DeleteByKeys(t: map<string, Row>, entries: seq<Row>, wallet: string, plan: string): map<string, Row> {
    if entries == [] then t
    else
      var before := DeleteByKeys(t, entries[..|entries| - 1], wallet, plan);
      var e := entries[|entries| - 1];
      if Doomed(e, wallet, plan) then before - {Key(e)} else before
  }

  lemma {:induction false} DeletedAt(t: map<string, Row>, entries: seq<Row>, wallet: string, plan: string, k: string)
    ensures Lookup(DeleteByKeys(t, entries, wallet, plan), k) ==
      if exists e :: e in entries && Doomed(e, wallet, plan) && Key(e) == k then None else Lookup(t, k)
    decreases |entries|
  {
    if entries != [] {
      hide Key;
      DeletedAt(t, entries[..|entries| - 1], wallet, plan, k);
      assert entries == entries[..|entries| - 1] + [entries[|entries| - 1]];
    }
  }

  /** If that plan's rows are under their recomputed keys, exactly they go. */
  lemma DeletesExactly(t: map<string, Row>, ids: seq<string>, wallet: string, plan: string)
    requires Covers(ids, t) && forall k <- t :: Doomed(t[k], wallet, plan) ==> Key(t[k]) == k
    ensures DeleteByKeys(t, EntriesOf(t, ids), wallet, plan) == Without(t, wallet, plan)
  {
    hide DeleteByKeys, Key;
    var entries := EntriesOf(t, ids);
    var u := DeleteByKeys(t, entries, wallet, plan);
    forall e | e in entries ensures exists j :: j in t && t[j] == e {
      var i :| 0 <= i < |entries| && entries[i] == e;
      assert ids[i] in t;
    }
    forall k | k in t ensures t[k] in entries {
      var i :| 0 <= i < |ids| && ids[i] == k;
      assert entries[i] == t[k];
    }
    forall k ensures Lookup(u, k) == if k in t && !Doomed(t[k], wallet, plan) then Some(t[k]) else None {
      DeletedAt(t, entries, wallet, plan, k);
    }
    forall k ensures k in u <==> k in Without(t, wallet, plan) {
      assert Lookup(u, k) == if k in t && !Doomed(t[k], wallet, plan) then Some(t[k]) else None;
    }
    forall k | k in u ensures u[k] == Without(t, wallet, plan)[k] {
      assert Lookup(u, k) == if k in t && !Doomed(t[k], wallet, plan) then Some(t[k]) else None;
    }
  }

  // ----- The three keyed tables after a whole run -----

  ghost predicate Movable(t: map<string, Row>, p: string) {
    LegacyKeyed(t) && NoPaths(t) && NoneInTheWay(t, p)
  }

  /** The plan a run gives to rows that have none. */
  function RunPlan(d: Db, o: Orders, hash: Hash): Current
    requires forall s :: |hash(s)| == 64
  {
    CurrentOf(SetPlans(d.plans, hash), o.plans)
  }

  lemma RunHasPlan(d: Db, o: Orders, hash: Hash)
    requires HexDigest(hash) && Lists(o, d) && d.plans != map[]
    ensures RunPlan(d, o, hash).plan.Some? && RunPlan(d, o, hash).plan.value != ""
  {
    hide CurrentOf, SetPlans;
    PlansAfter(d.plans, hash);
    AssignedIsPlan(Trigger("", "", 0), SetPlans(d.plans, hash), o.plans);
  }

  /**
   With a plan, a run leaves both indexes and the delivery log with every kept row under the key that other
   code recomputes from it.
   */
  lemma RunAgreesWithKeys(d: Db, o: Orders, hash: Hash)
    requires HexDigest(hash) && Lists(o, d) && d.plans != map[]
    requires var c := RunPlan(d, o, hash); c.plan.Some? ==>
      Movable(d.recipientIndex, c.plan.value) && Movable(d.mnemonicIndex, c.plan.value) && Movable(d.deliveryLog, c.plan.value)
    ensures var c, e := RunPlan(d, o, hash), Run(d, o, hash).0;
      && c.plan.Some? && Migrated(d.recipientIndex, e.recipientIndex, c)
      && Migrated(d.mnemonicIndex, e.mnemonicIndex, c) && Migrated(d.deliveryLog, e.deliveryLog, c)
  {
    hide RekeyAll, PatchAll, CurrentOf, SetPlans, Migrated, LegacyKeyed, NoPaths, NoneInTheWay;
    RunHasPlan(d, o, hash);
    var c := RunPlan(d, o, hash);
    KeysAgree(d.recipientIndex, o.recipientIndex, c, hash);
    KeysAgree(d.mnemonicIndex, o.mnemonicIndex, c, hash);
    KeysAgree(d.deliveryLog, o.deliveryLog, c, hash);
  }

  /** Rows of that wallet and plan that had the plan before are under their recomputed keys. */
  ghost predicate PlanKeyed(t: map<string, Row>, wallet: string, plan: string) {
    forall k <- t :: Doomed(t[k], wallet, plan) ==> Key(t[k]) == k
  }

  lemma PlanKeyedStays(t: map<string, Row>, u: map<string, Row>, c: Current, wallet: string, plan: string)
    requires c.plan.Some? && Migrated(t, u, c) && PlanKeyed(t, wallet, plan)
    ensures PlanKeyed(u, wallet, plan)
  {
    forall k | k in u && Doomed(u[k], wallet, plan) ensures Key(u[k]) == k {
    }
  }

  /** So after a run deleting a wallet's plan from either index removes exactly its rows. */
  lemma RunThenDelete(d: Db, o: Orders, hash: Hash, wallet: string, plan: string, ids: seq<string>, hashIds: seq<string>)
    requires HexDigest(hash) && Lists(o, d) && d.plans != map[]
    requires var c := RunPlan(d, o, hash); c.plan.Some? ==>
      Movable(d.recipientIndex, c.plan.value) && Movable(d.mnemonicIndex, c.plan.value) && Movable(d.deliveryLog, c.plan.value)
    requires PlanKeyed(d.recipientIndex, wallet, plan) && PlanKeyed(d.mnemonicIndex, wallet, plan)
    requires Covers(ids, Run(d, o, hash).0.recipientIndex) && Covers(hashIds, Run(d, o, hash).0.mnemonicIndex)
    ensures var e := Run(d, o, hash).0;
      && DeleteByKeys(e.recipientIndex, EntriesOf(e.recipientIndex, ids), wallet, plan) == Without(e.recipientIndex, wallet, plan)
      && DeleteByKeys(e.mnemonicIndex, EntriesOf(e.mnemonicIndex, hashIds), wallet, plan) == Without(e.mnemonicIndex, wallet, plan)
  {
    hide Run, Movable, Migrated, Key, DeleteByKeys;
    RunAgreesWithKeys(d, o, hash);
    var c, e := RunPlan(d, o, hash), Run(d, o, hash).0;
    PlanKeyedStays(d.recipientIndex, e.recipientIndex, c, wallet, plan);
    PlanKeyedStays(d.mnemonicIndex, e.mnemonicIndex, c, wallet, plan);
    DeletesExactly(e.recipientIndex, ids, wallet, plan);
    DeletesExactly(e.mnemonicIndex, hashIds, wallet, plan);
  }

  // ----- The tables and the script itself -----

  class RowTable {
    var rows: map<string, Row>

    constructor (rows: map<string, Row>)
      ensures this.rows == rows
    {
      this.rows := rows;
    }

    method Create(id: string, r: Row)
      modifies this
      ensures rows == old(rows)[id := r]
    {
      rows := rows[id := r];
    }

    method Delete(id: string)
      modifies this
      ensures rows == old(rows) - {id}
    {
      rows := rows - {id};
    }

    method RekeyRow(oldId: string, c: Current, hash: Hash) returns (changed: nat)
      modifies this
      ensures (rows, changed) == RekeyOne(old(rows), oldId, c, hash)
    {
      if oldId !in rows || rows[oldId].plan != "" { return 0; }
      var r := rows[oldId];
      if !Kept(r, c) {
        Delete(oldId);
      } else {
        var newId := NewKey(oldId, r, c, hash);
        Create(newId, WithPlan(r, c.Field()));
        if newId != oldId { Delete(oldId); }
      }
      changed := 1;
    }

    /** Steps 3 to 6. */
    method Rekey(c: Current, hash: Hash) returns (changes: nat, ghost order: seq<string>)
      modifies this
      ensures Covers(order, old(rows)) && (rows, changes) == RekeyAll(old(rows), 0, order, c, hash)
    {
      hide RekeyOne;
      var ids := Listed(rows);
      order, changes := ids, 0;
      for i := 0 to |ids|
        invariant RekeyAll(rows, changes, ids[i..], c, hash) == RekeyAll(old(rows), 0, ids, c, hash)
      {
        assert ids[i..][0] == ids[i] && ids[i..][1..] == ids[i + 1..];
        var changed := RekeyRow(ids[i], c, hash);
        changes := changes + changed;
      }
      assert ids[|ids|..] == [];
    }

    /** For an index: deletes by the key recomputed from each listed row of that wallet and plan. */
    method DeleteByWalletPlan(wallet: string, plan: string) returns (ghost order: seq<string>)
      requires OfKind(rows, false)
      modifies this
      ensures Covers(order, old(rows))
      ensures rows == DeleteByKeys(old(rows), EntriesOf(old(rows), order), wallet, plan)
      ensures PlanKeyed(old(rows), wallet, plan) ==> rows == Without(old(rows), wallet, plan)
    {
      ghost var were := rows;
      var ids := Listed(rows);
      order := ids;
      var entries := EntriesOf(rows, ids);
      assert entries[..0] == [];
      for i := 0 to |entries|
        invariant rows == DeleteByKeys(were, entries[..i], wallet, plan)
      {
        var e := entries[i];
        assert entries[..i + 1][..i] == entries[..i];
        if Doomed(e, wallet, plan) {
          var id := if plan == "" then e.first + "_" + wallet else e.first + "_" + wallet + "_" + plan;
          assert id == Key(e);
          Delete(id);
        }
      }
      assert entries[..|entries|] == entries;
      if PlanKeyed(were, wallet, plan) { DeletesExactly(were, ids, wallet, plan); }
    }
  }

  ghost function PartlySet(t: map<string, Plan>, done: set<string>, hash: Hash): map<string, Plan>
    requires HexDigest(hash)
  {
    map k | k in t :: if k in done then t[k].(planId := hash(k)[..32]) else t[k]
  }

  ghost function Seen(t: map<string, Plan>, ids: seq<string>): set<string> {
    set k | k in ids && k in t && t[k].planId == ""
  }

  lemma NoneSeen(t: map<string, Plan>, hash: Hash)
    requires HexDigest(hash)
    ensures Seen(t, []) == {} && PartlySet(t, Seen(t, []), hash) == t
  {
  }

  lemma SeeOneMore(t: map<string, Plan>, ids: seq<string>, i: nat, hash: Hash)
    requires HexDigest(hash) && Covers(ids, t) && i < |ids|
    ensures var u, key := PartlySet(t, Seen(t, ids[..i]), hash), ids[i];
      var v := PartlySet(t, Seen(t, ids[..i + 1]), hash);
      && key in u && |hash(key)| == 64
      && v == (if u[key].planId == "" then u[key := u[key].(planId := hash(key)[..32])] else u)
      && |Seen(t, ids[..i + 1])| == |Seen(t, ids[..i])| + if u[key].planId == "" then 1 else 0
  {
    var key := ids[i];
    assert ids[..i + 1] == ids[..i] + [key];
    assert |hash(key)[..32]| == 32;
    var s := Seen(t, ids[..i]);
    if t[key].planId == "" && key !in s {
      assert Seen(t, ids[..i + 1]) == s + {key};
    } else {
      assert Seen(t, ids[..i + 1]) == s;
    }
  }

  lemma AllSeen(t: map<string, Plan>, ids: seq<string>, hash: Hash)
    requires HexDigest(hash) && Covers(ids, t)
    ensures Seen(t, ids) == Planless(t) && PartlySet(t, Planless(t), hash) == SetPlans(t, hash)
  {
    assert Seen(t, ids) == Planless(t);
  }

  class Database {
    var plans: map<string, Plan>
    var bindings: map<string, Owned>
    const paths: RowTable
    const recipientIndex: RowTable
    const mnemonicIndex: RowTable
    const deliveryLog: RowTable
    var triggers: map<string, Owned>

    constructor (d: Db)
      ensures Valid() && View() == d
      ensures fresh(paths) && fresh(recipientIndex) && fresh(mnemonicIndex) && fresh(deliveryLog)
    {
      plans, bindings, triggers := d.plans, d.bindings, d.triggers;
      paths := new RowTable(d.paths);
      recipientIndex := new RowTable(d.recipientIndex);
      mnemonicIndex := new RowTable(d.mnemonicIndex);
      deliveryLog := new RowTable(d.deliveryLog);
    }

    ghost predicate Valid() {
      && paths != recipientIndex && paths != mnemonicIndex && paths != deliveryLog
      && recipientIndex != mnemonicIndex && recipientIndex != deliveryLog && mnemonicIndex != deliveryLog
    }

    ghost function View(): Db
      reads this, paths, recipientIndex, mnemonicIndex, deliveryLog
    {
      Db(plans, bindings, paths.rows, recipientIndex.rows, mnemonicIndex.rows, deliveryLog.rows, triggers)
    }

    /** Step 1. */
    method BackfillPlans(ids: seq<string>, hash: Hash) returns (changes: nat)
      requires Covers(ids, plans) && HexDigest(hash)
      modifies this`plans
      ensures plans == SetPlans(old(plans), hash) && changes == |Planless(old(plans))|
    {
      hide SetPlans, PartlySet, Seen, Planless, Covers, HexDigest;
      ghost var t := plans;
      changes := 0;
      NoneSeen(t, hash);
      assert ids[..0] == [];
      for i := 0 to |ids|
        invariant changes == |Seen(t, ids[..i])| && plans == PartlySet(t, Seen(t, ids[..i]), hash)
      {
        var key := ids[i];
        SeeOneMore(t, ids, i, hash);
        if plans[key].planId == "" {
          plans := plans[key := plans[key].(planId := hash(key)[..32])];
          changes := changes + 1;
        }
      }
      assert ids[..|ids|] == ids;
      AllSeen(t, ids, hash);
    }

    /** Steps 2 and 7. */
    static method Patch(t: map<string, Owned>, plans: map<string, Plan>, ids: seq<string>)
      returns (u: map<string, Owned>, changes: nat, ghost order: seq<string>)
      ensures Covers(order, t) && (u, changes) == PatchAll(t, 0, Records(t, order), plans, ids)
    {
      var keys := Listed(t);
      order := keys;
      var records := Records(t, keys);
      u, changes := t, 0;
      for i := 0 to |records|
        invariant PatchAll(u, changes, records[i..], plans, ids) == PatchAll(t, 0, records, plans, ids)
      {
        hide Assigned;
        var r := records[i];
        assert records[i..] == [r] + records[i + 1..];
        if r.plan == "" {
          if r.id in u { u := u[r.id := r.(plan := Assigned(r, plans, ids))]; }
          changes := changes + 1;
        }
      }
      assert records[|records|..] == [];
    }

    method Backfill(hash: Hash) returns (changes: nat, ghost o: Orders)
      requires Valid() && HexDigest(hash)
      modifies this, paths, recipientIndex, mnemonicIndex, deliveryLog
      ensures Lists(o, old(View())) && (View(), changes) == Run(old(View()), o, hash)
    {
      hide PatchAll, RekeyAll, CurrentOf, SetPlans, Planless, Records;
      var planIds := Listed(plans);
      var n1 := BackfillPlans(planIds, hash);
      var c := CurrentOf(plans, planIds);
      ghost var o2, o3, o4, o5, o6, o7;
      var n2, n3, n4, n5, n6, n7;
      bindings, n2, o2 := Patch(bindings, plans, planIds);
      n3, o3 := paths.Rekey(c, hash);
      n4, o4 := recipientIndex.Rekey(c, hash);
      n5, o5 := mnemonicIndex.Rekey(c, hash);
      n6, o6 := deliveryLog.Rekey(c, hash);
      triggers, n7, o7 := Patch(triggers, plans, planIds);
      o := Orders(planIds, o2, o3, o4, o5, o6, o7);
      changes := n1 + n2 + n3 + n4 + n5 + n6 + n7;
    }
  }
}
