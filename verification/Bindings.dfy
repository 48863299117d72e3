/**
 Bindings between a wallet and an authority, and the count of active ones each authority carries.

 A request is one step; its body has passed validation.
 */
module Bindings {

  datatype Authority = Authority(verified: bool, active: nat, capacity: nat)

  datatype Status = Active | Replaced | Terminated

  datatype Binding = Binding(wallet: string, authority: string, plan: string, status: Status)

  datatype State = State(authorities: map<string, Authority>, bindings: map<string, Binding>)

  datatype Outcome = Created | Ended | AlreadyEnded | Forbidden | NotFound | NotVerified | Duplicate | Full

  /** `id` is the random id drawn, which is never taken. */
  datatype Event =
    | Create(caller: string, wallet: string, authority: string, plan: string, id: string)
    | Delete(caller: string, id: string)

  predicate SameBinding(b: Binding, wallet: string, authority: string, plan: string) {
    b.wallet == wallet && b.authority == authority && b.plan == plan && b.status == Active
  }

  predicate HasDuplicate(t: map<string, Binding>, wallet: string, authority: string, plan: string) {
    exists k <- t :: SameBinding(t[k], wallet, authority, plan)
  }

  function Decremented(n: nat): nat {
    if n == 0 then 0 else n - 1
  }

  function Handle(s: State, e: Event): (State, Outcome) {
    match e
    case Create(caller, wallet, authority, plan, id) =>
      if caller != authority then (s, Forbidden)
      else if authority !in s.authorities then (s, NotFound)
      else if !s.authorities[authority].verified then (s, NotVerified)
      else if HasDuplicate(s.bindings, wallet, authority, plan) || id in s.bindings then (s, Duplicate)
      else
        var a := s.authorities[authority];
        if a.active >= a.capacity then (s, Full)
        else (State(s.authorities[authority := a.(active := a.active + 1)], s.bindings[id := Binding(wallet, authority, plan, Active)]), Created)
    case Delete(caller, id) =>
      if id !in s.bindings then (s, NotFound)
      else
        var b := s.bindings[id];
        if b.status == Terminated then (s, AlreadyEnded)
        else if caller != b.authority then (s, Forbidden)
        else
          var authorities :=
            if b.authority in s.authorities then
              s.authorities[b.authority := s.authorities[b.authority].(active := Decremented(s.authorities[b.authority].active))]
            else s.authorities;
          (State(authorities, s.bindings[id := b.(status := Terminated)]), Ended)
  }

  function Step(s: State, e: Event): State {
    Handle(s, e).0
  }

  function Run(s: State, es: seq<Event>): State
    decreases |es|
  {
    if es == [] then s else Run(Step(s, es[0]), es[1..])
  }

  predicate ActiveFor(t: map<string, Binding>, k: string, authority: string) {
    k in t && t[k].authority == authority && t[k].status == Active
  }

  function ActiveIds(t: map<string, Binding>, authority: string): set<string> {
    set k | k in t && ActiveFor(t, k, authority)
  }

  ghost predicate Counted(s: State) {
    forall a <- s.authorities :: s.authorities[a].active == |ActiveIds(s.bindings, a)| <= s.authorities[a].capacity
  }

  ghost predicate NoDuplicates(t: map<string, Binding>) {
    forall j, k :: j in t && k in t && t[j].status == Active && t[k] == t[j] ==> j == k
  }

  ghost predicate NoneReplaced(t: map<string, Binding>) {
    forall k <- t :: t[k].status != Replaced
  }

  ghost predicate Inv(s: State) {
    Counted(s) && NoDuplicates(s.bindings) && NoneReplaced(s.bindings)
  }

  lemma ActiveIdsAdd(t: map<string, Binding>, id: string, b: Binding, a: string)
    requires id !in t && b.status == Active
    ensures |ActiveIds(t[id := b], a)| == |ActiveIds(t, a)| + if a == b.authority then 1 else 0
  {
    if a == b.authority {
      assert ActiveIds(t[id := b], a) == ActiveIds(t, a) + {id};
    } else {
      assert ActiveIds(t[id := b], a) == ActiveIds(t, a);
    }
  }

  lemma ActiveIdsEnd(t: map<string, Binding>, id: string, a: string)
    requires id in t
    ensures |ActiveIds(t[id := t[id].(status := Terminated)], a)| == |ActiveIds(t, a)| - if ActiveFor(t, id, a) then 1 else 0
  {
    var u := t[id := t[id].(status := Terminated)];
    if ActiveFor(t, id, a) {
      assert ActiveIds(u, a) == ActiveIds(t, a) - {id};
    } else {
      assert ActiveIds(u, a) == ActiveIds(t, a);
    }
  }

  lemma NoDuplicatesAdd(t: map<string, Binding>, id: string, b: Binding)
    requires NoDuplicates(t) && id !in t && b.status == Active && !HasDuplicate(t, b.wallet, b.authority, b.plan)
    ensures NoDuplicates(t[id := b])
  {
    forall k | k in t ensures t[k] != b {
      assert !SameBinding(t[k], b.wallet, b.authority, b.plan);
    }
  }

  lemma CreateKeepsInv(s: State, e: Event)
    requires Inv(s) && e.Create?
    ensures Inv(Step(s, e))
  {
    hide ActiveIds, HasDuplicate, NoDuplicates;
    var t := Step(s, e);
    if t != s {
      var b := Binding(e.wallet, e.authority, e.plan, Active);
      forall a | a in t.authorities ensures t.authorities[a].active == |ActiveIds(t.bindings, a)| <= t.authorities[a].capacity {
        ActiveIdsAdd(s.bindings, e.id, b, a);
      }
      NoDuplicatesAdd(s.bindings, e.id, b);
    }
  }

  lemma DeleteKeepsInv(s: State, e: Event)
    requires Inv(s) && e.Delete?
    ensures Inv(Step(s, e))
  {
    hide ActiveIds;
    var t := Step(s, e);
    if t != s {
      forall a | a in t.authorities ensures t.authorities[a].active == |ActiveIds(t.bindings, a)| <= t.authorities[a].capacity {
        ActiveIdsEnd(s.bindings, e.id, a);
      }
    }
  }

  /**
   Over any run each authority's count is its number of active bindings and stays within capacity, and no
   two active bindings share wallet, authority and plan.
   */
  lemma {:induction false} RunKeepsInv(s: State, es: seq<Event>)
    requires Inv(s)
    ensures Inv(Run(s, es))
    decreases |es|
  {
    if es != [] {
      hide Inv, Step;
      if es[0].Create? { CreateKeepsInv(s, es[0]); } else { DeleteKeepsInv(s, es[0]); }
      RunKeepsInv(Step(s, es[0]), es[1..]);
    }
  }

  lemma EmptyIsCounted(authorities: map<string, Authority>)
    requires forall a <- authorities :: authorities[a].active == 0
    ensures Inv(State(authorities, map[]))
  {
    forall a | a in authorities ensures ActiveIds(map[], a) == {} {}
  }

  lemma {:induction false} TerminatedStays(s: State, es: seq<Event>, id: string)
    requires id in s.bindings && s.bindings[id].status == Terminated
    ensures id in Run(s, es).bindings && Run(s, es).bindings[id] == s.bindings[id]
    decreases |es|
  {
    if es != [] {
      TerminatedStays(Step(s, es[0]), es[1..], id);
    }
  }

  /** Once deleted, a binding can be deleted again at any later point, by anyone, and nothing more changes. */
  lemma DeletedTwiceChangesNothing(s: State, caller: string, id: string, es: seq<Event>, again: string)
    requires Handle(s, Delete(caller, id)).1 == Ended
    ensures var t := Run(Step(s, Delete(caller, id)), es); Handle(t, Delete(again, id)) == (t, AlreadyEnded)
  {
    TerminatedStays(Step(s, Delete(caller, id)), es, id);
  }

  /**
   A request creates a binding exactly when an authority asks for itself, is known and verified, has no
   active one for that wallet and plan, and has fewer active ones than its capacity.
   */
  lemma CreatesIff(s: State, caller: string, wallet: string, authority: string, plan: string, id: string)
    requires Inv(s) && id !in s.bindings
    ensures var (t, outcome) := Handle(s, Create(caller, wallet, authority, plan, id));
      && (outcome == Created <==>
            && caller == authority && authority in s.authorities && s.authorities[authority].verified
            && (forall k <- s.bindings :: s.bindings[k] != Binding(wallet, authority, plan, Active))
            && |ActiveIds(s.bindings, authority)| < s.authorities[authority].capacity)
      && (outcome == Created ==> t.bindings == s.bindings[id := Binding(wallet, authority, plan, Active)])
      && (outcome != Created ==> t == s)
  {
    hide ActiveIds;
    forall k | k in s.bindings
      ensures SameBinding(s.bindings[k], wallet, authority, plan) <==> s.bindings[k] == Binding(wallet, authority, plan, Active)
    {
    }
  }

  /** A binding is ended exactly by its own authority, and only its status changes. */
  lemma EndsIff(s: State, caller: string, id: string)
    ensures var (t, outcome) := Handle(s, Delete(caller, id));
      && (outcome == Ended <==> id in s.bindings && s.bindings[id].status != Terminated && caller == s.bindings[id].authority)
      && (outcome == Ended ==> t.bindings == s.bindings[id := s.bindings[id].(status := Terminated)])
      && (outcome != Ended ==> t == s)
  {
  }

  /** A created binding can be deleted, and that gives the capacity back. */
  lemma DeleteUndoesCreate(s: State, e: Event)
    requires e.Create? && Handle(s, e).1 == Created
    ensures var t := Step(Step(s, e), Delete(e.caller, e.id));
      t.authorities == s.authorities && t.bindings - {e.id} == s.bindings - {e.id} && !ActiveFor(t.bindings, e.id, e.authority)
  {
    var t := Step(Step(s, e), Delete(e.caller, e.id));
    var a := s.authorities[e.authority];
    assert a.(active := a.active + 1).(active := a.active) == a;
  }

  /**
   The count goes wrong when a binding that was replaced elsewhere is deleted: it was active no more, and
   its deletion still takes one off.
   */
  lemma DeletingReplacedUndercounts(s: State, caller: string, id: string)
    requires Counted(s) && id in s.bindings && s.bindings[id].status == Replaced
    requires s.bindings[id].authority == caller && caller in s.authorities
    ensures Counted(Step(s, Delete(caller, id))) <==> s.authorities[caller].active == 0
  {
    var t := Step(s, Delete(caller, id));
    forall a ensures ActiveIds(t.bindings, a) == ActiveIds(s.bindings, a) {}
  }

  class BindingService {
    var authorities: map<string, Authority>
    var bindings: map<string, Binding>

    constructor (s: State)
      ensures View() == s
    {
      authorities, bindings := s.authorities, s.bindings;
    }

    ghost function View(): State
      reads this
    {
      State(authorities, bindings)
    }

    method CreateBinding(caller: string, wallet: string, authority: string, plan: string, id: string) returns (outcome: Outcome)
      requires id !in bindings
      modifies this
      ensures (View(), outcome) == Handle(old(View()), Create(caller, wallet, authority, plan, id))
    {
      if caller != authority { return Forbidden; }
      if authority !in authorities { return NotFound; }
      if !authorities[authority].verified { return NotVerified; }
      if HasDuplicate(bindings, wallet, authority, plan) { return Duplicate; }
      var latest := authorities[authority];
      if latest.active >= latest.capacity { return Full; }
      bindings := bindings[id := Binding(wallet, authority, plan, Active)];
      authorities := authorities[authority := latest.(active := latest.active + 1)];
      outcome := Created;
    }

    method DeleteBinding(caller: string, id: string) returns (outcome: Outcome)
      modifies this
      ensures (View(), outcome) == Handle(old(View()), Delete(caller, id))
    {
      if id !in bindings { return NotFound; }
      var b := bindings[id];
      if b.status == Terminated { return AlreadyEnded; }
      if caller != b.authority { return Forbidden; }
      bindings := bindings[id := b.(status := Terminated)];
      if b.authority in authorities {
        var a := authorities[b.authority];
        authorities := authorities[b.authority := a.(active := Decremented(a.active))];
      }
      outcome := Ended;
    }
  }
}
