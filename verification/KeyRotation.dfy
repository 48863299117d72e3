/**
 The rotate-key saga: create the authority's new record, mark the old one, move its bindings one by one,
 and undo what was done when a step fails.

 A failing operation has no effect and a rollback never fails. An absent `id` is "".
 */
module KeyRotation {
  import opened Wrappers
  import opened Tables
  import opened Text

  datatype Authority = Authority(pubkey: string, id: string, status: string, previous: Option<string>, rotatedTo: Option<string>)

  datatype Binding = Binding(id: string, wallet: string, authority: string, body: string)

  datatype Store = Store(authorities: map<string, Authority>, bindings: map<string, Binding>)

  /** Which operation fails; `AtBinding(i)` is the update of the i-th binding found. */
  datatype Fault = NoFault | AtCreate | AtMarkOld | AtList | AtBinding(i: nat)

  datatype Outcome = NotFound | AlreadyRegistered | Failed | Rotated(migrated: nat)

  /** db.update: nothing happens to an absent key. */
  function Update<R>(t: map<string, R>, k: string, r: R): map<string, R> {
    if k in t then t[k := r] else t
  }

  function BindingKey(b: Binding, oldId: string): string {
    if b.id != "" then b.id else b.wallet + "_" + oldId
  }

  /** Updates the first of the bindings under their recomputed keys, moved to the authority named. */
  function Written(t: map<string, Binding>, bs: seq<Binding>, oldId: string, authority: string): map<string, Binding> {
    if bs == [] then t
    else
      var n := |bs| - 1;
      Update(Written(t, bs[..n], oldId, authority), BindingKey(bs[n], oldId), bs[n].(authority := authority))
  }

  function NewRecord(a: Authority, newKey: string, newId: string, oldId: string): Authority {
    a.(pubkey := newKey, id := newId, previous := Some(oldId))
  }

  function MarkedOld(a: Authority, newId: string): Authority {
    a.(status := "key_rotated", rotatedTo := Some(newId))
  }

  /** The bindings found for an authority, in the order the store lists its keys. */
  function Found(t: map<string, Binding>, order: seq<string>, authority: string): (bs: seq<Binding>)
    ensures forall b <- bs :: b.authority == authority && exists k :: k in order && k in t && t[k] == b
    ensures forall k <- order :: k in t && t[k].authority == authority ==> t[k] in bs
  {
    if order == [] then []
    else
      var n := |order| - 1;
      var before := Found(t, order[..n], authority);
      if order[n] in t && t[order[n]].authority == authority then before + [t[order[n]]] else before
  }

  // ----- The saga, step by step -----

  class Registry {
    var authorities: map<string, Authority>
    var bindings: map<string, Binding>

    constructor (s: Store)
      ensures View() == s
    {
      authorities, bindings := s.authorities, s.bindings;
    }

    ghost function View(): Store
      reads this
    {
      Store(authorities, bindings)
    }

    /** Step 3: the bindings moved, which are all of them unless an update fails. */
    method MigrateBindings(found: seq<Binding>, oldId: string, newId: string, fault: Fault) returns (ok: bool, migrated: seq<(string, Binding)>)
      modifies this`bindings
      ensures ok <==> !(fault.AtBinding? && fault.i < |found|)
      ensures var done := if ok then found else found[..fault.i];
        Recorded(migrated, done, oldId) && bindings == Written(old(bindings), done, oldId, newId)
    {
      migrated := [];
      assert found[..0] == [];
      for i := 0 to |found|
        invariant Recorded(migrated, found[..i], oldId)
        invariant bindings == Written(old(bindings), found[..i], oldId, newId)
        invariant fault.AtBinding? ==> i <= fault.i
      {
        if fault == AtBinding(i) { return false, migrated; }
        var b := found[i];
        assert found[..i + 1][..i] == found[..i];
        bindings := Update(bindings, BindingKey(b, oldId), b.(authority := newId));
        migrated := migrated + [(BindingKey(b, oldId), b)];
      }
      assert found[..|found|] == found;
      ok := true;
    }

    method RestoreBindings(migrated: seq<(string, Binding)>, ghost done: seq<Binding>, oldId: string)
      requires Recorded(migrated, done, oldId) && forall b <- done :: b.authority == oldId
      modifies this`bindings
      ensures bindings == Written(old(bindings), done, oldId, oldId)
    {
      for j := 0 to |migrated|
        invariant bindings == Written(old(bindings), done[..j], oldId, oldId)
      {
        var (key, original) := migrated[j];
        assert done[..j + 1][..j] == done[..j];
        assert done[j] in done;
        bindings := Update(bindings, key, original);
      }
      assert done[..|migrated|] == done;
    }

    /** `order` lists the binding keys; the signature has been verified and newId is the new key's hash. */
    method RotateKey(oldId: string, newKey: string, newId: string, order: seq<string>, fault: Fault) returns (outcome: Outcome)
      requires Covers(order, bindings)
      modifies this
      ensures (View(), outcome) == Rotate(old(View()), oldId, newKey, newId, order, fault)
    {
      hide Written, Found;
      if oldId !in authorities { return NotFound; }
      if newId in authorities { return AlreadyRegistered; }
      var oldAuth := authorities[oldId];
      if fault == AtCreate { return Failed; }
      authorities := authorities[newId := NewRecord(oldAuth, newKey, newId, oldId)];
      if fault == AtMarkOld {
        authorities := authorities - {newId};
        assert authorities == old(authorities);
        return Failed;
      }
      authorities := Update(authorities, oldId, MarkedOld(oldAuth, newId));
      if fault == AtList { return Failed; }
      var found := Found(bindings, order, oldId);
      var ok, migrated := MigrateBindings(found, oldId, newId, fault);
      if !ok {
        RestoreBindings(migrated, found[..fault.i], oldId);
        authorities := Update(authorities, oldId, oldAuth) - {newId};
        assert authorities == old(authorities);
        return Failed;
      }
      outcome := Rotated(|found|);
    }
  }

  predicate Recorded(migrated: seq<(string, Binding)>, done: seq<Binding>, oldId: string) {
    |migrated| == |done| && forall j :: 0 <= j < |done| ==> migrated[j] == (BindingKey(done[j], oldId), done[j])
  }

  function Begun(t: map<string, Authority>, oldId: string, newKey: string, newId: string): map<string, Authority>
    requires oldId in t
  {
    t[newId := NewRecord(t[oldId], newKey, newId, oldId)][oldId := MarkedOld(t[oldId], newId)]
  }

  function Rotate(s: Store, oldId: string, newKey: string, newId: string, order: seq<string>, fault: Fault): (Store, Outcome) {
    if oldId !in s.authorities then (s, NotFound)
    else if newId in s.authorities then (s, AlreadyRegistered)
    else
      var begun := Begun(s.authorities, oldId, newKey, newId);
      var found := Found(s.bindings, order, oldId);
      if fault == AtCreate || fault == AtMarkOld then (s, Failed)
      else if fault == AtList then (Store(begun, s.bindings), Failed)
      else if fault.AtBinding? && fault.i < |found| then
        var done := found[..fault.i];
        (Store(s.authorities, Written(Written(s.bindings, done, oldId, newId), done, oldId, oldId)), Failed)
      else
        (Store(begun, Written(s.bindings, found, oldId, newId)), Rotated(|found|))
  }

  // ----- What is restored and what is moved -----

  /** The last of the bindings whose recomputed key is k. */
  function LastFor(bs: seq<Binding>, k: string, oldId: string): (r: Option<Binding>)
    ensures r.Some? ==> r.value in bs && BindingKey(r.value, oldId) == k
    ensures r.None? ==> forall b <- bs :: BindingKey(b, oldId) != k
  {
    if bs == [] then None
    else
      var n := |bs| - 1;
      if BindingKey(bs[n], oldId) == k then Some(bs[n]) else LastFor(bs[..n], k, oldId)
  }

  lemma {:induction false} WrittenAt(t: map<string, Binding>, bs: seq<Binding>, oldId: string, authority: string, k: string)
    ensures var u, last := Written(t, bs, oldId, authority), LastFor(bs, k, oldId);
      (k in u <==> k in t) && (k in t ==> u[k] == if last.Some? then last.value.(authority := authority) else t[k])
  {
    if bs != [] {
      WrittenAt(t, bs[..|bs| - 1], oldId, authority, k);
    }
  }

  /** For every stored key, the last of the bindings that recomputes to it, if any, is the one stored there. */
  ghost predicate LastIsOwn(t: map<string, Binding>, bs: seq<Binding>, oldId: string) {
    forall k <- t :: LastFor(bs, k, oldId).Some? ==> LastFor(bs, k, oldId).value == t[k]
  }

  lemma RestoredBindings(t: map<string, Binding>, done: seq<Binding>, oldId: string, newId: string)
    requires forall b <- done :: b.authority == oldId
    ensures Written(Written(t, done, oldId, newId), done, oldId, oldId) == t <==> LastIsOwn(t, done, oldId)
  {
    hide Written, LastFor;
    var u := Written(Written(t, done, oldId, newId), done, oldId, oldId);
    forall k ensures (k in u <==> k in t) && (k in t ==>
      u[k] == if LastFor(done, k, oldId).Some? then LastFor(done, k, oldId).value else t[k])
    {
      WrittenAt(t, done, oldId, newId, k);
      WrittenAt(Written(t, done, oldId, newId), done, oldId, oldId, k);
    }
    if LastIsOwn(t, done, oldId) {
      assert u == t;
    }
  }

  /** A failed rotation leaves the store exactly as it was, but for a failure to list the bindings. */
  lemma FailureRestoresIff(s: Store, oldId: string, newKey: string, newId: string, order: seq<string>, fault: Fault)
    requires Rotate(s, oldId, newKey, newId, order, fault).1 == Failed
    ensures Rotate(s, oldId, newKey, newId, order, fault).0 == s <==>
      fault != AtList && (fault.AtBinding? ==> LastIsOwn(s.bindings, Found(s.bindings, order, oldId)[..fault.i], oldId))
  {
    hide Written, Found, LastIsOwn;
    var found := Found(s.bindings, order, oldId);
    if fault == AtList {
      assert newId in Begun(s.authorities, oldId, newKey, newId);
    } else if fault.AtBinding? {
      RestoredBindings(s.bindings, found[..fault.i], oldId, newId);
    }
  }

  /** Each found binding's recomputed key is its own store key or no key at all. */
  ghost predicate OwnKeyOrAbsent(t: map<string, Binding>, oldId: string) {
    forall k <- t :: t[k].authority == oldId ==> BindingKey(t[k], oldId) == k || BindingKey(t[k], oldId) !in t
  }

  lemma OwnKeyOrAbsentRestores(s: Store, oldId: string, newKey: string, newId: string, order: seq<string>, fault: Fault)
    requires Covers(order, s.bindings) && OwnKeyOrAbsent(s.bindings, oldId) && fault != AtList
    requires Rotate(s, oldId, newKey, newId, order, fault).1 == Failed
    ensures Rotate(s, oldId, newKey, newId, order, fault).0 == s
  {
    hide Found, LastFor;
    FailureRestoresIff(s, oldId, newKey, newId, order, fault);
    if fault.AtBinding? {
      var t, done := s.bindings, Found(s.bindings, order, oldId)[..fault.i];
      forall k | k in t && LastFor(done, k, oldId).Some? ensures LastFor(done, k, oldId).value == t[k] {
        var b := LastFor(done, k, oldId).value;
        var j :| j in order && j in t && t[j] == b;
        assert BindingKey(t[j], oldId) == k;
      }
    }
  }

  predicate AllOwnKeys(t: map<string, Binding>, oldId: string) {
    forall k <- t :: t[k].authority == oldId ==> BindingKey(t[k], oldId) == k
  }

  lemma FoundAt(t: map<string, Binding>, order: seq<string>, oldId: string, k: string)
    requires Covers(order, t) && AllOwnKeys(t, oldId) && k in t
    ensures LastFor(Found(t, order, oldId), k, oldId) == if t[k].authority == oldId then Some(t[k]) else None
  {
    hide Found, LastFor;
    var found := Found(t, order, oldId);
    var last := LastFor(found, k, oldId);
    assert k in order;
    if last.Some? {
      var j :| j in order && j in t && t[j] == last.value;
      assert j == k;
    } else if t[k].authority == oldId {
      assert false;
    }
  }

  /** The new record takes over everything but the key, its id and where it came from; the old one is marked. */
  lemma AuthoritiesAfter(t: map<string, Authority>, oldId: string, newKey: string, newId: string)
    requires oldId in t && newId !in t
    ensures var u := Begun(t, oldId, newKey, newId);
      && u.Keys == t.Keys + {newId}
      && u[newId].pubkey == newKey && u[newId].id == newId && u[newId].previous == Some(oldId)
      && u[newId].status == t[oldId].status && u[newId].rotatedTo == t[oldId].rotatedTo
      && u[oldId].status == "key_rotated" && u[oldId].rotatedTo == Some(newId)
      && u[oldId].pubkey == t[oldId].pubkey && u[oldId].id == t[oldId].id && u[oldId].previous == t[oldId].previous
      && (forall k <- t :: k != oldId ==> u[k] == t[k])
  {
  }

  /** Each binding of the old authority is stored under its `id`, or without one under wallet and old authority. */
  ghost predicate UnderOwnKeys(t: map<string, Binding>, oldId: string) {
    forall k <- t :: t[k].authority == oldId ==>
      (t[k].id != "" && k == t[k].id) || (t[k].id == "" && k == t[k].wallet + "_" + oldId)
  }

  /**
   A rotation that succeeds creates the new record and marks the old one; it moves every binding of the old
   authority and touches no other exactly when each is stored under its recomputed key.
   */
  lemma SuccessMovesAllIff(s: Store, oldId: string, newKey: string, newId: string, order: seq<string>, fault: Fault)
    requires Covers(order, s.bindings) && Rotate(s, oldId, newKey, newId, order, fault).1.Rotated?
    ensures var t := Rotate(s, oldId, newKey, newId, order, fault).0;
      && t.authorities == Begun(s.authorities, oldId, newKey, newId)
      && newId in t.authorities && t.authorities[newId].pubkey == newKey && t.authorities[newId].previous == Some(oldId)
      && t.authorities[oldId].status == "key_rotated" && t.authorities[oldId].rotatedTo == Some(newId)
      && t.bindings.Keys == s.bindings.Keys
      && ((forall k <- s.bindings ::
             t.bindings[k] == if s.bindings[k].authority == oldId then s.bindings[k].(authority := newId) else s.bindings[k])
          <==> UnderOwnKeys(s.bindings, oldId))
  {
    hide Found, LastFor, Written, Begun;
    AuthoritiesAfter(s.authorities, oldId, newKey, newId);
    assert AllOwnKeys(s.bindings, oldId) <==> UnderOwnKeys(s.bindings, oldId);
    var t, found := s.bindings, Found(s.bindings, order, oldId);
    var u := Written(t, found, oldId, newId);
    forall k ensures (k in u <==> k in t) && (k in t ==>
      u[k] == if LastFor(found, k, oldId).Some? then LastFor(found, k, oldId).value.(authority := newId) else t[k])
    {
      WrittenAt(t, found, oldId, newId, k);
    }
    if AllOwnKeys(t, oldId) {
      forall k | k in t ensures u[k] == if t[k].authority == oldId then t[k].(authority := newId) else t[k] {
        FoundAt(t, order, oldId, k);
      }
    }
    if forall k <- t :: u[k] == if t[k].authority == oldId then t[k].(authority := newId) else t[k] {
      assert newId != oldId;
      forall k | k in t && t[k].authority == oldId ensures BindingKey(t[k], oldId) == k {
        assert u[k] == t[k].(authority := newId);
        var b := LastFor(found, k, oldId).value;
        assert b == b.(authority := newId).(authority := oldId) == t[k];
      }
    }
  }

  /** Nothing happens without the old authority, or if the new id is taken; and only a fault makes it fail. */
  lemma RotatesIff(s: Store, oldId: string, newKey: string, newId: string, order: seq<string>, fault: Fault)
    ensures var (t, outcome) := Rotate(s, oldId, newKey, newId, order, fault);
      && (outcome == NotFound <==> oldId !in s.authorities)
      && (outcome == AlreadyRegistered <==> oldId in s.authorities && newId in s.authorities)
      && (outcome.Rotated? <==>
            && oldId in s.authorities && newId !in s.authorities
            && (fault == NoFault || (fault.AtBinding? && fault.i >= |Found(s.bindings, order, oldId)|)))
      && (outcome == NotFound || outcome == AlreadyRegistered ==> t == s)
      && (outcome.Rotated? ==> outcome.migrated == |Found(s.bindings, order, oldId)|)
  {
    hide Found, Written;
  }

  /** Bindings keyed by a random hexadecimal id and carrying no `id` field are reported as moved but are not. */
  lemma CreatedBindingsNeverMove(s: Store, oldId: string, newKey: string, newId: string, order: seq<string>)
    requires oldId in s.authorities && newId !in s.authorities && Covers(order, s.bindings)
    requires forall k <- s.bindings :: s.bindings[k].id == "" && Plain(k)
    ensures var (t, outcome) := Rotate(s, oldId, newKey, newId, order, NoFault);
      t.bindings == s.bindings && outcome == Rotated(|Found(s.bindings, order, oldId)|)
  {
    hide Found, Written, LastFor;
    var t, found := s.bindings, Found(s.bindings, order, oldId);
    var u := Written(t, found, oldId, newId);
    forall b | b in found ensures !Plain(BindingKey(b, oldId)) {
      assert b.id == "" && BindingKey(b, oldId)[|b.wallet|] == '_';
    }
    forall k ensures (k in u <==> k in t) && (k in t ==> u[k] == t[k]) {
      WrittenAt(t, found, oldId, newId, k);
    }
    assert u == t;
  }

  lemma FoundPair(t: map<string, Binding>, j: string, k: string, authority: string)
    requires j in t && k in t && t[j].authority == authority && t[k].authority == authority
    ensures Found(t, [j, k], authority) == [t[j], t[k]]
  {
    assert [j, k][..1] == [j] && [j][..0] == [];
    assert Found(t, [j], authority) == [t[j]];
  }

  lemma WrittenOne(t: map<string, Binding>, b: Binding, oldId: string, authority: string)
    ensures Written(t, [b], oldId, authority) == Update(t, BindingKey(b, oldId), b.(authority := authority))
  {
    assert [b][..0] == [];
  }

  /**
   A failed rotation that is not undone: two bindings of one wallet recompute to the same key, which is the
   second's own, and the failure comes between them.
   */
  lemma FailureReplacesBinding(newKey: string)
    ensures var b1, b2 := Binding("", "w", "o", "first"), Binding("", "w", "o", "second");
      var s := Store(map["o" := Authority("k", "o", "active", None, None)], map["1f" := b1, "w_o" := b2]);
      Rotate(s, "o", newKey, "n", ["1f", "w_o"], AtBinding(1)) == (s.(bindings := map["1f" := b1, "w_o" := b1]), Failed)
  {
    hide Found, Written;
    var b1, b2 := Binding("", "w", "o", "first"), Binding("", "w", "o", "second");
    var t := map["1f" := b1, "w_o" := b2];
    FoundPair(t, "1f", "w_o", "o");
    assert [b1, b2][..1] == [b1];
    assert BindingKey(b1, "o") == "w" + "_" + "o" == "w_o";
    WrittenOne(t, b1, "o", "n");
    var moved := t["w_o" := b1.(authority := "n")];
    WrittenOne(moved, b1, "o", "o");
    assert moved["w_o" := b1] == map["1f" := b1, "w_o" := b1];
  }
}
