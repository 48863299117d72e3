/** Bitcoin coin selection: sort descending, take the shortest covering prefix, return or absorb the change. */
module Utxo {
  import opened Wrappers

  const DUST: nat := 546
  const TX_VBYTES: nat := 140

  datatype Utxo = Utxo(txid: string, vout: nat, value: nat)

  datatype Output = ToRecipient(value: nat) | Change(value: nat)

  datatype Failure = NoUtxos | Insufficient(need: nat, have: nat)

  datatype Transfer = Transfer(inputs: seq<Utxo>, outputs: seq<Output>)

  function Total(us: seq<Utxo>): nat {
    if us == [] then 0 else us[0].value + Total(us[1..])
  }

  function TotalOut(os: seq<Output>): nat {
    if os == [] then 0 else os[0].value + TotalOut(os[1..])
  }

  /** Half-hour rate, else hour rate, else 10 sat/vB; a zero rate counts as none. */
  function FeeRate(halfHour: Option<nat>, hour: Option<nat>): (rate: nat)
    ensures halfHour.Some? && halfHour.value > 0 ==> rate == halfHour.value
    ensures (halfHour == None || halfHour == Some(0)) && hour.Some? && hour.value > 0 ==> rate == hour.value
    ensures (halfHour == None || halfHour == Some(0)) && (hour == None || hour == Some(0)) ==> rate == 10
  {
    if halfHour.Some? && halfHour.value != 0 then halfHour.value
    else if hour.Some? && hour.value != 0 then hour.value
    else 10
  }

  // ----- Sorting -----

  predicate Descending(us: seq<Utxo>) {
    forall i, j :: 0 <= i < j < |us| ==> us[i].value >= us[j].value
  }

  /** Stable: `x` stood before all of `us`, so it stays before its equals. */
  function Insert(x: Utxo, us: seq<Utxo>): seq<Utxo> {
    if us == [] || us[0].value <= x.value then [x] + us else [us[0]] + Insert(x, us[1..])
  }

  function Sort(us: seq<Utxo>): seq<Utxo> {
    if us == [] then [] else Insert(us[0], Sort(us[1..]))
  }

  lemma {:induction false} InsertContents(x: Utxo, us: seq<Utxo>)
    ensures multiset(Insert(x, us)) == multiset(us) + multiset{x} && |Insert(x, us)| == |us| + 1
    decreases |us|
  {
    if us != [] && us[0].value > x.value {
      InsertContents(x, us[1..]);
      assert us == [us[0]] + us[1..];
    }
  }

  lemma {:induction false} InsertTotal(x: Utxo, us: seq<Utxo>)
    ensures Total(Insert(x, us)) == Total(us) + x.value
    decreases |us|
  {
    var r := Insert(x, us);
    if us == [] || us[0].value <= x.value {
      assert r[1..] == us;
    } else {
      InsertTotal(x, us[1..]);
      assert r[1..] == Insert(x, us[1..]);
    }
  }

  lemma ConsDescends(x: Utxo, us: seq<Utxo>)
    requires Descending(us) && forall i :: 0 <= i < |us| ==> us[i].value <= x.value
    ensures Descending([x] + us)
  {
  }

  lemma {:induction false} InsertBelow(x: Utxo, us: seq<Utxo>, top: nat)
    requires x.value <= top && forall i :: 0 <= i < |us| ==> us[i].value <= top
    ensures forall i :: 0 <= i < |Insert(x, us)| ==> Insert(x, us)[i].value <= top
    decreases |us|
  {
    if us != [] && us[0].value > x.value {
      InsertBelow(x, us[1..], top);
    }
  }

  lemma {:induction false} InsertDescends(x: Utxo, us: seq<Utxo>)
    requires Descending(us)
    ensures Descending(Insert(x, us))
    decreases |us|
  {
    if us == [] || us[0].value <= x.value {
      ConsDescends(x, us);
    } else {
      InsertDescends(x, us[1..]);
      InsertBelow(x, us[1..], us[0].value);
      ConsDescends(us[0], Insert(x, us[1..]));
    }
  }

  lemma InsertKeeps(x: Utxo, us: seq<Utxo>)
    requires Descending(us)
    ensures Descending(Insert(x, us)) && multiset(Insert(x, us)) == multiset(us) + multiset{x}
    ensures Total(Insert(x, us)) == Total(us) + x.value
    ensures |Insert(x, us)| == |us| + 1
  {
    InsertContents(x, us);
    InsertTotal(x, us);
    InsertDescends(x, us);
  }

  /** Sorting permutes: no coin is lost, invented or doubled. */
  lemma {:induction false} SortPermutes(us: seq<Utxo>)
    ensures Descending(Sort(us)) && multiset(Sort(us)) == multiset(us) && Total(Sort(us)) == Total(us) && |Sort(us)| == |us|
    decreases |us|
  {
    if us != [] {
      SortPermutes(us[1..]);
      InsertKeeps(us[0], Sort(us[1..]));
      assert us == [us[0]] + us[1..];
    }
  }

  /** The coins of one value, in order. */
  function Only(us: seq<Utxo>, v: nat): seq<Utxo> {
    if us == [] then [] else (if us[0].value == v then [us[0]] else []) + Only(us[1..], v)
  }

  lemma OnlyStep(x: Utxo, us: seq<Utxo>, v: nat)
    ensures Only([x] + us, v) == (if x.value == v then [x] else []) + Only(us, v)
  {
    assert ([x] + us)[1..] == us;
  }

  lemma {:induction false} InsertIsStable(x: Utxo, us: seq<Utxo>, v: nat)
    requires Descending(us)
    ensures Only(Insert(x, us), v) == (if x.value == v then [x] else []) + Only(us, v)
    decreases |us|
  {
    hide Only, Descending;
    if us == [] || us[0].value <= x.value {
      OnlyStep(x, us, v);
    } else {
      DescendingTail(us);
      InsertIsStable(x, us[1..], v);
      OnlyStep(us[0], Insert(x, us[1..]), v);
      OnlyStep(us[0], us[1..], v);
      assert us == [us[0]] + us[1..];
    }
  }

  lemma DescendingTail(us: seq<Utxo>)
    requires us != [] && Descending(us)
    ensures Descending(us[1..])
  {
  }

  /** Sorting keeps coins of the same value in their order. */
  lemma {:induction false} SortIsStable(us: seq<Utxo>, v: nat)
    ensures Only(Sort(us), v) == Only(us, v)
    decreases |us|
  {
    if us != [] {
      SortPermutes(us[1..]);
      InsertIsStable(us[0], Sort(us[1..]), v);
      SortIsStable(us[1..], v);
    }
  }

  /** Sort in place. */
  method SortDescending(a: array<Utxo>)
    modifies a
    ensures a[..] == Sort(old(a[..]))
  {
    ghost var was := a[..];
    var i := a.Length;
    while i > 0
      invariant 0 <= i <= a.Length
      invariant a[i..] == Sort(was[i..]) && a[..i] == was[..i]
    {
      i := i - 1;
      ghost var sorted := a[i + 1..];
      assert was[i..][0] == was[i] == a[..i + 1][i] && was[i..][1..] == was[i + 1..];
      assert a[..i] == a[..i + 1][..i] == was[..i + 1][..i];
      SinkInto(a, i);
    }
    assert was[0..] == was && a[0..] == a[..];
  }

  /** x stands between the coins it has passed and the rest. */
  ghost predicate Sinking(all: seq<Utxo>, pre: seq<Utxo>, x: Utxo, rest: seq<Utxo>) {
    all == pre + [x] + rest
  }

  /** What has been passed since position i, and where x will end up after it, is x inserted into `sorted`. */
  ghost predicate InsertsTo(pre: seq<Utxo>, i: nat, x: Utxo, rest: seq<Utxo>, sorted: seq<Utxo>) {
    i <= |pre| && pre[i..] + Insert(x, rest) == Insert(x, sorted)
  }

  lemma SinkingAt(all: seq<Utxo>, pre: seq<Utxo>, x: Utxo, rest: seq<Utxo>)
    requires Sinking(all, pre, x, rest)
    ensures |all| == |pre| + 1 + |rest| && all[|pre|] == x && (rest != [] ==> all[|pre| + 1] == rest[0])
  {
  }

  lemma SinkStep(all: seq<Utxo>, pre: seq<Utxo>, x: Utxo, rest: seq<Utxo>)
    requires Sinking(all, pre, x, rest) && rest != []
    ensures |all| > |pre| + 1
    ensures Sinking(all[|pre| := rest[0]][|pre| + 1 := x], pre + [rest[0]], x, rest[1..])
  {
  }

  lemma InsertPasses(pre: seq<Utxo>, i: nat, x: Utxo, rest: seq<Utxo>, sorted: seq<Utxo>)
    requires InsertsTo(pre, i, x, rest, sorted) && rest != [] && rest[0].value > x.value
    ensures InsertsTo(pre + [rest[0]], i, x, rest[1..], sorted)
  {
    assert (pre + [rest[0]])[i..] == pre[i..] + [rest[0]];
    assert pre[i..] + ([rest[0]] + Insert(x, rest[1..])) == pre[i..] + [rest[0]] + Insert(x, rest[1..]);
  }

  lemma SinkDone(all: seq<Utxo>, pre: seq<Utxo>, i: nat, x: Utxo, rest: seq<Utxo>, sorted: seq<Utxo>)
    requires Sinking(all, pre, x, rest) && InsertsTo(pre, i, x, rest, sorted)
    requires rest == [] || rest[0].value <= x.value
    ensures i <= |all| && all[..i] == pre[..i] && all[i..] == Insert(x, sorted)
  {
    assert all[i..] == pre[i..] + ([x] + rest);
  }

  /** Move a[i] to its place among the sorted coins to its right. */
  method SinkInto(a: array<Utxo>, i: nat)
    requires i < a.Length
    modifies a
    ensures a[..i] == old(a[..i])
    ensures a[i..] == Insert(old(a[i]), old(a[i + 1..]))
  {
    hide Sinking, InsertsTo, Insert;
    ghost var x, sorted := a[i], a[i + 1..];
    ghost var pre, rest := a[..i], sorted;
    assert Sinking(a[..], pre, x, rest) by { SinkStart(a[..], i); }
    assert InsertsTo(pre, i, x, rest, sorted) by { InsertStart(pre, x, rest); }
    var j := i;
    while j + 1 < a.Length && a[j + 1].value > a[j].value
      invariant i <= j < a.Length && j == |pre| && pre[..i] == old(a[..i])
      invariant Sinking(a[..], pre, x, rest) && InsertsTo(pre, i, x, rest, sorted)
      decreases a.Length - j
    {
      ghost var was := a[..];
      SinkingAt(was, pre, x, rest);
      SinkStep(was, pre, x, rest);
      InsertPasses(pre, i, x, rest, sorted);
      a[j], a[j + 1] := a[j + 1], a[j];
      assert a[..] == was[j := rest[0]][j + 1 := x];
      pre, rest := pre + [rest[0]], rest[1..];
      j := j + 1;
    }
    SinkingAt(a[..], pre, x, rest);
    SinkDone(a[..], pre, i, x, rest, sorted);
  }

  lemma SinkStart(all: seq<Utxo>, i: nat)
    requires i < |all|
    ensures Sinking(all, all[..i], all[i], all[i + 1..])
  {
  }

  lemma InsertStart(pre: seq<Utxo>, x: Utxo, rest: seq<Utxo>)
    ensures InsertsTo(pre, |pre|, x, rest, rest)
  {
    assert pre[|pre|..] + Insert(x, rest) == Insert(x, rest);
  }

  // ----- Selecting -----

  /** How many coins the loop pushes before its running total reaches the target. */
  function Needed(us: seq<Utxo>, target: int): (k: nat)
    ensures k <= |us|
  {
    if us == [] then 0
    else if us[0].value >= target then 1
    else 1 + Needed(us[1..], target - us[0].value)
  }

  method SelectPrefix(us: seq<Utxo>, target: int) returns (selected: seq<Utxo>, selectedValue: nat)
    ensures selected == us[..Needed(us, target)] && selectedValue == Total(selected)
  {
    selected, selectedValue := [], 0;
    var i := 0;
    while i < |us|
      invariant 0 <= i <= |us| && selected == us[..i] && selectedValue == Total(us[..i])
      invariant i + Needed(us[i..], target - selectedValue) == Needed(us, target)
    {
      assert us[i..][0] == us[i] && us[i..][1..] == us[i + 1..];
      TotalSnoc(us[..i], us[i]);
      assert us[..i + 1] == us[..i] + [us[i]];
      selected := selected + [us[i]];
      selectedValue := selectedValue + us[i].value;
      i := i + 1;
      if selectedValue >= target { return; }
    }
  }

  lemma {:induction false} TotalSnoc(us: seq<Utxo>, x: Utxo)
    ensures Total(us + [x]) == Total(us) + x.value
    decreases |us|
  {
    if us == [] {
      assert ([] + [x])[1..] == [];
    } else {
      assert (us + [x])[1..] == us[1..] + [x];
      TotalSnoc(us[1..], x);
    }
  }

  /** The prefix covers the target whenever everything does, and no shorter prefix does. */
  lemma {:induction false} NeededIsLeast(us: seq<Utxo>, target: int)
    ensures Total(us) >= target && us != [] ==> Total(us[..Needed(us, target)]) >= target
    ensures Total(us) < target ==> Needed(us, target) == |us|
    ensures forall k :: 0 < k < Needed(us, target) ==> Total(us[..k]) < target
    decreases |us|
  {
    if us != [] && us[0].value < target {
      var t := target - us[0].value;
      NeededIsLeast(us[1..], t);
      assert us[..Needed(us, target)][1..] == us[1..][..Needed(us[1..], t)];
      forall k | 0 < k < Needed(us, target) ensures Total(us[..k]) < target {
        assert us[..k][1..] == us[1..][..k - 1];
        if k > 1 { assert Total(us[1..][..k - 1]) < t; }
      }
    }
  }

  // ----- Optimality -----

  /** A subset of the coins, as a selection mask. */
  function MaskTotal(us: seq<Utxo>, mask: seq<bool>): nat
    requires |mask| == |us|
  {
    if us == [] then 0 else (if mask[0] then us[0].value else 0) + MaskTotal(us[1..], mask[1..])
  }

  function MaskCount(mask: seq<bool>): (n: nat)
    ensures n <= |mask|
  {
    if mask == [] then 0 else (if mask[0] then 1 else 0) + MaskCount(mask[1..])
  }

  lemma PrefixGrows(us: seq<Utxo>, k: nat)
    requires k < |us|
    ensures Total(us[..k + 1]) == Total(us[..k]) + us[k].value
  {
    assert us[..k + 1] == us[..k] + [us[k]];
    TotalSnoc(us[..k], us[k]);
  }

  lemma TotalOfPrefix(x: Utxo, us: seq<Utxo>, k: nat)
    requires k <= |us|
    ensures Total(([x] + us)[..k + 1]) == x.value + Total(us[..k])
  {
    assert ([x] + us)[..k + 1][1..] == us[..k];
  }

  lemma FrontRaisesPrefix(x: Utxo, us: seq<Utxo>, k: nat)
    requires k <= |us| && (us != [] && k > 0 ==> us[k - 1].value <= x.value)
    ensures Total(([x] + us)[..k]) >= Total(us[..k])
    ensures Total(([x] + us)[..k + 1]) == x.value + Total(us[..k])
  {
    hide Total;
    TotalOfPrefix(x, us, k);
    if k > 0 {
      TotalOfPrefix(x, us, k - 1);
      PrefixGrows(us, k - 1);
    } else {
      assert ([x] + us)[..0] == us[..0];
    }
  }

  lemma LaterRaisesPrefix(x: Utxo, first: Utxo, us: seq<Utxo>, rest: seq<Utxo>, k: nat)
    requires k <= |us| && |rest| == |us| + 1 && first.value >= x.value
    requires Total(rest[..k]) >= Total(us[..k]) && Total(rest[..k + 1]) >= x.value + Total(us[..k])
    ensures Total(([first] + rest)[..k + 1]) >= Total(([first] + us)[..k + 1])
    ensures Total(([first] + rest)[..k + 2]) >= x.value + Total(([first] + us)[..k + 1])
  {
    hide Total;
    TotalOfPrefix(first, rest, k);
    TotalOfPrefix(first, rest, k + 1);
    TotalOfPrefix(first, us, k);
  }

  lemma {:induction false} InsertRaisesPrefix(x: Utxo, us: seq<Utxo>, k: nat)
    requires Descending(us) && k <= |us|
    ensures |Insert(x, us)| == |us| + 1
    ensures Total(Insert(x, us)[..k]) >= Total(us[..k])
    ensures Total(Insert(x, us)[..k + 1]) >= x.value + Total(us[..k])
    decreases |us|
  {
    hide Total;
    InsertContents(x, us);
    if us == [] || us[0].value <= x.value {
      FrontRaisesPrefix(x, us, k);
    } else {
      var rest := Insert(x, us[1..]);
      assert us == [us[0]] + us[1..] && |rest| == |us|;
      if k > 0 {
        InsertRaisesPrefix(x, us[1..], k - 1);
        LaterRaisesPrefix(x, us[0], us[1..], rest, k - 1);
      } else {
        TotalOfPrefix(us[0], rest, 0);
        assert rest[..0] == [] && us[..0] == [];
        NothingTotals();
      }
    }
  }

  lemma NothingTotals()
    ensures Total([]) == 0
  {
  }

  /** No choice of k coins is worth more than the k largest. */
  lemma {:induction false} LargestAreBest(us: seq<Utxo>, mask: seq<bool>)
    requires |mask| == |us|
    ensures MaskCount(mask) <= |Sort(us)| && MaskTotal(us, mask) <= Total(Sort(us)[..MaskCount(mask)])
    decreases |us|
  {
    SortPermutes(us);
    if us != [] {
      hide Insert, Descending, Total, Sort;
      var rest, k := Sort(us[1..]), MaskCount(mask[1..]);
      LargestAreBest(us[1..], mask[1..]);
      SortPermutes(us[1..]);
      InsertRaisesPrefix(us[0], rest, k);
      assert Sort(us) == Insert(us[0], rest) by { SortStep(us); }
    }
  }

  lemma SortStep(us: seq<Utxo>)
    requires us != []
    ensures Sort(us) == Insert(us[0], Sort(us[1..]))
  {
  }

  /** The selection uses the fewest coins of ANY subset that covers amount and fee. */
  lemma FewestInputs(us: seq<Utxo>, target: nat, mask: seq<bool>)
    requires |mask| == |us| && target > 0 && MaskTotal(us, mask) >= target
    ensures Needed(Sort(us), target) <= MaskCount(mask)
  {
    assert Total(Sort(us)[..0]) == 0;
    LargestAreBest(us, mask);
    NeededIsLeast(Sort(us), target);
  }

  // ----- Building the transfer -----

  function Need(satoshis: nat, feeRate: nat): nat {
    satoshis + TX_VBYTES * feeRate
  }

  /** What was left over and too small to send back. */
  function Absorbed(t: Transfer, fee: nat): int {
    Total(t.inputs) - TotalOut(t.outputs) - fee
  }

  /** inputs = outputs + fee + absorbed change, with at most dust absorbed and no dust output. */
  ghost predicate Conserves(t: Transfer, satoshis: nat, fee: nat) {
    && 0 <= Absorbed(t, fee) <= 546
    && |t.outputs| >= 1 && t.outputs[0] == ToRecipient(satoshis)
    && (|t.outputs| == 1 || (|t.outputs| == 2 && t.outputs[1].Change? && t.outputs[1].value > 546 && Absorbed(t, fee) == 0))
  }

  method MakeOutputs(selected: seq<Utxo>, selectedValue: nat, satoshis: nat, fee: nat) returns (t: Transfer)
    requires selectedValue == Total(selected) && selectedValue >= satoshis + fee
    ensures t.inputs == selected && Conserves(t, satoshis, fee)
  {
    var outputs := [ToRecipient(satoshis)];
    assert outputs[1..] == [];
    var change := selectedValue - satoshis - fee;
    if change > DUST {
      outputs := outputs + [Change(change)];
      assert outputs[1..] == [Change(change)];
      assert TotalOut([Change(change)]) == change;
    }
    assert TotalOut(outputs) == satoshis + (if change > DUST then change else 0);
    t := Transfer(selected, outputs);
  }

  lemma PrefixIsSubset(us: seq<Utxo>, k: nat)
    requires k <= |Sort(us)|
    ensures multiset(Sort(us)[..k]) <= multiset(us)
  {
    SortPermutes(us);
    assert Sort(us) == Sort(us)[..k] + Sort(us)[k..];
  }

  /**
   Value is conserved down to dust, the coins spent are coins that were there, and the transfer fails
   exactly when the whole balance cannot cover amount and fee.
   */
  method BuildTransfer(a: array<Utxo>, satoshis: nat, halfHour: Option<nat>, hour: Option<nat>) returns (r: Result<Transfer, Failure>)
    modifies a
    ensures a.Length == 0 ==> r == Err(NoUtxos)
    ensures var need := satoshis + 140 * FeeRate(halfHour, hour);
      a.Length > 0 && Total(old(a[..])) < need ==> r == Err(Insufficient(need, Total(old(a[..]))))
    ensures var need := satoshis + 140 * FeeRate(halfHour, hour);
      a.Length > 0 && Total(old(a[..])) >= need ==>
        && r.Ok?
        && r.value.inputs == Sort(old(a[..]))[..Needed(Sort(old(a[..])), need)]
        && multiset(r.value.inputs) <= multiset(old(a[..]))
        && Conserves(r.value, satoshis, 140 * FeeRate(halfHour, hour))
  {
    hide Sort, Needed, Total, Conserves;
    if a.Length == 0 { return Err(NoUtxos); }
    SortPermutes(a[..]);
    SortDescending(a);
    r := FromSorted(a[..], satoshis, FeeRate(halfHour, hour));
    PrefixIsSubset(old(a[..]), Needed(a[..], Need(satoshis, FeeRate(halfHour, hour))));
  }

  method FromSorted(us: seq<Utxo>, satoshis: nat, feeRate: nat) returns (r: Result<Transfer, Failure>)
    requires us != []
    ensures Total(us) < Need(satoshis, feeRate) ==> r == Err(Insufficient(Need(satoshis, feeRate), Total(us)))
    ensures Total(us) >= Need(satoshis, feeRate) ==>
      r.Ok? && r.value.inputs == us[..Needed(us, Need(satoshis, feeRate))] && Conserves(r.value, satoshis, TX_VBYTES * feeRate)
  {
    var estimatedFee := TX_VBYTES * feeRate;
    var selected, selectedValue := SelectPrefix(us, satoshis + estimatedFee);
    NeededIsLeast(us, satoshis + estimatedFee);
    assert us[..|us|] == us;
    if selectedValue < satoshis + estimatedFee {
      return Err(Insufficient(satoshis + estimatedFee, selectedValue));
    }
    var t := MakeOutputs(selected, selectedValue, satoshis, estimatedFee);
    r := Ok(t);
  }
}
