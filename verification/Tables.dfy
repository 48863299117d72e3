/** Listing the keys of a table, in whatever order the database has them. */
module Tables {

  predicate Covers<R>(ids: seq<string>, t: map<string, R>) {
    && (forall k <- ids :: k in t)
    && (forall k <- t :: k in ids)
  }

  predicate Distinct(ids: seq<string>) {
    forall i, j :: 0 <= i < j < |ids| ==> ids[i] != ids[j]
  }

  lemma DistinctTail(ids: seq<string>)
    requires ids != [] && Distinct(ids)
    ensures Distinct(ids[1..]) && ids[0] !in ids[1..]
  {
    var rest := ids[1..];
    forall i | 0 <= i < |rest| ensures rest[i] != ids[0] && rest[i] == ids[i + 1] {}
  }

  method Listed<R>(t: map<string, R>) returns (ids: seq<string>)
    ensures Covers(ids, t) && Distinct(ids)
  {
    ids := [];
    var left := t.Keys;
    while left != {}
      invariant left <= t.Keys
      invariant Distinct(ids) && forall k <- ids :: k in t && k !in left
      invariant forall k <- t :: k in left || k in ids
      decreases left
    {
      var k :| k in left;
      ids, left := ids + [k], left - {k};
    }
  }
}
