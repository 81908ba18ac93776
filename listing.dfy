// The listing loop every registry's `list` and `search` share: walk a
// sequence of candidate ids and keep, in that order, the registered records
// that pass a filter.
module Listing {
  /** The records under `ids`, in order, that are registered and pass `keep`. */
  function Pick<V(==)>(m: map<string, V>, ids: seq<string>, keep: V -> bool): (r: seq<V>)
    ensures forall v :: v in r ==> v in m.Values && keep(v)
    ensures |r| <= |ids|
  {
    if ids == [] then []
    else
      var id := ids[|ids| - 1];
      Pick(m, ids[..|ids| - 1], keep) + (if id in m && keep(m[id]) then [m[id]] else [])
  }

  /** Every registered candidate that passes the filter is listed. */
  lemma {:induction false} PickComplete<V>(m: map<string, V>, ids: seq<string>, keep: V -> bool, id: string)
    requires id in ids && id in m && keep(m[id])
    ensures m[id] in Pick(m, ids, keep)
  {
    var n := |ids| - 1;
    if ids[n] != id {
      assert id in ids[..n] by {
        var k :| 0 <= k < |ids| && ids[k] == id;
        assert ids[..n][k] == id;
      }
      PickComplete(m, ids[..n], keep, id);
    }
  }

  /** Every listed record is the record of one of the candidate ids. */
  lemma {:induction false} PickFrom<V>(m: map<string, V>, ids: seq<string>, keep: V -> bool, v: V)
    requires v in Pick(m, ids, keep)
    ensures exists i :: 0 <= i < |ids| && ids[i] in m && m[ids[i]] == v
  {
    var n := |ids| - 1;
    if v !in Pick(m, ids[..n], keep) {
      assert ids[n] in m && m[ids[n]] == v;
    } else {
      PickFrom(m, ids[..n], keep, v);
      var i :| 0 <= i < n && ids[..n][i] in m && m[ids[..n][i]] == v;
      assert ids[i] == ids[..n][i];
    }
  }

  /** The loop itself. */
  method Collect<V(==)>(m: map<string, V>, ids: seq<string>, keep: V -> bool) returns (result: seq<V>)
    ensures result == Pick(m, ids, keep)
  {
    result := [];
    var i := 0;
    while i < |ids|
      invariant 0 <= i <= |ids|
      invariant result == Pick(m, ids[..i], keep)
    {
      assert ids[..i + 1][..i] == ids[..i];
      var id := ids[i];
      if id in m && keep(m[id]) {
        result := result + [m[id]];
      }
      i := i + 1;
    }
    assert ids[..i] == ids;
  }
}
