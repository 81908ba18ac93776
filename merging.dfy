// The skip-or-replace policy the import services share: an item whose id is
// already registered is skipped, unless updates are asked for, in which case
// it replaces the registered record; an unknown id is registered. Services
// whose registration cannot fail are specified by these functions.
module Merging {
  import opened Declarative

  /** The outcome of one item against the records registered at that point. */
  function OutcomeOf<V>(m: map<string, V>, id: string, updateExisting: bool): Outcome
  {
    if id !in m then Imported else if updateExisting then Updated else Skipped
  }

  /** The records after one item, stored as `v`. */
  function Merge<V>(m: map<string, V>, id: string, v: V, updateExisting: bool): (r: map<string, V>)
    ensures id in r && m.Keys <= r.Keys
    ensures OutcomeOf(m, id, updateExisting) == Skipped ==> r == m
    ensures OutcomeOf(m, id, updateExisting) != Skipped ==> r == m[id := v]
  {
    if id in m && !updateExisting then m else m[id := v]
  }

  /** The records after importing a batch, item by item. */
  function MergeAll<T, V>(m: map<string, V>, items: seq<T>, idOf: T -> string, store: (map<string, V>, T) -> V, updateExisting: bool)
    : map<string, V>
  {
    if items == [] then m
    else
      var prev := MergeAll(m, items[..|items| - 1], idOf, store, updateExisting);
      var last := items[|items| - 1];
      Merge(prev, idOf(last), store(prev, last), updateExisting)
  }

  /** The result envelope of importing a batch. */
  function Summary<T, V>(m: map<string, V>, items: seq<T>, idOf: T -> string, store: (map<string, V>, T) -> V, updateExisting: bool)
    : ImportResult
  {
    if items == [] then ImportResult([], [], [], [], 0)
    else
      var prefix := items[..|items| - 1];
      var last := items[|items| - 1];
      var r := Record(Summary(m, prefix, idOf, store, updateExisting), idOf(last),
                      OutcomeOf(MergeAll(m, prefix, idOf, store, updateExisting), idOf(last), updateExisting));
      r.(total := |items|)
  }

  /** Unregistering and then registering an id is the same as overwriting its record. */
  lemma RemoveThenPut<V>(m: map<string, V>, id: string, v: V)
    ensures (m - {id})[id := v] == m[id := v]
  {
  }

  /** Importing one more item: the loop step of every import service. */
  lemma MergeStep<T, V>(m: map<string, V>, items: seq<T>, idOf: T -> string, store: (map<string, V>, T) -> V, updateExisting: bool, i: nat)
    requires i < |items|
    ensures var prefix := MergeAll(m, items[..i], idOf, store, updateExisting);
      && MergeAll(m, items[..i + 1], idOf, store, updateExisting)
         == Merge(prefix, idOf(items[i]), store(prefix, items[i]), updateExisting)
      && Summary(m, items[..i + 1], idOf, store, updateExisting)
         == Record(Summary(m, items[..i], idOf, store, updateExisting), idOf(items[i]),
                   OutcomeOf(prefix, idOf(items[i]), updateExisting)).(total := i + 1)
  {
    assert items[..i + 1][..i] == items[..i];
  }

  /** The ids of a batch, in order. */
  function Ids<T>(items: seq<T>, idOf: T -> string): (r: seq<string>)
    ensures |r| == |items| && forall i :: 0 <= i < |items| ==> r[i] == idOf(items[i])
  {
    if items == [] then [] else Ids(items[..|items| - 1], idOf) + [idOf(items[|items| - 1])]
  }

  predicate AllRegistered<T, V>(m: map<string, V>, items: seq<T>, idOf: T -> string)
  {
    forall i :: 0 <= i < |items| ==> idOf(items[i]) in m
  }

  /** Every item lands in exactly one of imported, updated and skipped, and none in errors. */
  lemma {:induction false} SummaryPartition<T, V>(m: map<string, V>, items: seq<T>, idOf: T -> string, store: (map<string, V>, T) -> V,
                                                  updateExisting: bool)
    ensures var r := Summary(m, items, idOf, store, updateExisting);
      r.total == |items| && |r.imported| + |r.updated| + |r.skipped| == |items| && r.errors == []
    ensures !updateExisting ==> Summary(m, items, idOf, store, updateExisting).updated == []
  {
    if items != [] {
      SummaryPartition(m, items[..|items| - 1], idOf, store, updateExisting);
    }
  }

  /** After the import every item's id is registered, and no record registered before is lost. */
  lemma {:induction false} MergeAllRegisters<T, V>(m: map<string, V>, items: seq<T>, idOf: T -> string,
                                                   store: (map<string, V>, T) -> V, updateExisting: bool)
    ensures m.Keys <= MergeAll(m, items, idOf, store, updateExisting).Keys
    ensures forall i :: 0 <= i < |items| ==> idOf(items[i]) in MergeAll(m, items, idOf, store, updateExisting)
  {
    if items != [] {
      var prefix := items[..|items| - 1];
      MergeAllRegisters(m, prefix, idOf, store, updateExisting);
      forall i | 0 <= i < |items| - 1 ensures idOf(items[i]) == idOf(prefix[i]) { }
    }
  }

  /** Without `updateExisting`, a record registered before the import is left as it was. */
  lemma {:induction false} MergeAllKeepsExisting<T, V>(m: map<string, V>, items: seq<T>, idOf: T -> string,
                                                       store: (map<string, V>, T) -> V, id: string)
    requires id in m
    ensures id in MergeAll(m, items, idOf, store, false) && MergeAll(m, items, idOf, store, false)[id] == m[id]
  {
    if items != [] {
      MergeAllKeepsExisting(m, items[..|items| - 1], idOf, store, id);
    }
  }

  /** A batch whose ids are all registered already changes nothing and is skipped whole. */
  lemma {:induction false} ReimportSkipsAll<T, V>(m: map<string, V>, items: seq<T>, idOf: T -> string, store: (map<string, V>, T) -> V)
    requires AllRegistered(m, items, idOf)
    ensures MergeAll(m, items, idOf, store, false) == m
    ensures Summary(m, items, idOf, store, false).skipped == Ids(items, idOf)
  {
    if items != [] {
      var prefix := items[..|items| - 1];
      assert AllRegistered(m, prefix, idOf) by {
        forall i | 0 <= i < |prefix| ensures idOf(prefix[i]) in m { assert prefix[i] == items[i]; }
      }
      ReimportSkipsAll(m, prefix, idOf, store);
    }
  }

  /** With `updateExisting`, the last item carrying an id decides the record stored under it. */
  lemma {:induction false} MergeAllLastWins<T, V>(m: map<string, V>, items: seq<T>, idOf: T -> string,
                                                  store: (map<string, V>, T) -> V, i: nat)
    requires i < |items| && forall j :: i < j < |items| ==> idOf(items[j]) != idOf(items[i])
    ensures idOf(items[i]) in MergeAll(m, items, idOf, store, true)
    ensures MergeAll(m, items, idOf, store, true)[idOf(items[i])]
            == store(MergeAll(m, items[..i], idOf, store, true), items[i])
  {
    var n := |items| - 1;
    if i < n {
      MergeAllLastWins(m, items[..n], idOf, store, i);
      assert items[..n][..i] == items[..i];
    }
  }
}
