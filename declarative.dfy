// The generic declarative YAML loader every platform component subclasses:
// a document is a dict holding the root key, a bare dict of items keyed by
// id, or a bare list of items.
module Declarative {
  import opened Wrappers
  import opened Values

  /** What a concrete loader supplies: its root key and its three hooks. */
  datatype Hooks<T> = Hooks(
    rootKey: string,
    parse: Value -> Result<T>,
    hasId: Dict -> bool,
    setId: (Dict, string) -> Dict)

  /** Parses every element in order; the first failure aborts the whole load. */
  function ParseAll<T>(parse: Value -> Result<T>, xs: seq<Value>): (r: Result<seq<T>>)
    ensures r.Ok? ==> |r.value| == |xs|
  {
    if xs == [] then Ok([])
    else
      match ParseAll(parse, xs[..|xs| - 1])
      case Err(e) => Err(e)
      case Ok(done) =>
        match parse(xs[|xs| - 1])
        case Err(e) => Err(e)
        case Ok(x) => Ok(done + [x])
  }

  /** An item of the object form, with its key injected when it carries no id field. */
  function Prepare<T>(h: Hooks<T>, key: string, item: Dict): Dict
  {
    if h.hasId(item) then item else h.setId(item, key)
  }

  /** The object form as the list of items it contributes: non-dict values are skipped. */
  function ObjectItems<T>(h: Hooks<T>, es: Dict): (r: seq<Value>)
    ensures forall i :: 0 <= i < |r| ==> r[i].VObj?
  {
    if es == [] then []
    else
      var (key, item) := es[|es| - 1];
      ObjectItems(h, es[..|es| - 1]) + (if item.VObj? then [VObj(Prepare(h, key, item.entries))] else [])
  }

  /** What the items part of a document parses to. */
  function LoadItems<T>(h: Hooks<T>, itemsData: Value): Result<seq<T>>
  {
    if itemsData.VList? then ParseAll(h.parse, itemsData.items)
    else if itemsData.VObj? then ParseAll(h.parse, ObjectItems(h, itemsData.entries))
    else Ok([])
  }

  function ItemsData<T>(h: Hooks<T>, data: Value): Value
    requires data.VObj? || data.VList?
  {
    if data.VObj? && Has(data.entries, h.rootKey) then Get(data.entries, h.rootKey).value else data
  }

  /** The whole load, as a function of the document. */
  function LoadSpec<T>(h: Hooks<T>, data: Value): Result<seq<T>>
  {
    if data.VObj? || data.VList? then LoadItems(h, ItemsData(h, data))
    else Err("Invalid YAML format: expected dict or list")
  }

  lemma {:induction false} ParseAllErrExtends<T>(parse: Value -> Result<T>, xs: seq<Value>, n: nat)
    requires n <= |xs|
    requires ParseAll(parse, xs[..n]).Err?
    ensures ParseAll(parse, xs) == ParseAll(parse, xs[..n])
    decreases |xs| - n
  {
    if n < |xs| {
      Seqs.PrefixOfPrefix(xs, n);
      ParseAllErrExtends(parse, xs, n + 1);
    } else {
      Seqs.FullPrefix(xs);
    }
  }

  /** A list of items yields one parsed record per element, in order. */
  lemma {:induction false} ParseAllInOrder<T>(parse: Value -> Result<T>, xs: seq<Value>)
    requires ParseAll(parse, xs).Ok?
    ensures forall i :: 0 <= i < |xs| ==> parse(xs[i]) == Ok(ParseAll(parse, xs).value[i])
  {
    if xs != [] {
      ParseAllInOrder(parse, xs[..|xs| - 1]);
    }
  }

  /** A single item that fails to parse fails the whole load: there is no per-item catch. */
  lemma {:induction false} ParseAllAborts<T>(parse: Value -> Result<T>, xs: seq<Value>, i: nat)
    requires i < |xs| && parse(xs[i]).Err?
    ensures ParseAll(parse, xs).Err?
  {
    if i < |xs| - 1 {
      ParseAllAborts(parse, xs[..|xs| - 1], i);
    }
  }

  /** Every dict-valued entry of the object form contributes exactly one item; others none. */
  lemma {:induction false} ObjectItemsCount<T>(h: Hooks<T>, es: Dict)
    ensures |ObjectItems(h, es)| == |set i | 0 <= i < |es| && es[i].1.VObj?|
  {
    if es != [] {
      var n := |es| - 1;
      ObjectItemsCount(h, es[..n]);
      var before := set i | 0 <= i < n && es[..n][i].1.VObj?;
      var after := set i | 0 <= i < |es| && es[i].1.VObj?;
      assert before == set i | 0 <= i < n && es[i].1.VObj?;
      if es[n].1.VObj? {
        assert after == before + {n};
      } else {
        assert after == before;
      }
    }
  }

  /** The loader as the source runs it: a loop appending one parsed item at a time. */
  method LoadFromDict<T>(h: Hooks<T>, data: Value) returns (r: Result<seq<T>>)
    ensures r == LoadSpec(h, data)
  {
    if !(data.VObj? || data.VList?) {
      return Err("Invalid YAML format: expected dict or list");
    }
    var itemsData := if data.VObj? && Has(data.entries, h.rootKey) then Get(data.entries, h.rootKey).value else data;
    var xs: seq<Value>;
    if itemsData.VList? {
      xs := itemsData.items;
    } else if itemsData.VObj? {
      xs := ObjectItems(h, itemsData.entries);
    } else {
      return Ok([]);
    }
    var items: seq<T> := [];
    var i := 0;
    while i < |xs|
      invariant 0 <= i <= |xs|
      invariant ParseAll(h.parse, xs[..i]) == Ok(items)
    {
      var parsed := h.parse(xs[i]);
      Seqs.PrefixOfPrefix(xs, i);
      if parsed.Err? {
        ParseAllErrExtends(h.parse, xs, i + 1);
        return Err(parsed.error);
      }
      items := items + [parsed.value];
      i := i + 1;
    }
    Seqs.FullPrefix(xs);
    return Ok(items);
  }

  /** The exported document: the root key mapped to the items' dicts, in order. */
  method ExportDocument<T>(rootKey: string, items: seq<T>, toDict: T -> Value) returns (doc: Value)
    ensures doc == VObj([(rootKey, VList(Seqs.Map(toDict, items)))])
    ensures doc.VObj? && Keys(doc.entries) == [rootKey]
  {
    var itemsData: seq<Value> := [];
    var i := 0;
    while i < |items|
      invariant 0 <= i <= |items|
      invariant itemsData == Seqs.Map(toDict, items[..i])
    {
      itemsData := itemsData + [toDict(items[i])];
      i := i + 1;
      assert items[..i] == items[..i - 1] + [items[i - 1]];
      MapSnoc(toDict, items[..i - 1], items[i - 1]);
    }
    Seqs.FullPrefix(items);
    doc := VObj([(rootKey, VList(itemsData))]);
  }

  lemma MapSnoc<A, B>(f: A -> B, s: seq<A>, x: A)
    ensures Seqs.Map(f, s + [x]) == Seqs.Map(f, s) + [f(x)]
  {
  }

  /** Parsing undoes exporting item by item, so it undoes it for the whole list. */
  lemma {:induction false} ParseAllInverse<T>(parse: Value -> Result<T>, toDict: T -> Value, items: seq<T>)
    requires forall x :: x in items ==> parse(toDict(x)) == Ok(x)
    ensures ParseAll(parse, Seqs.Map(toDict, items)) == Ok(items)
  {
    if items != [] {
      var n := |items| - 1;
      var init := items[..n];
      var xs := Seqs.Map(toDict, items);
      assert forall x :: x in init ==> x in items;
      ParseAllInverse(parse, toDict, init);
      assert xs[..n] == Seqs.Map(toDict, init);
      assert parse(xs[n]) == Ok(items[n]) by { assert items[n] in items; }
      assert ParseAll(parse, xs) == Ok(init + [items[n]]);
      Seqs.PrefixSnoc(items, |items|);
      Seqs.FullPrefix(items);
    }
  }

  /** An exported document loads back as the items it was exported from. */
  lemma ExportThenLoadDocument<T>(h: Hooks<T>, toDict: T -> Value, items: seq<T>)
    requires forall x :: x in items ==> h.parse(toDict(x)) == Ok(x)
    ensures LoadSpec(h, VObj([(h.rootKey, VList(Seqs.Map(toDict, items)))])) == Ok(items)
  {
    GetSingle(h.rootKey, VList(Seqs.Map(toDict, items)));
    ParseAllInverse(h.parse, toDict, items);
  }

  /** A list under the root key loads exactly as the same list given bare. */
  lemma WrappedListIsBareList<T>(h: Hooks<T>, xs: seq<Value>)
    ensures LoadSpec(h, VObj([(h.rootKey, VList(xs))])) == LoadSpec(h, VList(xs))
  {
    GetSingle(h.rootKey, VList(xs));
  }

  /** A root key holding neither a list nor a dict contributes no items, and the load succeeds. */
  lemma ScalarUnderRootLoadsNothing<T>(h: Hooks<T>, v: Value)
    requires !v.VList? && !v.VObj?
    ensures LoadSpec(h, VObj([(h.rootKey, v)])) == Ok([])
  {
    GetSingle(h.rootKey, v);
  }

  /** What happened to one item of an import. */
  datatype Outcome = Imported | Updated | Skipped | Failed(error: string)

  /** The summary every service's `_import_items` returns. */
  datatype ImportResult = ImportResult(
    imported: seq<string>, updated: seq<string>, skipped: seq<string>,
    errors: seq<(string, string)>, total: int)

  /** Files one outcome under its item's id: exactly one of the four lists grows, by that id. */
  function Record(res: ImportResult, id: string, o: Outcome): (r: ImportResult)
    ensures |r.imported| + |r.updated| + |r.skipped| + |r.errors|
         == |res.imported| + |res.updated| + |res.skipped| + |res.errors| + 1
    ensures r.total == res.total
    ensures r.imported == (if o == Imported then res.imported + [id] else res.imported)
    ensures r.updated == (if o == Updated then res.updated + [id] else res.updated)
    ensures r.skipped == (if o == Skipped then res.skipped + [id] else res.skipped)
    ensures r.errors == (if o.Failed? then res.errors + [(id, o.error)] else res.errors)
  {
    match o
    case Imported => res.(imported := res.imported + [id])
    case Updated => res.(updated := res.updated + [id])
    case Skipped => res.(skipped := res.skipped + [id])
    case Failed(e) => res.(errors := res.errors + [(id, e)])
  }
}
