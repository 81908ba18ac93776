// The YAML/JSON-shaped data the loaders, the validator and the transformer
// work on. A Python dict keeps insertion order, so a dictionary is an
// association list whose keys the dictionary operations keep distinct.
module Values {
  import opened Wrappers
  import Seqs

  datatype Value =
    | VNull
    | VBool(b: bool)
    | VInt(i: int)
    | VFloat(f: real)
    | VStr(s: string)
    | VList(items: seq<Value>)
    | VObj(entries: Dict)

  type Dict = seq<(string, Value)>

  function Keys(d: Dict): (ks: seq<string>)
    ensures |ks| == |d|
    ensures forall i :: 0 <= i < |d| ==> ks[i] == d[i].0
  {
    seq(|d|, i requires 0 <= i < |d| => d[i].0)
  }

  /** A dictionary as Python builds one: no key twice. */
  predicate WellFormed(d: Dict)
  {
    Seqs.NoDup(Keys(d))
  }

  /** `k in d` and `d[k]`: the value under the first entry with key `k`. */
  function Get(d: Dict, k: string): (r: Option<Value>)
  {
    if d == [] then None else if d[0].0 == k then Some(d[0].1) else Get(d[1..], k)
  }

  /** A key is found exactly when some entry holds it. */
  lemma {:induction false} GetFindsKeys(d: Dict, k: string)
    ensures Get(d, k).Some? <==> k in Keys(d)
  {
    if d != [] {
      GetFindsKeys(d[1..], k);
    }
  }

  /** A one-entry dictionary. */
  lemma GetSingle(k0: string, v: Value)
    ensures forall k :: Get([(k0, v)], k) == if k == k0 then Some(v) else None
  {
    forall k ensures Get([(k0, v)], k) == if k == k0 then Some(v) else None {
      assert [(k0, v)][1..] == [];
    }
  }

  /** The entry at `i` is the one `Get` finds when no earlier entry has its key. */
  lemma {:induction false} GetAt(d: Dict, i: int)
    requires 0 <= i < |d|
    requires forall j :: 0 <= j < i ==> d[j].0 != d[i].0
    ensures Get(d, d[i].0) == Some(d[i].1)
    decreases i
  {
    if i > 0 {
      GetAt(d[1..], i - 1);
    }
  }

  /** A key no entry holds is absent. */
  lemma {:induction false} GetAbsent(d: Dict, k: string)
    requires forall i :: 0 <= i < |d| ==> d[i].0 != k
    ensures Get(d, k) == None
  {
    if d != [] {
      GetAbsent(d[1..], k);
    }
  }

  /** Looking up in two dictionaries laid end to end. */
  lemma {:induction false} GetAppend(a: Dict, b: Dict, k: string)
    ensures Get(a + b, k) == if Get(a, k).Some? then Get(a, k) else Get(b, k)
  {
    if a == [] {
      assert a + b == b;
    } else {
      assert (a + b)[1..] == a[1..] + b;
      GetAppend(a[1..], b, k);
    }
  }

  predicate Has(d: Dict, k: string)
  {
    Get(d, k).Some?
  }

  /** `d.get(k)`: a missing key reads as None. */
  function GetV(d: Dict, k: string): Value
  {
    if Has(d, k) then Get(d, k).value else VNull
  }

  /** `d.get(k, default)`: the default is used only when the key is absent. */
  function GetOr(d: Dict, k: string, default: Value): Value
  {
    if Has(d, k) then Get(d, k).value else default
  }

  /** `d.get(k, d.get(alt, default))`: a key, else its alternative spelling, else the default. */
  function Fallback(d: Dict, k: string, alt: string, default: Value): (r: Value)
    ensures Has(d, k) ==> r == GetV(d, k)
    ensures !Has(d, k) && Has(d, alt) ==> r == GetV(d, alt)
    ensures !Has(d, k) && !Has(d, alt) ==> r == default
  {
    GetOr(d, k, GetOr(d, alt, default))
  }

  /** `d[k] = v`: overwrite in place, or append a new entry at the end. */
  function Put(d: Dict, k: string, v: Value): (r: Dict)
    ensures Get(r, k) == Some(v)
    ensures forall k' :: k' != k ==> Get(r, k') == Get(d, k')
    ensures Has(d, k) ==> Keys(r) == Keys(d)
    ensures !Has(d, k) ==> Keys(r) == Keys(d) + [k]
  {
    if d == [] then [(k, v)]
    else if d[0].0 == k then [(k, v)] + d[1..]
    else [d[0]] + Put(d[1..], k, v)
  }

  /** `a.update(b)`: each entry of `b`, in order, is put into `a`. */
  function Update(a: Dict, b: Dict): (r: Dict)
    decreases |b|
  {
    if b == [] then a else Update(Put(a, b[0].0, b[0].1), b[1..])
  }

  /** After `a.update(b)` a key of a well-formed `b` reads `b`'s value, any other key reads `a`'s. */
  lemma {:induction false} UpdateGet(a: Dict, b: Dict, k: string)
    requires WellFormed(b)
    ensures Get(Update(a, b), k) == if Has(b, k) then Get(b, k) else Get(a, k)
    decreases |b|
  {
    if b != [] {
      assert Keys(b[1..]) == Keys(b)[1..];
      assert WellFormed(b[1..]);
      UpdateGet(Put(a, b[0].0, b[0].1), b[1..], k);
      if k == b[0].0 {
        GetFindsKeys(b[1..], k);
      }
    }
  }

  /** A key `b` does not hold keeps the value it has in `a`. */
  lemma {:induction false} UpdateKeeps(a: Dict, b: Dict, k: string)
    requires !Has(b, k)
    ensures Get(Update(a, b), k) == Get(a, k)
    decreases |b|
  {
    if b != [] {
      UpdateKeeps(Put(a, b[0].0, b[0].1), b[1..], k);
    }
  }

  /** Storing a new key appends one entry at the end. */
  lemma {:induction false} PutNew(d: Dict, k: string, v: Value)
    requires !Has(d, k)
    ensures Put(d, k, v) == d + [(k, v)]
  {
    if d != [] {
      assert d[0].0 != k;
      PutNew(d[1..], k, v);
      assert d == [d[0]] + d[1..];
    }
  }

  /** `{k: v for k, v in es}`: a repeated key keeps its first place and takes its last value. */
  function PutAll(es: Dict): (r: Dict)
  {
    if es == [] then [] else Put(PutAll(es[..|es| - 1]), es[|es| - 1].0, es[|es| - 1].1)
  }

  /** A key is present exactly when some entry has it. */
  lemma {:induction false} PutAllHas(es: Dict, k: string)
    ensures Has(PutAll(es), k) <==> k in Keys(es)
  {
    if es != [] {
      var n := |es| - 1;
      var init := es[..n];
      PutAllHas(init, k);
      assert PutAll(es) == Put(PutAll(init), es[n].0, es[n].1);
      assert Has(PutAll(es), k) <==> k == es[n].0 || Has(PutAll(init), k);
      KeysInit(es, k);
    }
  }

  /** A key of a dict is a key of all but its last entry, or that entry's key. */
  lemma KeysInit(es: Dict, k: string)
    requires es != []
    ensures k in Keys(es) <==> k in Keys(es[..|es| - 1]) || k == es[|es| - 1].0
  {
    var n := |es| - 1;
    var init := es[..n];
    assert k in Keys(es) ==> k in Keys(init) || k == es[n].0 by {
      if k in Keys(es) {
        var i :| 0 <= i < |es| && Keys(es)[i] == k;
        assert es[i].0 == k;
        if i < n {
          assert init[i] == es[i];
          assert Keys(init)[i] == k;
        }
      }
    }
    assert k in Keys(init) ==> k in Keys(es) by {
      if k in Keys(init) {
        var i :| 0 <= i < n && Keys(init)[i] == k;
        assert Keys(es)[i] == k;
      }
    }
    assert Keys(es)[n] == es[n].0;
  }

  /** A key holds the value of the last entry that has it. */
  lemma {:induction false} PutAllLast(es: Dict, j: nat)
    requires j < |es|
    requires forall j' :: j < j' < |es| ==> es[j'].0 != es[j].0
    ensures Get(PutAll(es), es[j].0) == Some(es[j].1)
  {
    var n := |es| - 1;
    if j < n {
      var init := es[..n];
      assert init[j] == es[j];
      PutAllLast(init, j);
    }
  }

  /** Dropping the last entry of a well-formed dict leaves a well-formed dict without its key. */
  lemma WellFormedInit(es: Dict)
    requires WellFormed(es) && es != []
    ensures WellFormed(es[..|es| - 1])
    ensures !Has(es[..|es| - 1], es[|es| - 1].0)
  {
    var n := |es| - 1;
    var init := es[..n];
    forall i, j | 0 <= i < j < n ensures Keys(init)[i] != Keys(init)[j] {
      assert Keys(init)[i] == Keys(es)[i] && Keys(init)[j] == Keys(es)[j];
    }
    forall i | 0 <= i < n ensures init[i].0 != es[n].0 {
      assert Keys(es)[i] == init[i].0 && Keys(es)[n] == es[n].0;
    }
    GetAbsent(init, es[n].0);
  }

  /** Entries with distinct keys are kept as they are. */
  lemma {:induction false} PutAllDistinct(es: Dict)
    requires WellFormed(es)
    ensures PutAll(es) == es
  {
    if es != [] {
      var n := |es| - 1;
      var init := es[..n];
      WellFormedInit(es);
      PutAllDistinct(init);
      PutNew(init, es[n].0, es[n].1);
      assert PutAll(es) == init + [es[n]];
      Seqs.PrefixSnoc(es, |es|);
      Seqs.FullPrefix(es);
    }
  }

  /** Python truthiness. */
  predicate Truthy(v: Value)
  {
    match v
    case VNull => false
    case VBool(b) => b
    case VInt(i) => i != 0
    case VFloat(f) => f != 0.0
    case VStr(s) => s != ""
    case VList(xs) => xs != []
    case VObj(es) => es != []
  }

  /** Python's `a or b`. */
  function Or(a: Value, b: Value): (r: Value)
    ensures Truthy(a) ==> r == a
    ensures !Truthy(a) ==> r == b
  {
    if Truthy(a) then a else b
  }

  /** The numeric reading of a value: `bool` is a subclass of `int` in Python. */
  function Num(v: Value): Option<real>
  {
    match v
    case VBool(b) => Some(if b then 1.0 else 0.0)
    case VInt(i) => Some(i as real)
    case VFloat(f) => Some(f)
    case _ => None
  }

  /**
   * Python's `==`: numbers compare by value across bool, int and float, lists
   * element by element; other values compare structurally.
   */
  predicate PyEq(a: Value, b: Value)
  {
    if Num(a).Some? && Num(b).Some? then Num(a).value == Num(b).value
    else if a.VList? && b.VList? then
      |a.items| == |b.items| && forall i :: 0 <= i < |a.items| ==> PyEq(a.items[i], b.items[i])
    else a == b
  }

  /** Python's `x in xs` on a list. */
  predicate PyIn(x: Value, xs: seq<Value>)
  {
    exists i :: 0 <= i < |xs| && PyEq(x, xs[i])
  }

  /** A list of strings, as the loaders expect for tags, features and the like. */
  predicate IsStrList(v: Value)
  {
    v.VList? && forall i :: 0 <= i < |v.items| ==> v.items[i].VStr?
  }

  function StrList(v: Value): (r: seq<string>)
    requires IsStrList(v)
    ensures |r| == |v.items|
    ensures forall i :: 0 <= i < |r| ==> v.items[i] == VStr(r[i])
    decreases |v.items|
  {
    if v.items == [] then [] else [v.items[0].s] + StrList(VList(v.items[1..]))
  }

  // Typed reads used by the YAML loaders. Python stores whatever value the
  // document holds; the model reads only well-typed values and reports any
  // other as an error.

  /** A string value. */
  function AsStr(v: Value, what: string): (r: Result<string>)
    ensures r.Ok? <==> v.VStr?
    ensures r.Ok? ==> r.value == v.s
  {
    if v.VStr? then Ok(v.s) else Err(what + " must be a string")
  }

  /** `d.get(k, default)` for a string field. */
  function StrField(d: Dict, k: string, default: string): (r: Result<string>)
    ensures !Has(d, k) ==> r == Ok(default)
    ensures Has(d, k) && GetV(d, k).VStr? ==> r == Ok(GetV(d, k).s)
  {
    if Has(d, k) then AsStr(GetV(d, k), k) else Ok(default)
  }

  /** `v or default` for a string: a falsy value gives the default. */
  function StrOr(v: Value, default: string, what: string): (r: Result<string>)
    ensures !Truthy(v) ==> r == Ok(default)
    ensures v.VStr? && v.s != "" ==> r == Ok(v.s)
  {
    if !Truthy(v) then Ok(default) else AsStr(v, what)
  }

  /** An optional string: None stays None. */
  function OptStr(v: Value, what: string): (r: Result<Option<string>>)
    ensures v == VNull ==> r == Ok(None)
    ensures v.VStr? ==> r == Ok(Some(v.s))
  {
    if v == VNull then Ok(None) else if v.VStr? then Ok(Some(v.s)) else Err(what + " must be a string")
  }

  /** `d.get(k, default)` for an integer field. */
  function IntField(d: Dict, k: string, default: int): (r: Result<int>)
    ensures !Has(d, k) ==> r == Ok(default)
    ensures Has(d, k) && GetV(d, k).VInt? ==> r == Ok(GetV(d, k).i)
  {
    if !Has(d, k) then Ok(default)
    else if GetV(d, k).VInt? then Ok(GetV(d, k).i)
    else Err(k + " must be an integer")
  }

  /** An integer value (used after a key-presence fallback has chosen the value). */
  function AsInt(v: Value, what: string): (r: Result<int>)
    ensures r.Ok? <==> v.VInt?
    ensures r.Ok? ==> r.value == v.i
  {
    if v.VInt? then Ok(v.i) else Err(what + " must be an integer")
  }

  /** A boolean value. */
  function AsBool(v: Value, what: string): (r: Result<bool>)
    ensures r.Ok? <==> v.VBool?
    ensures r.Ok? ==> r.value == v.b
  {
    if v.VBool? then Ok(v.b) else Err(what + " must be a boolean")
  }

  /** A list of strings. */
  function AsStrList(v: Value, what: string): (r: Result<seq<string>>)
    ensures r.Ok? <==> IsStrList(v)
    ensures r.Ok? ==> r.value == StrList(v)
  {
    if IsStrList(v) then Ok(StrList(v)) else Err(what + " must be a list of strings")
  }

  /** `d.get(k, [])` for a list of strings. */
  function StrListField(d: Dict, k: string): (r: Result<seq<string>>)
    ensures !Has(d, k) ==> r == Ok([])
  {
    if Has(d, k) then AsStrList(GetV(d, k), k) else Ok([])
  }

  /** `v or []` for a list of strings. */
  function StrListOr(v: Value, what: string): (r: Result<seq<string>>)
    ensures !Truthy(v) ==> r == Ok([])
  {
    if !Truthy(v) then Ok([]) else AsStrList(v, what)
  }

  /** A dict value. */
  function AsDict(v: Value, what: string): (r: Result<Dict>)
    ensures r.Ok? <==> v.VObj?
    ensures r.Ok? ==> r.value == v.entries
  {
    if v.VObj? then Ok(v.entries) else Err(what + " must be a mapping")
  }

  /** A timestamp field; an integer instant stands in for ISO-8601 text, which is not parsed. */
  function Instant(v: Value, what: string): (r: Result<int>)
    ensures r.Ok? <==> v.VInt?
    ensures r.Ok? ==> v == VInt(r.value)
  {
    if v.VInt? then Ok(v.i) else Err(what + " is not an ISO-8601 timestamp")
  }

  /** An optional string as a value: None is exported as null. */
  function OptValue(o: Option<string>): (r: Value)
    ensures OptStr(r, "") == Ok(o)
  {
    if o.Some? then VStr(o.value) else VNull
  }

  /** A list of strings as a value. */
  function Strs(xs: seq<string>): Value
  {
    VList(Seqs.Map((x: string) => VStr(x), xs))
  }

  lemma StrsRoundTrip(xs: seq<string>)
    ensures IsStrList(Strs(xs)) && StrList(Strs(xs)) == xs
  {
  }
}
