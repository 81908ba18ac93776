// Reshaping data: named sets of field-renaming rules applied forwards or
// backwards, and the conversion of data from one schema to another.
module DataTransformer {
  import opened Wrappers
  import opened Values
  import opened DataSchema
  import DataValidator
  import Text

  datatype Direction = Forward | Backward | Bidirectional

  /**
   * `TransformRule`: copies `source` to `target` (or back), through the
   * optional function, with a default for a required field that is absent.
   */
  datatype Rule = Rule(
    source: string,
    target: string,
    transform: Option<Value -> Value>,
    direction: Direction,
    default: Value,
    required: bool)

  /** Whether a rule takes part in a transformation in direction `dir`. */
  predicate Active(r: Rule, dir: Direction)
  {
    r.direction == dir || r.direction == Bidirectional
  }

  /** The field a rule reads in direction `dir`; anything but forward reads the target. */
  function InKey(r: Rule, dir: Direction): string
  {
    if dir == Forward then r.source else r.target
  }

  /** The field a rule writes in direction `dir`. */
  function OutKey(r: Rule, dir: Direction): string
  {
    if dir == Forward then r.target else r.source
  }

  /**
   * `TransformRule.apply`: at most one entry, under the rule's output field:
   * the input field's value (transformed), else the default of a required rule.
   */
  function Apply(r: Rule, d: Dict, dir: Direction): (out: Dict)
    ensures out == [] || (|out| == 1 && out[0].0 == OutKey(r, dir) && Active(r, dir))
    ensures Active(r, dir) && Has(d, InKey(r, dir)) && r.transform.None? ==>
      out == [(OutKey(r, dir), Get(d, InKey(r, dir)).value)]
  {
    if !Active(r, dir) then []
    else if Has(d, InKey(r, dir)) then
      var v := Get(d, InKey(r, dir)).value;
      [(OutKey(r, dir), if r.transform.Some? then r.transform.value(v) else v)]
    else if r.required && r.default != VNull then [(OutKey(r, dir), r.default)]
    else []
  }

  /** `transform` over the first `n` rules: each rule's output merged into the result in turn. */
  function Transformed(d: Dict, rules: seq<Rule>, dir: Direction, n: nat): Dict
    requires n <= |rules|
  {
    if n == 0 then [] else Update(Transformed(d, rules, dir, n - 1), Apply(rules[n - 1], d, dir))
  }

  /**
   * What the conversions need from outside: `str()` of a value and the
   * parsing `int()` and `float()` do on a string (None when it raises).
   */
  datatype Conv = Conv(show: Value -> string, parseInt: string -> Option<int>, parseFloat: string -> Option<real>)

  /** `int()` of a real: truncation toward zero. */
  function Trunc(x: real): int
  {
    if x >= 0.0 then x.Floor else -((-x).Floor)
  }

  /** `int(v)`; None where Python raises ValueError or TypeError. */
  function ToInt(v: Value, c: Conv): Option<int>
  {
    match v
    case VBool(b) => Some(if b then 1 else 0)
    case VInt(i) => Some(i)
    case VFloat(x) => Some(Trunc(x))
    case VStr(s) => c.parseInt(s)
    case _ => None
  }

  /** `float(v)`; None where Python raises ValueError or TypeError. */
  function ToFloat(v: Value, c: Conv): Option<real>
  {
    match v
    case VStr(s) => c.parseFloat(s)
    case _ => Num(v)
  }

  /** The strings `_convert_type` reads as true, after lower-casing. */
  predicate TrueWord(s: string)
  {
    s in ["true", "1", "yes", "on"]
  }

  /**
   * `_convert_type`: None stays None and a value keeps its type when the
   * types agree; otherwise a value is converted into the target type, a
   * failed number conversion giving 0.
   */
  function ConvertType(v: Value, st: SchemaType, tt: SchemaType, c: Conv): (r: Value)
    ensures v == VNull ==> r == VNull
    ensures st == tt ==> r == v
  {
    if v == VNull then VNull
    else if st == tt then v
    else match tt
      case String => VStr(c.show(v))
      case Integer => if ToInt(v, c).Some? then VInt(ToInt(v, c).value) else VInt(0)
      case Float => if ToFloat(v, c).Some? then VFloat(ToFloat(v, c).value) else VInt(0)
      case Boolean =>
        if v.VBool? then v
        else if v.VStr? then VBool(TrueWord(Text.Lower(v.s)))
        else VBool(Truthy(v))
      case Array => if v.VList? then v else VList([v])
      case Object => if v.VObj? then v else VObj([("value", v)])
      case _ => v
  }

  /** The last field of a name: the one `{f.name: f for f in fields}` keeps. */
  function LastNamed(fs: seq<Field>, name: string): (r: Option<Field>)
    ensures r.Some? ==> r.value in fs && r.value.name == name
    ensures r.None? <==> forall i :: 0 <= i < |fs| ==> fs[i].name != name
  {
    if fs == [] then None
    else if fs[|fs| - 1].name == name then Some(fs[|fs| - 1])
    else LastNamed(fs[..|fs| - 1], name)
  }

  /** Whether field `i` is the first of its name: dict iteration visits each name once, at its first place. */
  predicate FirstNamed(fs: seq<Field>, i: nat)
    requires i < |fs|
  {
    forall j :: 0 <= j < i ==> fs[j].name != fs[i].name
  }

  /** The entry `transform_between_schemas` makes for the target field named `name`, given the result so far. */
  function BetweenStep(acc: Dict, d: Dict, src: seq<Field>, tgt: seq<Field>, name: string, c: Conv): Dict
  {
    match LastNamed(src, name)
    case None => acc
    case Some(sf) =>
      var tf := LastNamed(tgt, name);
      if tf.None? then acc
      else if sf.fieldType == tf.value.fieldType then
        if Has(d, name) then Put(acc, name, Get(d, name).value) else acc
      else Put(acc, name, ConvertType(GetV(d, name), sf.fieldType, tf.value.fieldType, c))
  }

  /** `transform_between_schemas` over the first `n` target fields. */
  function Between(d: Dict, src: seq<Field>, tgt: seq<Field>, n: nat, c: Conv): Dict
    requires n <= |tgt|
  {
    if n == 0 then []
    else
      var acc := Between(d, src, tgt, n - 1, c);
      if FirstNamed(tgt, n - 1) then BetweenStep(acc, d, src, tgt, tgt[n - 1].name, c) else acc
  }

  // ----- Properties -----

  /** A key only one rule writes holds what that rule produced. */
  lemma {:induction false} SingleWriter(d: Dict, rules: seq<Rule>, dir: Direction, n: nat, i: nat, k: string)
    requires i < n <= |rules|
    requires forall j :: 0 <= j < |rules| && j != i ==> OutKey(rules[j], dir) != k
    ensures Get(Transformed(d, rules, dir, n), k) == Get(Apply(rules[i], d, dir), k)
  {
    if i == n - 1 {
      TransformedKeys(d, rules, dir, n - 1, k);
      LastWrites(d, rules, dir, n, k);
    } else {
      GetFindsKeys(Apply(rules[n - 1], d, dir), k);
      SingleWriter(d, rules, dir, n - 1, i, k);
      OthersKeep(d, rules, dir, n, k);
    }
  }

  /** When the earlier rules did not write `k`, the `n`-th rule's output decides it. */
  lemma LastWrites(d: Dict, rules: seq<Rule>, dir: Direction, n: nat, k: string)
    requires 0 < n <= |rules| && !Has(Transformed(d, rules, dir, n - 1), k)
    ensures Get(Transformed(d, rules, dir, n), k) == Get(Apply(rules[n - 1], d, dir), k)
  {
    var prev := Transformed(d, rules, dir, n - 1);
    var out := Apply(rules[n - 1], d, dir);
    assert Transformed(d, rules, dir, n) == Update(prev, out);
    if out == [] {
      assert Get(out, k) == None;
    } else {
      assert WellFormed(out) by { assert Keys(out) == [out[0].0]; }
      UpdateGet(prev, out, k);
    }
  }

  /** A rule whose output lacks `k` leaves `k` as the earlier rules left it. */
  lemma OthersKeep(d: Dict, rules: seq<Rule>, dir: Direction, n: nat, k: string)
    requires 0 < n <= |rules| && !Has(Apply(rules[n - 1], d, dir), k)
    ensures Get(Transformed(d, rules, dir, n), k) == Get(Transformed(d, rules, dir, n - 1), k)
  {
    var prev := Transformed(d, rules, dir, n - 1);
    var out := Apply(rules[n - 1], d, dir);
    assert Transformed(d, rules, dir, n) == Update(prev, out);
    UpdateKeeps(prev, out, k);
  }

  /** Every key of a transformation's result is written by an active rule. */
  lemma {:induction false} TransformedKeys(d: Dict, rules: seq<Rule>, dir: Direction, n: nat, k: string)
    requires n <= |rules|
    ensures Has(Transformed(d, rules, dir, n), k) ==>
      exists j :: 0 <= j < n && Active(rules[j], dir) && OutKey(rules[j], dir) == k
  {
    if n > 0 {
      var out := Apply(rules[n - 1], d, dir);
      TransformedKeys(d, rules, dir, n - 1, k);
      GetFindsKeys(out, k);
      if out != [] {
        UpdateGet(Transformed(d, rules, dir, n - 1), out, k);
      } else {
        assert Transformed(d, rules, dir, n) == Transformed(d, rules, dir, n - 1);
      }
    }
  }

  /** Rules that rename fields one to one, both ways, without a function. */
  predicate Renaming(rules: seq<Rule>)
  {
    && (forall i :: 0 <= i < |rules| ==> rules[i].direction == Bidirectional && rules[i].transform.None?)
    && (forall i, j :: 0 <= i < j < |rules| ==> rules[i].source != rules[j].source && rules[i].target != rules[j].target)
  }

  /** Transforming forward and then backward with renaming rules gives back every source field the data held. */
  lemma RoundTrip(d: Dict, rules: seq<Rule>, i: nat)
    requires Renaming(rules) && i < |rules| && Has(d, rules[i].source)
    ensures var there := Transformed(d, rules, Forward, |rules|);
      Get(Transformed(there, rules, Backward, |rules|), rules[i].source) == Get(d, rules[i].source)
  {
    var r := rules[i];
    var there := Transformed(d, rules, Forward, |rules|);
    SingleWriter(d, rules, Forward, |rules|, i, r.target);
    GetSingle(r.target, Get(d, r.source).value);
    SingleWriter(there, rules, Backward, |rules|, i, r.source);
    GetSingle(r.source, Get(there, r.target).value);
  }

  /**
   * A converted value has the target type, as the validator checks it,
   * whenever the types differ and the target is one a conversion exists for.
   */
  lemma ConvertedHasType(v: Value, st: SchemaType, tt: SchemaType, c: Conv)
    requires v != VNull && st != tt && tt in {String, Integer, Float, Boolean, Array, Object}
    ensures DataValidator.HasType(ConvertType(v, st, tt, c), tt)
  {
  }

  /** A boolean target reads strings by their words and other values by truthiness. */
  lemma BooleanConversion(v: Value, st: SchemaType, c: Conv)
    requires v != VNull && st != Boolean
    ensures ConvertType(v, st, Boolean, c) ==
      VBool(if v.VBool? then v.b else if v.VStr? then TrueWord(Text.Lower(v.s)) else Truthy(v))
  {
  }

  /** Every key of a schema-to-schema result names a field of both schemas. */
  lemma {:induction false} BetweenKeys(d: Dict, src: seq<Field>, tgt: seq<Field>, n: nat, c: Conv, k: string)
    requires n <= |tgt|
    ensures Has(Between(d, src, tgt, n, c), k) ==>
      LastNamed(src, k).Some? && exists i :: 0 <= i < n && tgt[i].name == k
  {
    if n > 0 {
      BetweenKeys(d, src, tgt, n - 1, c, k);
    }
  }

  /** A field of the same type in both schemas is copied unchanged when the data holds it, and is left out when not. */
  lemma {:induction false} BetweenCopies(d: Dict, src: seq<Field>, tgt: seq<Field>, n: nat, c: Conv, i: nat)
    requires i < n <= |tgt| && FirstNamed(tgt, i)
    requires LastNamed(src, tgt[i].name).Some?
    requires LastNamed(src, tgt[i].name).value.fieldType == LastNamed(tgt, tgt[i].name).value.fieldType
    ensures Get(Between(d, src, tgt, n, c), tgt[i].name) == Get(d, tgt[i].name)
  {
    var k := tgt[i].name;
    if i < n - 1 {
      BetweenCopies(d, src, tgt, n - 1, c, i);
      if FirstNamed(tgt, n - 1) {
        assert tgt[n - 1].name != k;
      }
    } else {
      BetweenKeys(d, src, tgt, n - 1, c, k);
      GetFindsKeys(Between(d, src, tgt, n - 1, c), k);
    }
  }

  // ----- The transformer -----

  /** `DataTransformer`: named rule lists, and the registry schemas are looked up in. */
  class Transformer {
    const registry: Registry
    var rules: map<string, seq<Rule>>

    constructor (registry: Registry)
      ensures this.registry == registry && rules == map[]
    {
      this.registry := registry;
      rules := map[];
    }

    /** `register_transformation`: a name registered again takes the new rules. */
    method RegisterTransformation(name: string, rs: seq<Rule>)
      modifies this
      ensures rules == old(rules)[name := rs]
    {
      rules := rules[name := rs];
    }

    /** `transform`: an unknown name is refused; otherwise the rules applied in order. */
    method Transform(data: Dict, name: string, dir: Direction) returns (r: Result<Dict>)
      ensures name !in rules ==> r == Err("Transformation " + name + " not found")
      ensures name in rules ==> r == Ok(Transformed(data, rules[name], dir, |rules[name]|))
    {
      if name !in rules {
        return Err("Transformation " + name + " not found");
      }
      var rs := rules[name];
      var result: Dict := [];
      var i := 0;
      while i < |rs|
        invariant 0 <= i <= |rs|
        invariant result == Transformed(data, rs, dir, i)
      {
        result := Update(result, Apply(rs[i], data, dir));
        i := i + 1;
      }
      return Ok(result);
    }

    /**
     * `transform_between_schemas`: either schema unknown is refused;
     * otherwise each target field name the source schema also has is
     * copied or converted.
     */
    method TransformBetweenSchemas(data: Dict, sourceId: string, targetId: string, c: Conv)
      returns (r: Result<Dict>)
      ensures sourceId !in registry.schemas || targetId !in registry.schemas ==>
        r == Err("Source or target schema not found")
      ensures sourceId in registry.schemas && targetId in registry.schemas ==>
        r == Ok(Between(data, registry.schemas[sourceId].fields, registry.schemas[targetId].fields,
                        |registry.schemas[targetId].fields|, c))
    {
      var source := registry.Get(sourceId);
      var target := registry.Get(targetId);
      if source.None? || target.None? {
        return Err("Source or target schema not found");
      }
      var src, tgt := source.value.fields, target.value.fields;
      var result: Dict := [];
      var i := 0;
      while i < |tgt|
        invariant 0 <= i <= |tgt|
        invariant result == Between(data, src, tgt, i, c)
      {
        if FirstNamed(tgt, i) {
          var name := tgt[i].name;
          var sf := LastNamed(src, name);
          var tf := LastNamed(tgt, name);
          if sf.Some? && tf.Some? {
            if sf.value.fieldType == tf.value.fieldType {
              if Has(data, name) {
                result := Put(result, name, Get(data, name).value);
              }
            } else {
              result := Put(result, name, ConvertType(GetV(data, name), sf.value.fieldType, tf.value.fieldType, c));
            }
          }
        }
        i := i + 1;
      }
      return Ok(result);
    }
  }
}
