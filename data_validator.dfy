// Checking a data dictionary against a schema: required fields, the type of
// each present field, enumerations, the validation rules, nested and
// referenced schemas, and a warning for fields the schema does not declare.
module DataValidator {
  import opened Wrappers
  import opened Values
  import opened DataSchema
  import Seqs
  import Text

  /** A validation error; `value` is None where the source leaves it unset. */
  datatype Issue = Issue(field: string, message: string, value: Value, code: string)

  /** The outcome of one validation: valid exactly when there is no error. */
  datatype Report = Report(valid: bool, errors: seq<Issue>, warnings: seq<string>)

  /**
   * What the validator takes from outside: `str()` of a value, as the
   * messages interpolate it, and whether `re.match(pattern, s)` succeeds.
   */
  datatype Env = Env(show: Value -> string, matches: (string, string) -> bool)

  /** `type(v).__name__`. */
  function PyTypeName(v: Value): string
  {
    match v
    case VNull => "NoneType"
    case VBool(_) => "bool"
    case VInt(_) => "int"
    case VFloat(_) => "float"
    case VStr(_) => "str"
    case VList(_) => "list"
    case VObj(_) => "dict"
  }

  /**
   * The `isinstance` test a field type puts on a value that is not None.
   * `bool` is a subclass of `int`, so booleans pass as integers and numbers;
   * enumerations, unions, references and `any` are not type-checked.
   */
  predicate HasType(v: Value, t: SchemaType)
  {
    match t
    case String => v.VStr?
    case Integer => v.VInt? || v.VBool?
    case Float => Num(v).Some?
    case Boolean => v.VBool?
    case DateTime => v.VStr?
    case Array => v.VList?
    case Object => v.VObj?
    case _ => true
  }

  /** How the `type_error` message names the expected type. */
  function Expected(t: SchemaType): string
  {
    match t
    case String => "string"
    case Integer => "integer"
    case Float => "number"
    case Boolean => "boolean"
    case DateTime => "datetime or string"
    case Array => "array"
    case Object => "object"
    case _ => ""
  }

  function TypeIssue(f: Field, v: Value): Issue
  {
    Issue(f.name, "Expected " + Expected(f.fieldType) + ", got " + PyTypeName(v), v, "type_error")
  }

  function NullIssue(f: Field): Issue
  {
    Issue(f.name, "Field cannot be None", VNull, "null_value")
  }

  function MissingIssue(n: string): Issue
  {
    Issue(n, "Required field '" + n + "' is missing", VNull, "missing_required_field")
  }

  /** A nested error, renamed to sit under the enclosing field. */
  function Nest(prefix: string, e: Issue): Issue
  {
    e.(field := prefix + "." + e.field)
  }

  /** The field each item of an array is checked as: a required object of the item schema. */
  function ItemField(f: Field, i: nat): Field
  {
    Bare(f.name + "[" + Text.NatToString(i) + "]", Object).(nested := f.itemSchema)
  }

  /** `", ".join(xs)`. */
  function Join(xs: seq<string>): string
  {
    if xs == [] then "" else if |xs| == 1 then xs[0] else xs[0] + ", " + Join(xs[1..])
  }

  function Flag(broken: bool, e: Issue): Option<Issue>
  {
    if broken then Some(e) else None
  }

  /**
   * `len(x) < bound` or `x > bound` in Python: a bound that is not a number
   * raises TypeError.
   */
  function Beyond(x: real, lhs: string, bound: Value, below: bool): Result<bool>
  {
    match Num(bound)
    case None =>
      Err("TypeError: '" + (if below then "<" else ">") + "' not supported between instances of '"
          + lhs + "' and '" + PyTypeName(bound) + "'")
    case Some(b) => Ok(if below then x < b else x > b)
  }

  /** The validation rules the validator knows; any other rule name is ignored. */
  datatype RuleName = MinLength | MaxLength | Minimum | Maximum | Pattern | MinItems | MaxItems | OtherRule

  /** The rule names the validator dispatches on. */
  const KnownRules: map<string, RuleName> := map[
    "minLength" := MinLength, "maxLength" := MaxLength, "minimum" := Minimum, "maximum" := Maximum,
    "pattern" := Pattern, "minItems" := MinItems, "maxItems" := MaxItems]

  function RuleKind(rule: string): RuleName
  {
    if rule in KnownRules then KnownRules[rule] else OtherRule
  }

  /** A bound check: the error `e` when `x` is beyond the bound. */
  function Bounded(x: real, lhs: string, bound: Value, below: bool, e: Issue): (r: Result<Option<Issue>>)
    ensures r.Ok? && r.value.Some? ==> r.value.value == e
  {
    var b :- Beyond(x, lhs, bound, below);
    Ok(Flag(b, e))
  }

  /**
   * One validation rule applied to a value. A rule applies only to the kind
   * of value it is about; bounds are inclusive, so a value on the bound passes.
   */
  function RuleIssue(v: Value, f: Field, rule: string, rv: Value, env: Env): (r: Result<Option<Issue>>)
    ensures r.Ok? && r.value.Some? ==> r.value.value.field == f.name && r.value.value.value == v
    ensures v.VNull? || v.VObj? ==> r == Ok(None)
  {
    match RuleKind(rule)
    case MinLength =>
      if !v.VStr? then Ok(None)
      else Bounded(|v.s| as real, "int", rv, true,
        Issue(f.name, "String length must be at least " + env.show(rv), v, "min_length_error"))
    case MaxLength =>
      if !v.VStr? then Ok(None)
      else Bounded(|v.s| as real, "int", rv, false,
        Issue(f.name, "String length must be at most " + env.show(rv), v, "max_length_error"))
    case Minimum =>
      if Num(v).None? then Ok(None)
      else Bounded(Num(v).value, PyTypeName(v), rv, true,
        Issue(f.name, "Value must be at least " + env.show(rv), v, "minimum_error"))
    case Maximum =>
      if Num(v).None? then Ok(None)
      else Bounded(Num(v).value, PyTypeName(v), rv, false,
        Issue(f.name, "Value must be at most " + env.show(rv), v, "maximum_error"))
    case Pattern =>
      if !v.VStr? then Ok(None)
      else if !rv.VStr? then Err("TypeError: first argument must be string or compiled pattern")
      else Ok(Flag(!env.matches(rv.s, v.s), Issue(f.name, "Value does not match pattern " + env.show(rv), v, "pattern_error")))
    case MinItems =>
      if !v.VList? then Ok(None)
      else Bounded(|v.items| as real, "int", rv, true,
        Issue(f.name, "Array must have at least " + env.show(rv) + " items", v, "min_items_error"))
    case MaxItems =>
      if !v.VList? then Ok(None)
      else Bounded(|v.items| as real, "int", rv, false,
        Issue(f.name, "Array must have at most " + env.show(rv) + " items", v, "max_items_error"))
    case OtherRule =>
      Ok(None)
  }

  /** String lengths: the bounds are inclusive, and a numeric bound never raises. */
  lemma LengthBounds(s: string, f: Field, rv: Value, env: Env)
    requires Num(rv).Some?
    ensures var r := RuleIssue(VStr(s), f, "minLength", rv, env);
      r.Ok? && (r.value.None? <==> |s| as real >= Num(rv).value)
    ensures var r := RuleIssue(VStr(s), f, "maxLength", rv, env);
      r.Ok? && (r.value.None? <==> |s| as real <= Num(rv).value)
  {
    assert RuleKind("minLength") == MinLength && RuleKind("maxLength") == MaxLength;
  }

  /** Numbers, booleans included: the bounds are inclusive, and a numeric bound never raises. */
  lemma NumberBounds(v: Value, f: Field, rv: Value, env: Env)
    requires Num(v).Some? && Num(rv).Some?
    ensures var r := RuleIssue(v, f, "minimum", rv, env);
      r.Ok? && (r.value.None? <==> Num(v).value >= Num(rv).value)
    ensures var r := RuleIssue(v, f, "maximum", rv, env);
      r.Ok? && (r.value.None? <==> Num(v).value <= Num(rv).value)
  {
    assert RuleKind("minimum") == Minimum && RuleKind("maximum") == Maximum;
  }

  /** Array sizes: the bounds are inclusive, and a numeric bound never raises. */
  lemma ItemBounds(xs: seq<Value>, f: Field, rv: Value, env: Env)
    requires Num(rv).Some?
    ensures var r := RuleIssue(VList(xs), f, "minItems", rv, env);
      r.Ok? && (r.value.None? <==> |xs| as real >= Num(rv).value)
    ensures var r := RuleIssue(VList(xs), f, "maxItems", rv, env);
      r.Ok? && (r.value.None? <==> |xs| as real <= Num(rv).value)
  {
    assert RuleKind("minItems") == MinItems && RuleKind("maxItems") == MaxItems;
  }

  /** A pattern rule flags exactly the strings the pattern does not match; a pattern that is not a string raises. */
  lemma PatternRule(s: string, f: Field, rv: Value, env: Env)
    ensures var r := RuleIssue(VStr(s), f, "pattern", rv, env);
      && (rv.VStr? ==> r.Ok? && (r.value.None? <==> env.matches(rv.s, s)))
      && (!rv.VStr? ==> r.Err?)
  {
  }

  function OptSeq(o: Option<Issue>): seq<Issue>
  {
    if o.Some? then [o.value] else []
  }

  /** The first `n` validation rules of `f`, in order; the first rule that raises stops the rest. */
  function RuleIssues(v: Value, f: Field, env: Env, n: nat): (r: Result<seq<Issue>>)
    requires n <= |f.rules|
    ensures r.Ok? ==> forall e :: e in r.value ==> e.field == f.name
  {
    if n == 0 then Ok([])
    else
      var acc :- RuleIssues(v, f, env, n - 1);
      var e :- RuleIssue(v, f, f.rules[n - 1].0, f.rules[n - 1].1, env);
      Ok(acc + OptSeq(e))
  }

  /** One more rule that does not raise adds its issue, if any, after the earlier ones. */
  lemma RuleIssuesStep(v: Value, f: Field, env: Env, i: nat)
    requires i < |f.rules| && RuleIssues(v, f, env, i).Ok?
    requires RuleIssue(v, f, f.rules[i].0, f.rules[i].1, env).Ok?
    ensures RuleIssues(v, f, env, i + 1)
         == Ok(RuleIssues(v, f, env, i).value + OptSeq(RuleIssue(v, f, f.rules[i].0, f.rules[i].1, env).value))
  {
  }

  /** The enumeration check: a non-empty list of allowed values that does not hold `v`. */
  function EnumIssues(v: Value, f: Field, env: Env): seq<Issue>
  {
    if HasEnum(f) && !PyIn(v, f.enumValues.value) then
      [Issue(f.name, "Value must be one of " + env.show(VList(f.enumValues.value)), v, "enum_error")]
    else []
  }

  /** The index of the entry `d[k]` reads. */
  function FindKey(d: Dict, k: string): (i: nat)
    requires Has(d, k)
    ensures i < |d| && d[i].0 == k && Get(d, k) == Some(d[i].1)
  {
    if d[0].0 == k then 0 else 1 + FindKey(d[1..], k)
  }

  /** The required field names the data lacks, each once, in field order. */
  function Missing(fs: seq<Field>, d: Dict): seq<string>
  {
    if fs == [] then []
    else
      var m := Missing(fs[..|fs| - 1], d);
      var f := fs[|fs| - 1];
      if f.required && !Has(d, f.name) && f.name !in m then m + [f.name] else m
  }

  /** The keys of the data no field is named, each once, in data order. */
  function Unknown(d: Dict, names: seq<string>): seq<string>
  {
    if d == [] then []
    else
      var u := Unknown(d[..|d| - 1], names);
      var k := d[|d| - 1].0;
      if k !in names && k !in u then u + [k] else u
  }

  function Warnings(unknown: seq<string>): seq<string>
  {
    if unknown == [] then [] else ["Unknown fields: " + Join(unknown)]
  }

  /**
   * `validate(data, schema)`: the missing required fields first, then the
   * errors of each field present in the data, in field order; a rule or a
   * reference that raises makes the whole validation an error.
   */
  function Check(d: Dict, s: Schema, schemas: map<string, Schema>, env: Env): (r: Result<Report>)
    ensures r.Ok? ==> (r.value.valid <==> r.value.errors == [])
    decreases VObj(d), 1, 0
  {
    var found :- CheckFields(d, s, schemas, env, |s.fields|);
    var errors := Seqs.Map(MissingIssue, Missing(s.fields, d)) + found;
    Ok(Report(errors == [], errors, Warnings(Unknown(d, Seqs.Map(NameOf, s.fields)))))
  }

  /** The errors of the first `n` fields that the data holds. */
  function CheckFields(d: Dict, s: Schema, schemas: map<string, Schema>, env: Env, n: nat): Result<seq<Issue>>
    requires n <= |s.fields|
    decreases VObj(d), 0, n
  {
    if n == 0 then Ok([])
    else
      var acc :- CheckFields(d, s, schemas, env, n - 1);
      var f := s.fields[n - 1];
      if !Has(d, f.name) then Ok(acc)
      else
        var i := FindKey(d, f.name);
        assert d[i] in d;
        var es :- CheckField(d[i].1, f, schemas, env);
        Ok(acc + es)
  }

  /**
   * `_validate_field`: a type error is the only error reported; otherwise
   * the enumeration error, then the rule errors. Every error names the field
   * or a part of it, except those a referenced schema reports.
   */
  function CheckField(v: Value, f: Field, schemas: map<string, Schema>, env: Env): (r: Result<seq<Issue>>)
    ensures CheckType(v, f, schemas, env) == Ok(None) ==> (r.Ok? <==> RuleIssues(v, f, env, |f.rules|).Ok?)
    ensures CheckType(v, f, schemas, env).Ok? && CheckType(v, f, schemas, env).value.Some? ==>
      r == Ok([CheckType(v, f, schemas, env).value.value])
    ensures r.Ok? && f.fieldType != Reference ==>
      forall e :: e in r.value ==> Text.StartsWith(e.field, f.name)
    decreases v, 3, 0
  {
    var te :- CheckType(v, f, schemas, env);
    if te.Some? then Ok([te.value])
    else
      var rules :- RuleIssues(v, f, env, |f.rules|);
      Ok(EnumIssues(v, f, env) + rules)
  }

  /**
   * `_validate_type`: None is an error only for a required field; a value of
   * the wrong type is a `type_error`; an array checks its items, an object
   * its nested schema, a reference the registered schema it names.
   */
  function CheckType(v: Value, f: Field, schemas: map<string, Schema>, env: Env): (r: Result<Option<Issue>>)
    ensures v == VNull ==> r == Ok(if f.required then Some(NullIssue(f)) else None)
    ensures v != VNull && !HasType(v, f.fieldType) ==> r == Ok(Some(TypeIssue(f, v)))
    ensures r.Ok? && r.value.Some? && f.fieldType != Reference ==> Text.StartsWith(r.value.value.field, f.name)
    decreases v, 2, 0
  {
    if v == VNull then Ok(if f.required then Some(NullIssue(f)) else None)
    else if !HasType(v, f.fieldType) then Ok(Some(TypeIssue(f, v)))
    else if f.fieldType == Array then
      if f.itemSchema.Some? then
        var items := CheckItems(v, f, schemas, env, 0);
        Text.StartsWithLonger(if items.Ok? && items.value.Some? then items.value.value.field else "", f.name, "[");
        items
      else Ok(None)
    else if f.fieldType == Object then
      if f.nested.Some? then
        var rep :- Check(v.entries, f.nested.value, schemas, env);
        if !rep.valid && rep.errors != [] then
          Text.StartsWithJoin(f.name, "." + rep.errors[0].field);
          Ok(Some(Nest(f.name, rep.errors[0])))
        else Ok(None)
      else Ok(None)
    else if f.fieldType == Reference then
      if Given(f.referenceSchema) && f.referenceSchema.value in schemas then
        if !v.VObj? then Err("AttributeError: '" + PyTypeName(v) + "' object has no attribute 'keys'")
        else
          var rep :- Check(v.entries, schemas[f.referenceSchema.value], schemas, env);
          Ok(if !rep.valid && rep.errors != [] then Some(rep.errors[0]) else None)
      else Ok(None)
    else Ok(None)
  }

  /** The items of an array from index `i` on: the first error of the first item that has one. */
  function CheckItems(v: Value, f: Field, schemas: map<string, Schema>, env: Env, i: nat): (r: Result<Option<Issue>>)
    requires v.VList? && f.itemSchema.Some? && i <= |v.items|
    ensures r.Ok? && r.value.Some? ==> Text.StartsWith(r.value.value.field, f.name + "[")
    decreases v, 1, |v.items| - i
  {
    if i == |v.items| then Ok(None)
    else
      var errs :- CheckField(v.items[i], ItemField(f, i), schemas, env);
      if errs != [] then Ok(Some(errs[0])) else CheckItems(v, f, schemas, env, i + 1)
  }

  // ----- Properties of the specification -----

  /** A rule that raises stops the rest: the error is that of the whole rule list. */
  lemma {:induction false} RuleIssuesErrSticks(v: Value, f: Field, env: Env, n: nat, m: nat)
    requires n <= m <= |f.rules| && RuleIssues(v, f, env, n).Err?
    ensures RuleIssues(v, f, env, m) == RuleIssues(v, f, env, n)
    decreases m - n
  {
    if n < m {
      RuleIssuesErrSticks(v, f, env, n, m - 1);
      RuleIssuesErrStep(v, f, env, m);
    }
  }

  /** A raise among the first `m - 1` rules is the result of the first `m`. */
  lemma RuleIssuesErrStep(v: Value, f: Field, env: Env, m: nat)
    requires 0 < m <= |f.rules| && RuleIssues(v, f, env, m - 1).Err?
    ensures RuleIssues(v, f, env, m) == RuleIssues(v, f, env, m - 1)
  {
  }

  /** A field check that raises is the error of the whole validation. */
  lemma {:induction false} CheckFieldsErrSticks(d: Dict, s: Schema, schemas: map<string, Schema>, env: Env,
                                                n: nat, m: nat)
    requires n <= m <= |s.fields| && CheckFields(d, s, schemas, env, n).Err?
    ensures CheckFields(d, s, schemas, env, m) == CheckFields(d, s, schemas, env, n)
    decreases m - n
  {
    if n < m {
      CheckFieldsErrSticks(d, s, schemas, env, n, m - 1);
      CheckFieldsErrStep(d, s, schemas, env, m);
    }
  }

  /** A raise among the first `m - 1` fields is the result of the first `m`. */
  lemma CheckFieldsErrStep(d: Dict, s: Schema, schemas: map<string, Schema>, env: Env, m: nat)
    requires 0 < m <= |s.fields| && CheckFields(d, s, schemas, env, m - 1).Err?
    ensures CheckFields(d, s, schemas, env, m) == CheckFields(d, s, schemas, env, m - 1)
  {
  }

  /** The missing names are exactly the required field names the data lacks, each once. */
  lemma {:induction false} MissingExact(fs: seq<Field>, d: Dict, n: string)
    ensures Seqs.NoDup(Missing(fs, d))
    ensures n in Missing(fs, d) <==>
      !Has(d, n) && exists i :: 0 <= i < |fs| && fs[i].name == n && fs[i].required
  {
    if fs != [] {
      var m := |fs| - 1;
      MissingExact(fs[..m], d, n);
      MissingExact(fs[..m], d, fs[m].name);
      if n in Missing(fs, d) && n !in Missing(fs[..m], d) {
        assert fs[m].name == n;
      }
      if !Has(d, n) && exists i :: 0 <= i < |fs| && fs[i].name == n && fs[i].required {
        var i :| 0 <= i < |fs| && fs[i].name == n && fs[i].required;
        if i < m {
          assert fs[..m][i] == fs[i];
        }
      }
      if n in Missing(fs[..m], d) {
        var i :| 0 <= i < m && fs[..m][i].name == n && fs[..m][i].required;
        assert fs[i] == fs[..m][i];
      }
    }
  }

  /** The unknown keys are exactly the data's keys no field is named, each once. */
  lemma {:induction false} UnknownExact(d: Dict, names: seq<string>, k: string)
    ensures Seqs.NoDup(Unknown(d, names))
    ensures k in Unknown(d, names) <==> k in Keys(d) && k !in names
  {
    if d != [] {
      var m := |d| - 1;
      UnknownExact(d[..m], names, k);
      UnknownExact(d[..m], names, d[m].0);
      assert Keys(d) == Keys(d[..m]) + [d[m].0];
    }
  }

  /**
   * A required field the data lacks is reported, whether or not it has a
   * default, and the data is then invalid.
   */
  lemma MissingReported(d: Dict, s: Schema, schemas: map<string, Schema>, env: Env, i: nat)
    requires Check(d, s, schemas, env).Ok?
    requires i < |s.fields| && s.fields[i].required && !Has(d, s.fields[i].name)
    ensures MissingIssue(s.fields[i].name) in Check(d, s, schemas, env).value.errors
    ensures !Check(d, s, schemas, env).value.valid
  {
    var ms := Missing(s.fields, d);
    MissingExact(s.fields, d, s.fields[i].name);
    var j :| 0 <= j < |ms| && ms[j] == s.fields[i].name;
    assert Seqs.Map(MissingIssue, ms)[j] == MissingIssue(s.fields[i].name);
  }

  /** The field errors are empty exactly when every present field checks clean. */
  lemma {:induction false} CheckFieldsClean(d: Dict, s: Schema, schemas: map<string, Schema>, env: Env, n: nat)
    requires n <= |s.fields| && CheckFields(d, s, schemas, env, n).Ok?
    ensures CheckFields(d, s, schemas, env, n).value == [] <==>
      forall i :: 0 <= i < n && Has(d, s.fields[i].name) ==>
        CheckField(GetV(d, s.fields[i].name), s.fields[i], schemas, env) == Ok([])
  {
    if n > 0 {
      CheckFieldsStep(d, s, schemas, env, n);
      CheckFieldsClean(d, s, schemas, env, n - 1);
    }
  }

  /** The errors of the first `n` fields: those of the first `n - 1`, then those of field `n - 1` when present. */
  lemma CheckFieldsStep(d: Dict, s: Schema, schemas: map<string, Schema>, env: Env, n: nat)
    requires 0 < n <= |s.fields| && CheckFields(d, s, schemas, env, n).Ok?
    ensures CheckFields(d, s, schemas, env, n - 1).Ok?
    ensures var f := s.fields[n - 1];
      Has(d, f.name) ==> CheckField(GetV(d, f.name), f, schemas, env).Ok?
    ensures var f := s.fields[n - 1];
      CheckFields(d, s, schemas, env, n).value == CheckFields(d, s, schemas, env, n - 1).value
        + (if Has(d, f.name) then CheckField(GetV(d, f.name), f, schemas, env).value else [])
  {
    var f := s.fields[n - 1];
    if Has(d, f.name) {
      var k := FindKey(d, f.name);
      assert GetV(d, f.name) == d[k].1;
    }
  }

  /**
   * The data is valid exactly when no required field is missing and every
   * field the data holds checks without error.
   */
  lemma ValidExactly(d: Dict, s: Schema, schemas: map<string, Schema>, env: Env)
    requires Check(d, s, schemas, env).Ok?
    ensures Check(d, s, schemas, env).value.valid <==>
      && (forall i :: 0 <= i < |s.fields| && s.fields[i].required ==> Has(d, s.fields[i].name))
      && (forall i :: 0 <= i < |s.fields| && Has(d, s.fields[i].name) ==>
            CheckField(GetV(d, s.fields[i].name), s.fields[i], schemas, env) == Ok([]))
  {
    CheckFieldsClean(d, s, schemas, env, |s.fields|);
    var ms := Missing(s.fields, d);
    if ms != [] {
      MissingExact(s.fields, d, ms[0]);
    }
    forall i | 0 <= i < |s.fields| && s.fields[i].required && !Has(d, s.fields[i].name)
      ensures ms != []
    {
      MissingExact(s.fields, d, s.fields[i].name);
    }
  }

  /** A key added at the end that no field is named leaves every other lookup as it was. */
  lemma ExtraKeyLookups(d: Dict, k: string, v: Value, n: string)
    requires n != k
    ensures Get(d + [(k, v)], n) == Get(d, n)
  {
    GetAppend(d, [(k, v)], n);
    GetSingle(k, v);
  }

  lemma {:induction false} ExtraKeyMissing(fs: seq<Field>, d: Dict, k: string, v: Value)
    requires forall i :: 0 <= i < |fs| ==> fs[i].name != k
    ensures Missing(fs, d + [(k, v)]) == Missing(fs, d)
  {
    if fs != [] {
      var m := |fs| - 1;
      ExtraKeyMissing(fs[..m], d, k, v);
      ExtraKeyLookups(d, k, v, fs[m].name);
    }
  }

  lemma {:induction false} ExtraKeyFields(d: Dict, s: Schema, schemas: map<string, Schema>, env: Env,
                                          k: string, v: Value, n: nat)
    requires n <= |s.fields| && forall i :: 0 <= i < |s.fields| ==> s.fields[i].name != k
    ensures CheckFields(d + [(k, v)], s, schemas, env, n) == CheckFields(d, s, schemas, env, n)
  {
    if n > 0 {
      ExtraKeyFields(d, s, schemas, env, k, v, n - 1);
      ExtraKeyFieldStep(d, s, schemas, env, k, v, n);
    }
  }

  /** The `n`-th field reads the same value with or without the extra key. */
  lemma ExtraKeyFieldStep(d: Dict, s: Schema, schemas: map<string, Schema>, env: Env,
                          k: string, v: Value, n: nat)
    requires 0 < n <= |s.fields| && s.fields[n - 1].name != k
    requires CheckFields(d + [(k, v)], s, schemas, env, n - 1) == CheckFields(d, s, schemas, env, n - 1)
    ensures CheckFields(d + [(k, v)], s, schemas, env, n) == CheckFields(d, s, schemas, env, n)
  {
    var f := s.fields[n - 1];
    ExtraKeyLookups(d, k, v, f.name);
    if Has(d, f.name) {
      var d' := d + [(k, v)];
      var i, i' := FindKey(d, f.name), FindKey(d', f.name);
      assert d'[i'].1 == d[i].1;
    }
  }

  /**
   * A key the schema does not declare changes no error and no verdict; it
   * only brings the "Unknown fields" warning.
   */
  lemma UnknownKeyOnlyWarns(d: Dict, s: Schema, schemas: map<string, Schema>, env: Env, k: string, v: Value)
    requires !Has(d, k) && forall i :: 0 <= i < |s.fields| ==> s.fields[i].name != k
    ensures Check(d + [(k, v)], s, schemas, env).Ok? == Check(d, s, schemas, env).Ok?
    ensures Check(d, s, schemas, env).Ok? ==>
      && Check(d + [(k, v)], s, schemas, env).value.errors == Check(d, s, schemas, env).value.errors
      && Check(d + [(k, v)], s, schemas, env).value.valid == Check(d, s, schemas, env).value.valid
      && Check(d + [(k, v)], s, schemas, env).value.warnings != []
  {
    var d' := d + [(k, v)];
    ExtraKeyMissing(s.fields, d, k, v);
    ExtraKeyFields(d, s, schemas, env, k, v, |s.fields|);
    var names := Seqs.Map(NameOf, s.fields);
    UnknownExact(d', names, k);
    assert Keys(d') == Keys(d) + [k];
    assert k !in names;
  }

  /** No rule applies to None. */
  lemma {:induction false} RulesIgnoreNone(f: Field, env: Env, n: nat)
    requires n <= |f.rules|
    ensures RuleIssues(VNull, f, env, n) == Ok([])
  {
    if n > 0 {
      RulesIgnoreNone(f, env, n - 1);
      NoneRuleStep(f, env, n);
    }
  }

  /** One more rule adds nothing for None. */
  lemma NoneRuleStep(f: Field, env: Env, n: nat)
    requires 0 < n <= |f.rules| && RuleIssues(VNull, f, env, n - 1) == Ok([])
    ensures RuleIssues(VNull, f, env, n) == Ok([])
  {
    assert RuleIssue(VNull, f, f.rules[n - 1].0, f.rules[n - 1].1, env) == Ok(None);
    assert [] + OptSeq(None) == [];
  }

  /**
   * None in a field: a required field reports only that it cannot be None;
   * an optional one passes every rule and fails only an enumeration that
   * does not list None.
   */
  lemma NoneValue(f: Field, schemas: map<string, Schema>, env: Env)
    ensures f.required ==> CheckField(VNull, f, schemas, env) == Ok([NullIssue(f)])
    ensures !f.required ==> CheckField(VNull, f, schemas, env) == Ok(EnumIssues(VNull, f, env))
  {
    RulesIgnoreNone(f, env, |f.rules|);
    assert CheckType(VNull, f, schemas, env) == Ok(if f.required then Some(NullIssue(f)) else None);
    assert EnumIssues(VNull, f, env) + [] == EnumIssues(VNull, f, env);
  }

  // ----- The validator -----

  /** `DataValidator`: validation against a registry in which references are looked up. */
  class Validator {
    const registry: Registry
    const env: Env

    constructor (registry: Registry, env: Env)
      ensures this.registry == registry && this.env == env
    {
      this.registry := registry;
      this.env := env;
    }

    /** `validate`: the report `Check` describes, or the error a rule or reference raises. */
    method Validate(d: Dict, s: Schema) returns (r: Result<Report>)
      ensures r == Check(d, s, registry.schemas, env)
      decreases VObj(d), 1, 0
    {
      var errors := Seqs.Map(MissingIssue, Missing(s.fields, d));
      var found: seq<Issue> := [];
      var i := 0;
      while i < |s.fields|
        invariant 0 <= i <= |s.fields|
        invariant CheckFields(d, s, registry.schemas, env, i) == Ok(found)
      {
        var next := ValidateFieldOf(d, s, i, found);
        if next.Err? {
          return Err(next.error);
        }
        found := next.value;
        i := i + 1;
      }

      var unknown := Unknown(d, Seqs.Map(NameOf, s.fields));
      errors := errors + found;
      r := Ok(Report(errors == [], errors, Warnings(unknown)));
    }

    /** One pass of the field loop: a field the data holds adds its errors, or its error stops the loop. */
    method ValidateFieldOf(d: Dict, s: Schema, i: nat, found: seq<Issue>) returns (r: Result<seq<Issue>>)
      requires i < |s.fields| && CheckFields(d, s, registry.schemas, env, i) == Ok(found)
      ensures r == CheckFields(d, s, registry.schemas, env, i + 1)
      ensures r.Err? ==> r == CheckFields(d, s, registry.schemas, env, |s.fields|)
      decreases VObj(d), 0, 0
    {
      var f := s.fields[i];
      if !Has(d, f.name) {
        return Ok(found);
      }
      var k := FindKey(d, f.name);
      assert d[k] in d;
      var es := ValidateField(d[k].1, f);
      if es.Err? {
        r := Err(es.error);
        CheckFieldsErrSticks(d, s, registry.schemas, env, i + 1, |s.fields|);
        return;
      }
      return Ok(found + es.value);
    }

    /** `_validate_field`: the type check, then the enumeration, then each rule in order. */
    method ValidateField(v: Value, f: Field) returns (r: Result<seq<Issue>>)
      ensures r == CheckField(v, f, registry.schemas, env)
      decreases v, 3, 0
    {
      var te := ValidateType(v, f);
      if te.Err? {
        return Err(te.error);
      }
      if te.value.Some? {
        return Ok([te.value.value]);
      }
      var rules := ApplyRules(v, f);
      if rules.Err? {
        return Err(rules.error);
      }
      return Ok(EnumIssues(v, f, env) + rules.value);
    }

    /** The loop of `_validate_field` over the validation rules, in order; a rule that raises stops it. */
    method ApplyRules(v: Value, f: Field) returns (r: Result<seq<Issue>>)
      ensures r == RuleIssues(v, f, env, |f.rules|)
    {
      var errors: seq<Issue> := [];
      var i := 0;
      while i < |f.rules|
        invariant 0 <= i <= |f.rules|
        invariant RuleIssues(v, f, env, i) == Ok(errors)
      {
        var next := ApplyRule(v, f, i, errors);
        if next.Err? {
          return next;
        }
        errors := next.value;
        i := i + 1;
      }
      return Ok(errors);
    }

    /** One pass of the rule loop: the `i`-th rule's issue joins the earlier ones, or its error stops the loop. */
    method ApplyRule(v: Value, f: Field, i: nat, errors: seq<Issue>) returns (r: Result<seq<Issue>>)
      requires i < |f.rules| && RuleIssues(v, f, env, i) == Ok(errors)
      ensures r == RuleIssues(v, f, env, i + 1)
      ensures r.Err? ==> r == RuleIssues(v, f, env, |f.rules|)
    {
      var e := RuleIssue(v, f, f.rules[i].0, f.rules[i].1, env);
      if e.Err? {
        RuleIssuesErrSticks(v, f, env, i + 1, |f.rules|);
        return Err(e.error);
      }
      RuleIssuesStep(v, f, env, i);
      return Ok(errors + OptSeq(e.value));
    }

    /** `_validate_type`: None, the type itself, then array items, a nested object or a reference. */
    method ValidateType(v: Value, f: Field) returns (r: Result<Option<Issue>>)
      ensures r == CheckType(v, f, registry.schemas, env)
      decreases v, 2, 0
    {
      if v == VNull {
        return Ok(if f.required then Some(NullIssue(f)) else None);
      }
      if !HasType(v, f.fieldType) {
        return Ok(Some(TypeIssue(f, v)));
      }
      if f.fieldType == Array {
        if f.itemSchema.Some? {
          r := ValidateItems(v, f);
          return;
        }
        return Ok(None);
      } else if f.fieldType == Object {
        if f.nested.Some? {
          var rep := Validate(v.entries, f.nested.value);
          if rep.Err? {
            return Err(rep.error);
          }
          if !rep.value.valid && rep.value.errors != [] {
            return Ok(Some(Nest(f.name, rep.value.errors[0])));
          }
        }
        return Ok(None);
      } else if f.fieldType == Reference {
        if Given(f.referenceSchema) {
          var target := registry.Get(f.referenceSchema.value);
          if target.Some? {
            if !v.VObj? {
              return Err("AttributeError: '" + PyTypeName(v) + "' object has no attribute 'keys'");
            }
            var rep := Validate(v.entries, target.value);
            if rep.Err? {
              return Err(rep.error);
            }
            if !rep.value.valid && rep.value.errors != [] {
              return Ok(Some(rep.value.errors[0]));
            }
          }
        }
        return Ok(None);
      }
      return Ok(None);
    }

    /** The array branch of `_validate_type`: the first error of the first item that has one. */
    method ValidateItems(v: Value, f: Field) returns (r: Result<Option<Issue>>)
      requires v.VList? && f.itemSchema.Some?
      ensures r == CheckItems(v, f, registry.schemas, env, 0)
      decreases v, 1, 0
    {
      var i := 0;
      while i < |v.items|
        invariant 0 <= i <= |v.items|
        invariant CheckItems(v, f, registry.schemas, env, i) == CheckItems(v, f, registry.schemas, env, 0)
      {
        var errs := ValidateField(v.items[i], ItemField(f, i));
        if errs.Err? {
          return Err(errs.error);
        }
        if errs.value != [] {
          return Ok(Some(errs.value[0]));
        }
        i := i + 1;
      }
      return Ok(None);
    }
  }
}
