// Building data instances from registered schemas: the caller's data, the
// defaults the schema declares for what is missing, then validation.
module DataFactory {
  import opened Wrappers
  import opened Values
  import opened DataSchema
  import opened DataValidator

  /**
   * `_get_default_value`: the declared default, or else a value of the
   * field's type; `now` is the ISO rendering of the current time.
   */
  function DefaultValue(f: Field, now: string): (r: Value)
    ensures f.default != VNull ==> r == f.default
    ensures f.default == VNull && f.fieldType in {Object, Array} ==> r.VObj? || r.VList?
  {
    if f.default != VNull then f.default
    else match f.fieldType
      case String => VStr("")
      case Integer => VInt(0)
      case Float => VFloat(0.0)
      case Boolean => VBool(false)
      case Array => VList([])
      case Object => VObj([])
      case DateTime => VStr(now)
      case Enum => if HasEnum(f) && |f.enumValues.value| > 0 then f.enumValues.value[0] else VNull
      case _ => VNull
  }

  /** The defaults step of `create` over the fields, in order: a field the instance lacks and that declares a default gets it. */
  function FillDefaults(inst: Dict, fs: seq<Field>, now: string): Dict
  {
    if fs == [] then inst
    else
      var acc := FillDefaults(inst, fs[..|fs| - 1], now);
      var f := fs[|fs| - 1];
      if !Has(acc, f.name) && f.default != VNull then Put(acc, f.name, DefaultValue(f, now)) else acc
  }

  /** The instance before validation: the caller's data, then the defaults when asked for. */
  function Instance(s: Schema, data: Dict, fillDefaults: bool, now: string): Dict
  {
    var inst := if data != [] then Update([], data) else [];
    if fillDefaults then FillDefaults(inst, s.fields, now) else inst
  }

  /**
   * `create`: an unknown schema is refused; otherwise the instance, refused
   * when validation is asked for and finds errors, or raises.
   */
  function Created(schemas: map<string, Schema>, schemaId: string, data: Dict, validate: bool,
                   fillDefaults: bool, now: string, refs: map<string, Schema>, env: Env,
                   describe: seq<Issue> -> string): (r: Result<Dict>)
  {
    if schemaId !in schemas then Err("Schema " + schemaId + " not found")
    else
      var s := schemas[schemaId];
      var inst := Instance(s, data, fillDefaults, now);
      if !validate then Ok(inst)
      else
        var rep :- Check(inst, s, refs, env);
        if !rep.valid then Err("Validation failed: " + describe(rep.errors)) else Ok(inst)
  }

  // ----- Properties -----

  /** A value already in the instance is never replaced by a default. */
  lemma {:induction false} FillKeeps(inst: Dict, fs: seq<Field>, now: string, k: string)
    requires Has(inst, k)
    ensures Get(FillDefaults(inst, fs, now), k) == Get(inst, k)
  {
    if fs != [] {
      FillKeeps(inst, fs[..|fs| - 1], now, k);
    }
  }

  /** After filling, a key is present exactly when the instance had it or some field declares a default for it. */
  lemma {:induction false} FillHas(inst: Dict, fs: seq<Field>, now: string, k: string)
    ensures Has(FillDefaults(inst, fs, now), k) <==>
      Has(inst, k) || exists i :: 0 <= i < |fs| && fs[i].name == k && fs[i].default != VNull
  {
    if fs != [] {
      var n := |fs| - 1;
      FillHas(inst, fs[..n], now, k);
      FillHasStep(inst, fs, now, k);
      DeclaresLast(fs, fs[..n], k);
    }
  }

  /** Some field declares a default for `k` exactly when an earlier one does or the last one does. */
  lemma DeclaresLast(fs: seq<Field>, init: seq<Field>, k: string)
    requires fs != [] && init == fs[..|fs| - 1]
    ensures (exists i :: 0 <= i < |fs| && fs[i].name == k && fs[i].default != VNull) <==>
      (exists i :: 0 <= i < |init| && init[i].name == k && init[i].default != VNull) ||
      (fs[|fs| - 1].name == k && fs[|fs| - 1].default != VNull)
  {
    if exists i :: 0 <= i < |fs| && fs[i].name == k && fs[i].default != VNull {
      var i :| 0 <= i < |fs| && fs[i].name == k && fs[i].default != VNull;
      if i < |init| {
        assert init[i] == fs[i];
      }
    }
    if exists i :: 0 <= i < |init| && init[i].name == k && init[i].default != VNull {
      var i :| 0 <= i < |init| && init[i].name == k && init[i].default != VNull;
      assert fs[i] == init[i];
    }
  }

  /** The last field adds its name when it declares a default. */
  lemma FillHasStep(inst: Dict, fs: seq<Field>, now: string, k: string)
    requires fs != []
    ensures Has(FillDefaults(inst, fs, now), k) <==>
      Has(FillDefaults(inst, fs[..|fs| - 1], now), k) || (fs[|fs| - 1].name == k && fs[|fs| - 1].default != VNull)
  {
  }

  /** A key the instance lacks takes the default of the first field of that name that declares one. */
  lemma {:induction false} FillFirstDefault(inst: Dict, fs: seq<Field>, now: string, j: nat)
    requires j < |fs| && !Has(inst, fs[j].name) && fs[j].default != VNull
    requires forall i :: 0 <= i < j && fs[i].name == fs[j].name ==> fs[i].default == VNull
    ensures Get(FillDefaults(inst, fs, now), fs[j].name) == Some(fs[j].default)
  {
    var n := |fs| - 1;
    var k := fs[j].name;
    if j == n {
      FillHas(inst, fs[..n], now, k);
      forall i | 0 <= i < n ensures !(fs[..n][i].name == k && fs[..n][i].default != VNull) {
        assert fs[..n][i] == fs[i];
      }
    } else {
      assert fs[..n][j] == fs[j];
      FillFirstDefault(inst, fs[..n], now, j);
    }
  }

  /** Without data the instance is empty before the defaults; with data, it reads as the data. */
  lemma InstanceStartsFromData(data: Dict, k: string)
    requires WellFormed(data)
    ensures Get(if data != [] then Update([], data) else [], k) == Get(data, k)
  {
    if data != [] {
      UpdateGet([], data, k);
    }
  }

  /** Every value the caller supplied is in the created instance, unchanged. */
  lemma CreatedKeepsData(schemas: map<string, Schema>, schemaId: string, data: Dict, validate: bool,
                         fillDefaults: bool, now: string, refs: map<string, Schema>, env: Env,
                         describe: seq<Issue> -> string, k: string)
    requires WellFormed(data) && Has(data, k)
    requires Created(schemas, schemaId, data, validate, fillDefaults, now, refs, env, describe).Ok?
    ensures Get(Created(schemas, schemaId, data, validate, fillDefaults, now, refs, env, describe).value, k)
      == Get(data, k)
  {
    var s := schemas[schemaId];
    var inst := if data != [] then Update([], data) else [];
    InstanceStartsFromData(data, k);
    if fillDefaults {
      FillKeeps(inst, s.fields, now, k);
    }
  }

  /** With defaults filled, every field that declares a default is present in the created instance. */
  lemma CreatedHasDefaults(schemas: map<string, Schema>, schemaId: string, data: Dict, validate: bool,
                           now: string, refs: map<string, Schema>, env: Env,
                           describe: seq<Issue> -> string, i: nat)
    requires Created(schemas, schemaId, data, validate, true, now, refs, env, describe).Ok?
    requires i < |schemas[schemaId].fields| && schemas[schemaId].fields[i].default != VNull
    ensures Has(Created(schemas, schemaId, data, validate, true, now, refs, env, describe).value,
                schemas[schemaId].fields[i].name)
  {
    var s := schemas[schemaId];
    FillHas(if data != [] then Update([], data) else [], s.fields, now, s.fields[i].name);
  }

  /** A validated instance is one the validator accepts. */
  lemma CreatedIsValid(schemas: map<string, Schema>, schemaId: string, data: Dict, fillDefaults: bool,
                       now: string, refs: map<string, Schema>, env: Env, describe: seq<Issue> -> string)
    requires Created(schemas, schemaId, data, true, fillDefaults, now, refs, env, describe).Ok?
    ensures var inst := Created(schemas, schemaId, data, true, fillDefaults, now, refs, env, describe).value;
      schemaId in schemas && Check(inst, schemas[schemaId], refs, env).Ok? &&
      Check(inst, schemas[schemaId], refs, env).value.valid
  {
  }

  // ----- The factory and the builder -----

  /** `DataFactory`: the registry schemas are taken from and the validator it checks with. */
  class Factory {
    const registry: Registry
    const validator: Validator
    /** How `str()` renders a list of validation errors in the failure message. */
    const describe: seq<Issue> -> string

    constructor (registry: Registry, validator: Validator, describe: seq<Issue> -> string)
      ensures this.registry == registry && this.validator == validator && this.describe == describe
    {
      this.registry := registry;
      this.validator := validator;
      this.describe := describe;
    }

    /** `create`; `now` is the reading of the clock a datetime default would take. */
    method Create(schemaId: string, data: Dict, validate: bool, fillDefaults: bool, now: string)
      returns (r: Result<Dict>)
      ensures r == Created(registry.schemas, schemaId, data, validate, fillDefaults, now,
                           validator.registry.schemas, validator.env, describe)
    {
      var schema := registry.Get(schemaId);
      if schema.None? {
        return Err("Schema " + schemaId + " not found");
      }
      var s := schema.value;
      var instance: Dict := [];
      if data != [] {
        instance := Update(instance, data);
      }
      if fillDefaults {
        instance := Fill(instance, s.fields, now);
      }
      if validate {
        var result := validator.Validate(instance, s);
        if result.Err? {
          return Err(result.error);
        }
        if !result.value.valid {
          return Err("Validation failed: " + describe(result.value.errors));
        }
      }
      return Ok(instance);
    }

    /** The fill loop of `create`: each field in order adds its default when the instance lacks its key. */
    method Fill(inst: Dict, fields: seq<Field>, now: string) returns (filled: Dict)
      ensures filled == FillDefaults(inst, fields, now)
    {
      filled := inst;
      var i := 0;
      while i < |fields|
        invariant 0 <= i <= |fields|
        invariant filled == FillDefaults(inst, fields[..i], now)
      {
        Seqs.PrefixOfPrefix(fields, i);
        var f := fields[i];
        if !Has(filled, f.name) && f.default != VNull {
          filled := Put(filled, f.name, DefaultValue(f, now));
        }
        i := i + 1;
      }
      Seqs.FullPrefix(fields);
    }
  }

  /** `DataBuilder`: field values gathered one by one, then handed to the factory. */
  class Builder {
    const schemaId: string
    const factory: Factory
    var data: Dict

    constructor (schemaId: string, factory: Factory)
      ensures this.schemaId == schemaId && this.factory == factory && data == []
    {
      this.schemaId := schemaId;
      this.factory := factory;
      data := [];
    }

    /** `set`: the field now holds `value`; every other field is as it was. */
    method Set(field: string, value: Value)
      modifies this
      ensures data == Put(old(data), field, value)
      ensures Get(data, field) == Some(value)
      ensures forall k :: k != field ==> Get(data, k) == Get(old(data), k)
    {
      data := Put(data, field, value);
    }

    /** `set_many`: the given values overwrite, every other field is as it was. */
    method SetMany(values: Dict)
      requires WellFormed(values)
      modifies this
      ensures data == Update(old(data), values)
      ensures forall k :: Get(data, k) == if Has(values, k) then Get(values, k) else Get(old(data), k)
    {
      forall k ensures Get(Update(data, values), k) == if Has(values, k) then Get(values, k) else Get(data, k) {
        UpdateGet(data, values, k);
      }
      data := Update(data, values);
    }

    /** `build`: the factory's `create` on the gathered data. */
    method Build(validate: bool, fillDefaults: bool, now: string) returns (r: Result<Dict>)
      ensures r == Created(factory.registry.schemas, schemaId, data, validate, fillDefaults, now,
                           factory.validator.registry.schemas, factory.validator.env, factory.describe)
    {
      r := factory.Create(schemaId, data, validate, fillDefaults, now);
    }
  }
}
