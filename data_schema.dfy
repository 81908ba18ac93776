// Declarative data schemas: field definitions, their dict form and its
// reading back, the JSON Schema (draft-07) rendering, and the registry of
// schemas by id.
module DataSchema {
  import opened Wrappers
  import opened Seqs
  import opened Index
  import opened Listing
  import opened Values
  import Sorting
  import Text

  datatype SchemaType =
    | Object | Array | String | Integer | Float | Boolean | DateTime | Enum | Reference | Union | Any

  /** The enum's string value. */
  function TypeName(t: SchemaType): string
  {
    match t
    case Object => "object"
    case Array => "array"
    case String => "string"
    case Integer => "integer"
    case Float => "float"
    case Boolean => "boolean"
    case DateTime => "datetime"
    case Enum => "enum"
    case Reference => "reference"
    case Union => "union"
    case Any => "any"
  }

  /** `SchemaType(s)`: the member whose value is `s`; any other string raises ValueError. */
  function ParseType(s: string): (r: Result<SchemaType>)
    ensures forall t :: r == Ok(t) <==> TypeName(t) == s
    ensures r.Err? <==> forall t :: TypeName(t) != s
  {
    if s == "object" then Ok(Object)
    else if s == "array" then Ok(Array)
    else if s == "string" then Ok(String)
    else if s == "integer" then Ok(Integer)
    else if s == "float" then Ok(Float)
    else if s == "boolean" then Ok(Boolean)
    else if s == "datetime" then Ok(DateTime)
    else if s == "enum" then Ok(Enum)
    else if s == "reference" then Ok(Reference)
    else if s == "union" then Ok(Union)
    else if s == "any" then Ok(Any)
    else Err("'" + s + "' is not a valid SchemaType")
  }

  /**
   * A field definition. `default` is VNull for None; the optional transform
   * callable is not part of the model.
   */
  datatype Field = Field(
    name: string,
    fieldType: SchemaType,
    description: Option<string>,
    required: bool,
    default: Value,
    rules: Dict,
    enumValues: Option<seq<Value>>,
    referenceSchema: Option<string>,
    unionTypes: Option<seq<SchemaType>>,
    nested: Option<Schema>,
    itemSchema: Option<Schema>)

  /** A schema; timestamps are integer instants. */
  datatype Schema = Schema(
    schemaId: string,
    name: string,
    description: Option<string>,
    version: string,
    fields: seq<Field>,
    metadata: Dict,
    createdAt: int,
    updatedAt: int)

  /** `FieldDefinition(name=n, field_type=t)`: every other attribute at its default. */
  function Bare(n: string, t: SchemaType): Field
  {
    Field(n, t, None, true, VNull, [], None, None, None, None, None)
  }

  /** A one-entry dict when the condition holds, else nothing. */
  function Entry(present: bool, k: string, v: Value): Dict
  {
    if present then [(k, v)] else []
  }

  predicate Given(o: Option<string>)
  {
    o.Some? && o.value != ""
  }

  // ---------------------------------------------------------------------
  // The dict form (`to_dict`)

  /** The names of the required fields, in field order. */
  function RequiredNames(fs: seq<Field>): seq<string>
  {
    if fs == [] then []
    else RequiredNames(fs[..|fs| - 1]) + (if fs[|fs| - 1].required then [fs[|fs| - 1].name] else [])
  }

  function FieldToDict(f: Field): Dict
    decreases f, 2
  {
    FieldHead(f) + FieldExtras(f) + FieldChildren(f)
  }

  function FieldHead(f: Field): Dict
  {
    [("name", VStr(f.name)), ("type", VStr(TypeName(f.fieldType))), ("required", VBool(f.required))]
  }

  /** The optional attributes, each emitted only when it is truthy (the default: when it is not None). */
  function FieldExtras(f: Field): Dict
  {
    DescribingEntries(f) + ShapingEntries(f)
  }

  function DescribingEntries(f: Field): Dict
  {
    Entry(Given(f.description), "description", VStr(OptionOr(f.description, "")))
    + Entry(f.default != VNull, "default", f.default)
    + Entry(f.rules != [], "validation", VObj(f.rules))
  }

  function ShapingEntries(f: Field): Dict
  {
    Entry(HasEnum(f), "enum", VList(OptionOr(f.enumValues, [])))
    + Entry(Given(f.referenceSchema), "$ref", VStr(OptionOr(f.referenceSchema, "")))
    + Entry(HasUnion(f), "union", Strs(Map(TypeName, OptionOr(f.unionTypes, []))))
  }

  predicate HasEnum(f: Field)
  {
    f.enumValues.Some? && f.enumValues.value != []
  }

  predicate HasUnion(f: Field)
  {
    f.unionTypes.Some? && f.unionTypes.value != []
  }

  /** The nested schemas, rendered in their own dict form. */
  function FieldChildren(f: Field): Dict
    decreases f, 1
  {
    (if f.nested.Some? then [("properties", VObj(SchemaToDict(f.nested.value)))] else [])
    + (if f.itemSchema.Some? then [("items", VObj(SchemaToDict(f.itemSchema.value)))] else [])
  }

  /** The `(name, field dict)` pairs of the first `n` fields. */
  function FieldEntries(s: Schema, n: nat): (r: Dict)
    requires n <= |s.fields|
    ensures |r| == n
    ensures forall i :: 0 <= i < n ==> r[i].0 == s.fields[i].name
    decreases s, 0, n
  {
    if n == 0 then [] else FieldEntries(s, n - 1) + [FieldEntry(s.fields[n - 1])]
  }

  /** The `(name, field dict)` pair of one field. */
  function FieldEntry(f: Field): (e: (string, Value))
    ensures e.0 == f.name
    decreases f, 3
  {
    (f.name, VObj(FieldToDict(f)))
  }

  function SchemaToDict(s: Schema): Dict
    decreases s, 3
  {
    SchemaHead(s) + SchemaBody(s) + SchemaTail(s)
  }

  function SchemaHead(s: Schema): Dict
  {
    [("schema_id", VStr(s.schemaId)), ("name", VStr(s.name)), ("description", OptValue(s.description)),
     ("version", VStr(s.version)), ("type", VStr("object"))]
  }

  function SchemaBody(s: Schema): Dict
    decreases s, 2
  {
    [("properties", VObj(PutAll(FieldEntries(s, |s.fields|)))), ("required", Strs(RequiredNames(s.fields)))]
  }

  function SchemaTail(s: Schema): Dict
  {
    [("metadata", VObj(s.metadata)), ("created_at", VInt(s.createdAt)), ("updated_at", VInt(s.updatedAt))]
  }

  /** Lookups in a schema's dict form: the header keys. */
  lemma SchemaHeaderGet(s: Schema, k: string)
    requires k in {"schema_id", "name", "description", "version"}
    ensures Get(SchemaToDict(s), k) ==
      if k == "schema_id" then Some(VStr(s.schemaId))
      else if k == "name" then Some(VStr(s.name))
      else if k == "description" then Some(OptValue(s.description))
      else Some(VStr(s.version))
  {
    var h, b, t := SchemaHead(s), SchemaBody(s), SchemaTail(s);
    assert SchemaToDict(s) == h + (b + t);
    GetAppend(h, b + t, k);
    if k == "schema_id" { GetAt(h, 0); }
    else if k == "name" { GetAt(h, 1); }
    else if k == "description" { GetAt(h, 2); }
    else { GetAt(h, 3); }
  }

  /** The alternative spellings "$id" and "title" are not in a schema's dict form. */
  lemma SchemaAltKeysAbsent(s: Schema, k: string)
    requires k in {"$id", "title"}
    ensures Get(SchemaToDict(s), k) == None
  {
    var h, b, t := SchemaHead(s), SchemaBody(s), SchemaTail(s);
    GetAppend(h + b, t, k);
    GetAppend(h, b, k);
    HeadAltKeysAbsent(s, k);
    BodyAltKeysAbsent(s, k);
    TailAltKeysAbsent(s, k);
  }

  /** Neither alternative spelling is a header, field-derived or trailing key. */
  lemma HeadAltKeysAbsent(s: Schema, k: string)
    requires k in {"$id", "title"}
    ensures Get(SchemaHead(s), k) == None
  {
    GetAbsent(SchemaHead(s), k);
  }

  lemma BodyAltKeysAbsent(s: Schema, k: string)
    requires k in {"$id", "title"}
    ensures Get(SchemaBody(s), k) == None
  {
    GetAbsent(SchemaBody(s), k);
  }

  lemma TailAltKeysAbsent(s: Schema, k: string)
    requires k in {"$id", "title"}
    ensures Get(SchemaTail(s), k) == None
  {
    GetAbsent(SchemaTail(s), k);
  }

  /** Lookups in a schema's dict form: the field-derived keys and the metadata. */
  lemma SchemaBodyGet(s: Schema, k: string)
    requires k in {"properties", "required", "metadata"}
    ensures Get(SchemaToDict(s), k) ==
      if k == "properties" then Some(VObj(PutAll(FieldEntries(s, |s.fields|))))
      else if k == "required" then Some(Strs(RequiredNames(s.fields)))
      else Some(VObj(s.metadata))
  {
    var h, b, t := SchemaHead(s), SchemaBody(s), SchemaTail(s);
    GetAppend(h + b, t, k);
    GetAppend(h, b, k);
    GetAbsent(h, k);
    if k == "properties" { GetAt(b, 0); }
    else if k == "required" { GetAt(b, 1); }
    else {
      GetAbsent(b, k);
      GetAt(t, 0);
    }
  }

  predicate IsRequired(f: Field)
  {
    f.required
  }

  function NameOf(f: Field): string
  {
    f.name
  }

  lemma {:induction false} FilterSnoc(fs: seq<Field>, f: Field)
    ensures Sorting.Filter(fs + [f], IsRequired) == Sorting.Filter(fs, IsRequired) + (if f.required then [f] else [])
  {
    if fs != [] {
      assert (fs + [f])[1..] == fs[1..] + [f];
      FilterSnoc(fs[1..], f);
    }
  }

  /**
   * The "required" list is the names of the required fields in field order:
   * the names of `filter(lambda f: f.required, fields)`.
   */
  lemma {:induction false} RequiredNamesInOrder(fs: seq<Field>)
    ensures RequiredNames(fs) == Map(NameOf, Sorting.Filter(fs, IsRequired))
  {
    if fs != [] {
      var n := |fs| - 1;
      RequiredNamesInOrder(fs[..n]);
      assert fs == fs[..n] + [fs[n]];
      FilterSnoc(fs[..n], fs[n]);
    }
  }

  /** A name is listed as required exactly when some field of that name is required. */
  lemma {:induction false} RequiredNamesExact(fs: seq<Field>, n: string)
    ensures n in RequiredNames(fs) <==> exists i :: 0 <= i < |fs| && fs[i].name == n && fs[i].required
  {
    if fs != [] {
      var m := |fs| - 1;
      RequiredNamesExact(fs[..m], n);
      if exists i :: 0 <= i < |fs| && fs[i].name == n && fs[i].required {
        var i :| 0 <= i < |fs| && fs[i].name == n && fs[i].required;
        if i < m {
          assert fs[..m][i] == fs[i];
        }
      }
      if exists i :: 0 <= i < m && fs[..m][i].name == n && fs[..m][i].required {
        var i :| 0 <= i < m && fs[..m][i].name == n && fs[..m][i].required;
        assert fs[i] == fs[..m][i];
      }
    }
  }

  // ---------------------------------------------------------------------
  // The JSON Schema form (`to_json_schema`)

  /** The `type` keyword of a scalar field: the type's own name, except float and the string-shaped types. */
  function JsonTypeName(t: SchemaType): string
  {
    if t == Float then "number"
    else if t == DateTime || t == Enum then "string"
    else TypeName(t)
  }

  /** The property a bare field of type `t` renders to; a bare union has no member list to iterate. */
  function BareProp(t: SchemaType): Result<Dict>
  {
    match t
    case Object => Ok([("type", VStr("object"))])
    case Array => Ok([("type", VStr("array")), ("items", VObj([("type", VStr("string"))]))])
    case String => Ok([("type", VStr("string"))])
    case Integer => Ok([("type", VStr("integer"))])
    case Float => Ok([("type", VStr("number"))])
    case Boolean => Ok([("type", VStr("boolean"))])
    case DateTime => Ok([("type", VStr("string")), ("format", VStr("date-time"))])
    case Enum => Ok([("type", VStr("string")), ("enum", VNull)])
    case Reference => Ok([("$ref", VStr("#/definitions/None"))])
    case Union => Err("TypeError: 'NoneType' object is not iterable")
    case Any => Ok([])
  }

  /** The `oneOf` members of a union, in order; the first failure aborts. */
  function BareProps(ts: seq<SchemaType>): Result<seq<Value>>
  {
    if ts == [] then Ok([])
    else
      var init :- BareProps(ts[..|ts| - 1]);
      var p :- BareProp(ts[|ts| - 1]);
      Ok(init + [VObj(p)])
  }

  /** The type part of a field's property, before rules, default and description are added. */
  function TypeProp(f: Field): Result<Dict>
    decreases f, 1
  {
    match f.fieldType
    case Object => if f.nested.Some? then JsonSchema(f.nested.value) else Ok([("type", VStr("object"))])
    case Array =>
      var items :- if f.itemSchema.Some? then JsonSchema(f.itemSchema.value) else Ok([("type", VStr("string"))]);
      Ok([("type", VStr("array")), ("items", VObj(items))])
    case String => Ok([("type", VStr("string"))])
    case Integer => Ok([("type", VStr("integer"))])
    case Float => Ok([("type", VStr("number"))])
    case Boolean => Ok([("type", VStr("boolean"))])
    case DateTime => Ok([("type", VStr("string")), ("format", VStr("date-time"))])
    case Enum => Ok([("type", VStr("string")), ("enum", if f.enumValues.Some? then VList(f.enumValues.value) else VNull)])
    case Reference =>
      Ok([("$ref", VStr("#/definitions/" + if f.referenceSchema.Some? then f.referenceSchema.value else "None"))])
    case Union =>
      if f.unionTypes.None? then Err("TypeError: 'NoneType' object is not iterable")
      else
        var members :- BareProps(f.unionTypes.value);
        Ok([("oneOf", VList(members))])
    case Any => Ok([])
  }

  /**
   * `_field_to_json_schema_property`. Every branch of the rule loop stores the
   * rule under its own name, so the rules are copied over the type part as
   * they are; then the default and the description.
   */
  function FieldProp(f: Field): Result<Dict>
    decreases f, 2
  {
    var base :- TypeProp(f);
    var withRules := Update(base, f.rules);
    var withDefault := if f.default != VNull then Put(withRules, "default", f.default) else withRules;
    Ok(if Given(f.description) then Put(withDefault, "description", VStr(f.description.value)) else withDefault)
  }

  /** The `(name, property)` pairs of the first `n` fields; the first field that cannot be rendered aborts. */
  function JsonEntries(s: Schema, n: nat): (r: Result<Dict>)
    requires n <= |s.fields|
    ensures r.Ok? ==> |r.value| == n && forall i :: 0 <= i < n ==> r.value[i].0 == s.fields[i].name
    decreases s, 3, n
  {
    if n == 0 then Ok([])
    else
      var acc :- JsonEntries(s, n - 1);
      var p :- FieldProp(s.fields[n - 1]);
      Ok(acc + [(s.fields[n - 1].name, VObj(p))])
  }

  function JsonSchema(s: Schema): Result<Dict>
    decreases s, 4
  {
    var props :- JsonEntries(s, |s.fields|);
    Ok(JsonDocument(s, PutAll(props), RequiredNames(s.fields)))
  }

  /** The draft-07 document `to_json_schema` wraps around the properties and the required list. */
  function JsonDocument(s: Schema, props: Dict, required: seq<string>): Dict
  {
    [("$schema", VStr("http://json-schema.org/draft-07/schema#")), ("type", VStr("object")),
     ("title", VStr(s.name)), ("description", OptValue(s.description)),
     ("properties", VObj(props)), ("required", Strs(required))]
  }

  /** A union member is rendered as the bare field `FieldDefinition(name="", field_type=t)` would be. */
  lemma BarePropIsFieldProp(t: SchemaType)
    ensures BareProp(t) == FieldProp(Bare("", t))
  {
    assert "#/definitions/" + "None" == "#/definitions/None";
  }

  /**
   * Scalar types map to their JSON Schema keyword: float becomes "number",
   * datetime becomes "string" with format "date-time", enum becomes "string";
   * a rule of the same name would overwrite the keyword.
   */
  lemma ScalarTypeKeyword(f: Field)
    requires f.fieldType in {String, Integer, Float, Boolean, DateTime, Enum}
    requires !Has(f.rules, "type")
    ensures FieldProp(f).Ok?
    ensures Get(FieldProp(f).value, "type") == Some(VStr(JsonTypeName(f.fieldType)))
    ensures f.fieldType == DateTime && !Has(f.rules, "format") ==>
      Get(FieldProp(f).value, "format") == Some(VStr("date-time"))
  {
    assert TypeProp(f).Ok?;
    assert Get(TypeProp(f).value, "type") == Some(VStr(JsonTypeName(f.fieldType)));
    FieldPropKeeps(f, "type");
    if f.fieldType == DateTime && !Has(f.rules, "format") {
      assert Get(TypeProp(f).value, "format") == Some(VStr("date-time"));
      FieldPropKeeps(f, "format");
    }
  }

  /** A key of the type keywords that no rule overrides, other than "default" and "description", survives. */
  lemma FieldPropKeeps(f: Field, k: string)
    requires TypeProp(f).Ok? && !Has(f.rules, k) && k != "default" && k != "description"
    ensures FieldProp(f).Ok? && Get(FieldProp(f).value, k) == Get(TypeProp(f).value, k)
  {
    var base := TypeProp(f).value;
    var withRules := Update(base, f.rules);
    var withDefault := if f.default != VNull then Put(withRules, "default", f.default) else withRules;
    var r := if Given(f.description) then Put(withDefault, "description", VStr(f.description.value)) else withDefault;
    assert FieldProp(f) == Ok(r);
    UpdateKeeps(base, f.rules, k);
    assert Get(r, k) == Get(withRules, k);
  }

  /** A first failure stays the result of every longer prefix. */
  lemma {:induction false} JsonEntriesErrSticks(s: Schema, i: nat, n: nat)
    requires i < n <= |s.fields|
    requires JsonEntries(s, i).Ok? && FieldProp(s.fields[i]).Err?
    ensures JsonEntries(s, n) == Err(FieldProp(s.fields[i]).error)
    decreases n
  {
    if n - 1 > i {
      JsonEntriesErrSticks(s, i, n - 1);
    }
  }

  /** Each pair holds its field's rendering. */
  lemma {:induction false} JsonEntriesAt(s: Schema, n: nat, j: nat)
    requires j < n <= |s.fields| && JsonEntries(s, n).Ok?
    ensures FieldProp(s.fields[j]).Ok? && JsonEntries(s, n).value[j].1 == VObj(FieldProp(s.fields[j]).value)
    decreases n
  {
    if j < n - 1 {
      JsonEntriesAt(s, n - 1, j);
    }
  }

  /**
   * In the JSON Schema, each field name is a property holding the rendering
   * of the last field of that name, and no other key is a property.
   */
  lemma JsonSchemaProperties(s: Schema, k: string)
    requires JsonSchema(s).Ok?
    ensures Get(JsonSchema(s).value, "properties").Some?
    ensures var props := Get(JsonSchema(s).value, "properties").value;
      && props.VObj?
      && (Has(props.entries, k) <==> exists j :: 0 <= j < |s.fields| && s.fields[j].name == k)
      && forall j :: (0 <= j < |s.fields| && s.fields[j].name == k
                      && forall j' :: j < j' < |s.fields| ==> s.fields[j'].name != k) ==>
           FieldProp(s.fields[j]).Ok? && Get(props.entries, k) == Some(VObj(FieldProp(s.fields[j]).value))
  {
    JsonSchemaPropertiesGet(s);
    PropertiesFromEntries(s, k);
  }

  /** The properties dict built from the rendered entries, stated key by key. */
  lemma PropertiesFromEntries(s: Schema, k: string)
    requires JsonEntries(s, |s.fields|).Ok?
    ensures var props := PutAll(JsonEntries(s, |s.fields|).value);
      && (Has(props, k) <==> exists j :: 0 <= j < |s.fields| && s.fields[j].name == k)
      && forall j :: (0 <= j < |s.fields| && s.fields[j].name == k
                      && forall j' :: j < j' < |s.fields| ==> s.fields[j'].name != k) ==>
           FieldProp(s.fields[j]).Ok? && Get(props, k) == Some(VObj(FieldProp(s.fields[j]).value))
  {
    var es := JsonEntries(s, |s.fields|).value;
    PutAllHas(es, k);
    JsonEntriesKeys(s, k);
    forall j | 0 <= j < |s.fields| && s.fields[j].name == k && (forall j' :: j < j' < |s.fields| ==> s.fields[j'].name != k)
      ensures FieldProp(s.fields[j]).Ok? && Get(PutAll(es), k) == Some(VObj(FieldProp(s.fields[j]).value))
    {
      JsonEntriesAt(s, |s.fields|, j);
      PutAllLast(es, j);
    }
  }

  /** The JSON Schema's "properties" holds the rendered fields, a repeated name keeping its last rendering. */
  lemma JsonSchemaPropertiesGet(s: Schema)
    requires JsonSchema(s).Ok?
    ensures JsonEntries(s, |s.fields|).Ok?
    ensures Get(JsonSchema(s).value, "properties") == Some(VObj(PutAll(JsonEntries(s, |s.fields|).value)))
  {
    GetAt(JsonSchema(s).value, 4);
  }

  /** The rendered entries are keyed by the field names. */
  lemma JsonEntriesKeys(s: Schema, k: string)
    requires JsonEntries(s, |s.fields|).Ok?
    ensures k in Keys(JsonEntries(s, |s.fields|).value) <==> exists j :: 0 <= j < |s.fields| && s.fields[j].name == k
  {
    var es := JsonEntries(s, |s.fields|).value;
    if k in Keys(es) {
      var j :| 0 <= j < |es| && Keys(es)[j] == k;
      assert s.fields[j].name == k;
    }
    if exists j :: 0 <= j < |s.fields| && s.fields[j].name == k {
      var j :| 0 <= j < |s.fields| && s.fields[j].name == k;
      assert Keys(es)[j] == k;
    }
  }

  /** The JSON Schema's "required" list is the dict form's: the required names in field order. */
  lemma JsonRequiredIsDictRequired(s: Schema)
    requires JsonSchema(s).Ok?
    ensures Get(JsonSchema(s).value, "required") == Get(SchemaToDict(s), "required")
    ensures Get(SchemaToDict(s), "required") == Some(Strs(RequiredNames(s.fields)))
  {
    GetAt(JsonSchema(s).value, 5);
    SchemaBodyGet(s, "required");
  }

  /** One more field: its property joins the map, and its name the required list when it is required. */
  lemma JsonEntriesStep(s: Schema, i: nat)
    requires i < |s.fields| && JsonEntries(s, i).Ok? && FieldProp(s.fields[i]).Ok?
    ensures JsonEntries(s, i + 1).Ok?
    ensures PutAll(JsonEntries(s, i + 1).value)
         == Put(PutAll(JsonEntries(s, i).value), s.fields[i].name, VObj(FieldProp(s.fields[i]).value))
  {
    var acc := JsonEntries(s, i).value;
    var e := (s.fields[i].name, VObj(FieldProp(s.fields[i]).value));
    assert JsonEntries(s, i + 1) == Ok(acc + [e]);
    assert (acc + [e])[..|acc|] == acc;
  }

  /** One more field: its name joins the required list when it is required. */
  lemma RequiredNamesStep(fs: seq<Field>, i: nat)
    requires i < |fs|
    ensures RequiredNames(fs[..i + 1]) == RequiredNames(fs[..i]) + (if fs[i].required then [fs[i].name] else [])
  {
    PrefixOfPrefix(fs, i);
  }

  /** The loop of `to_json_schema`: properties and the required list filled field by field. */
  method ToJsonSchema(s: Schema) returns (r: Result<Dict>)
    ensures r == JsonSchema(s)
  {
    var props: Dict := [];
    var required: seq<string> := [];
    var i := 0;
    while i < |s.fields|
      invariant 0 <= i <= |s.fields|
      invariant JsonEntries(s, i).Ok? && props == PutAll(JsonEntries(s, i).value)
      invariant required == RequiredNames(s.fields[..i])
    {
      var next := AddProperty(s, i, props, required);
      if next.Err? {
        return Err(next.error);
      }
      props, required := next.value.0, next.value.1;
      i := i + 1;
    }
    FullPrefix(s.fields);
    r := Ok(JsonDocument(s, props, required));
  }

  /** One pass of that loop: field `i`'s property is added and its name joins the required list when required. */
  method AddProperty(s: Schema, i: nat, props: Dict, required: seq<string>) returns (r: Result<(Dict, seq<string>)>)
    requires i < |s.fields|
    requires JsonEntries(s, i).Ok? && props == PutAll(JsonEntries(s, i).value)
    requires required == RequiredNames(s.fields[..i])
    ensures r.Err? ==> JsonEntries(s, |s.fields|) == Err(r.error)
    ensures r.Ok? ==> JsonEntries(s, i + 1).Ok? && r.value.0 == PutAll(JsonEntries(s, i + 1).value)
    ensures r.Ok? ==> r.value.1 == RequiredNames(s.fields[..i + 1])
  {
    var f := s.fields[i];
    var p := FieldProp(f);
    if p.Err? {
      JsonEntriesErrSticks(s, i, |s.fields|);
      return Err(p.error);
    }
    JsonEntriesStep(s, i);
    RequiredNamesStep(s.fields, i);
    var names := if f.required then required + [f.name] else required;
    return Ok((Put(props, f.name, VObj(p.value)), names));
  }

  // ---------------------------------------------------------------------
  // Reading the dict form back (`from_dict`)

  /** `_field_from_dict`; attribute values of the wrong type are refused. */
  function FieldFromDict(n: string, data: Value): (r: Result<Field>)
    ensures r.Ok? ==> r.value.name == n && data.VObj?
    ensures data.VObj? && !Has(data.entries, "type") && r.Ok? ==> r.value.fieldType == String
    ensures data.VObj? && !Has(data.entries, "required") && r.Ok? ==> r.value.required
    ensures r.Ok? ==> r.value.unionTypes.None? && r.value.nested.None? && r.value.itemSchema.None?
  {
    var fd :- AsDict(data, "field " + n);
    var kind :- FieldKind(fd);
    var limits :- FieldLimits(fd);
    Ok(Field(n, kind.0, kind.1, kind.2, GetV(fd, "default"), limits.0, limits.1, limits.2, None, None, None))
  }

  /** The type (default "string"), the description and the required flag (default true). */
  function FieldKind(fd: Dict): Result<(SchemaType, Option<string>, bool)>
  {
    var typeName :- AsStr(GetOr(fd, "type", VStr("string")), "type");
    var t :- ParseType(typeName);
    var description :- OptStr(GetV(fd, "description"), "description");
    var required :- AsBool(GetOr(fd, "required", VBool(true)), "required");
    Ok((t, description, required))
  }

  /** The validation rules (default {}), the enum values and the referenced schema id. */
  function FieldLimits(fd: Dict): Result<(Dict, Option<seq<Value>>, Option<string>)>
  {
    var rules :- AsDict(GetOr(fd, "validation", VObj([])), "validation");
    var enumValue := GetV(fd, "enum");
    var enumValues :- if enumValue == VNull then Ok(None)
                      else if enumValue.VList? then Ok(Some(enumValue.items))
                      else Err("enum must be a list");
    var reference :- OptStr(GetV(fd, "$ref"), "$ref");
    Ok((rules, enumValues, reference))
  }

  /** The fields of a "properties" dict, in its order; the first bad field aborts. */
  function FieldsFromDict(props: Dict): Result<seq<Field>>
  {
    if props == [] then Ok([])
    else
      var init :- FieldsFromDict(props[..|props| - 1]);
      var f :- FieldFromDict(props[|props| - 1].0, props[|props| - 1].1);
      Ok(init + [f])
  }

  /** `DataSchema.from_dict`; both timestamps are the current instant `now`. */
  function FromDict(data: Dict, now: int): (r: Result<Schema>)
    ensures r.Ok? ==> r.value.createdAt == now && r.value.updatedAt == now
    ensures r.Ok? && !Has(data, "properties") ==> r.value.fields == []
  {
    var props :- AsDict(GetOr(data, "properties", VObj([])), "properties");
    var fields :- FieldsFromDict(props);
    var h :- SchemaHeader(data);
    Ok(Schema(h.0, h.1, h.2, h.3, fields, h.4, now, now))
  }

  /**
   * The id (from "schema_id", else "$id", else ""), the name (from "name",
   * else "title", else ""), the description, the version (default "1.0.0")
   * and the metadata (default {}).
   */
  function SchemaHeader(data: Dict): (r: Result<(string, string, Option<string>, string, Dict)>)
    ensures r.Ok? && !Has(data, "schema_id") && Has(data, "$id") ==> VStr(r.value.0) == GetV(data, "$id")
    ensures r.Ok? && !Has(data, "schema_id") && !Has(data, "$id") ==> r.value.0 == ""
    ensures r.Ok? && !Has(data, "name") && Has(data, "title") ==> VStr(r.value.1) == GetV(data, "title")
    ensures r.Ok? && !Has(data, "version") ==> r.value.3 == "1.0.0"
    ensures r.Ok? && !Has(data, "metadata") ==> r.value.4 == []
  {
    var schemaId :- AsStr(Fallback(data, "schema_id", "$id", VStr("")), "schema_id");
    var name :- AsStr(Fallback(data, "name", "title", VStr("")), "name");
    var description :- OptStr(GetV(data, "description"), "description");
    var version :- StrField(data, "version", "1.0.0");
    var metadata :- AsDict(GetOr(data, "metadata", VObj([])), "metadata");
    Ok((schemaId, name, description, version, metadata))
  }

  /** A field whose dict form reads back as itself: no attribute that `to_dict` drops or `from_dict` ignores. */
  predicate PlainField(f: Field)
  {
    && f.unionTypes.None? && f.nested.None? && f.itemSchema.None?
    && f.description != Some("") && f.enumValues != Some([]) && f.referenceSchema != Some("")
  }

  predicate Loadable(s: Schema)
  {
    && NoDup(Map(NameOf, s.fields))
    && forall i :: 0 <= i < |s.fields| ==> PlainField(s.fields[i])
  }

  /** Looking up in three optional entries laid end to end. */
  lemma EntriesGet(p1: bool, k1: string, v1: Value, p2: bool, k2: string, v2: Value,
                   p3: bool, k3: string, v3: Value, k: string)
    ensures Get(Entry(p1, k1, v1) + Entry(p2, k2, v2) + Entry(p3, k3, v3), k) ==
      if p1 && k == k1 then Some(v1) else if p2 && k == k2 then Some(v2) else if p3 && k == k3 then Some(v3) else None
  {
    var e1, e2, e3 := Entry(p1, k1, v1), Entry(p2, k2, v2), Entry(p3, k3, v3);
    GetAppend(e1 + e2, e3, k);
    GetAppend(e1, e2, k);
    GetSingle(k1, v1);
    GetSingle(k2, v2);
    GetSingle(k3, v3);
  }

  /** Lookups in the optional part of a plain field's dict. */
  lemma FieldExtrasGet(f: Field, k: string)
    requires PlainField(f)
    requires k in {"description", "default", "validation", "enum", "$ref"}
    ensures Get(FieldExtras(f), k) ==
      if k == "description" then (if Given(f.description) then Some(VStr(f.description.value)) else None)
      else if k == "default" then (if f.default != VNull then Some(f.default) else None)
      else if k == "validation" then (if f.rules != [] then Some(VObj(f.rules)) else None)
      else if k == "enum" then (if f.enumValues.Some? then Some(VList(f.enumValues.value)) else None)
      else if Given(f.referenceSchema) then Some(VStr(f.referenceSchema.value)) else None
  {
    GetAppend(DescribingEntries(f), ShapingEntries(f), k);
    EntriesGet(Given(f.description), "description", VStr(OptionOr(f.description, "")),
               f.default != VNull, "default", f.default,
               f.rules != [], "validation", VObj(f.rules), k);
    EntriesGet(HasEnum(f), "enum", VList(OptionOr(f.enumValues, [])),
               Given(f.referenceSchema), "$ref", VStr(OptionOr(f.referenceSchema, "")),
               HasUnion(f), "union", Strs(Map(TypeName, OptionOr(f.unionTypes, []))), k);
  }

  /** Lookups in a plain field's whole dict: the head first, then the optional part. */
  lemma FieldDictGet(f: Field, k: string)
    requires PlainField(f)
    requires k in {"type", "required", "description", "default", "validation", "enum", "$ref"}
    ensures Get(FieldToDict(f), k) ==
      if k == "type" then Some(VStr(TypeName(f.fieldType)))
      else if k == "required" then Some(VBool(f.required))
      else Get(FieldExtras(f), k)
  {
    PlainFieldDict(f);
    GetAppend(FieldHead(f), FieldExtras(f), k);
    FieldHeadGet(f, k);
  }

  /** A plain field has no children: its dict is the head and the optional part. */
  lemma PlainFieldDict(f: Field)
    requires PlainField(f)
    ensures FieldToDict(f) == FieldHead(f) + FieldExtras(f)
  {
    assert FieldChildren(f) == [];
  }

  /** Lookups in a field dict's head: the type and the required flag; the optional keys are not there. */
  lemma FieldHeadGet(f: Field, k: string)
    requires k in {"type", "required", "description", "default", "validation", "enum", "$ref"}
    ensures Get(FieldHead(f), k) ==
      if k == "type" then Some(VStr(TypeName(f.fieldType)))
      else if k == "required" then Some(VBool(f.required))
      else None
  {
    var h := FieldHead(f);
    if k == "type" {
      GetAt(h, 1);
    } else if k == "required" {
      GetAt(h, 2);
    } else {
      GetAbsent(h, k);
    }
  }

  lemma FieldKindRoundTrip(f: Field)
    requires PlainField(f)
    ensures FieldKind(FieldToDict(f)) == Ok((f.fieldType, f.description, f.required))
  {
    var d := FieldToDict(f);
    FieldDictGet(f, "type");
    FieldDictGet(f, "required");
    FieldDictGet(f, "description");
    FieldExtrasGet(f, "description");
    assert GetOr(d, "type", VStr("string")) == VStr(TypeName(f.fieldType));
    assert GetOr(d, "required", VBool(true)) == VBool(f.required);
    assert OptStr(GetV(d, "description"), "description") == Ok(f.description);
  }

  lemma FieldLimitsRoundTrip(f: Field)
    requires PlainField(f)
    ensures FieldLimits(FieldToDict(f)) == Ok((f.rules, f.enumValues, f.referenceSchema))
    ensures GetV(FieldToDict(f), "default") == f.default
  {
    var d := FieldToDict(f);
    FieldDictGet(f, "validation");
    FieldDictGet(f, "enum");
    FieldDictGet(f, "$ref");
    FieldDictGet(f, "default");
    FieldExtrasGet(f, "validation");
    FieldExtrasGet(f, "enum");
    FieldExtrasGet(f, "$ref");
    FieldExtrasGet(f, "default");
    assert GetOr(d, "validation", VObj([])) == VObj(f.rules);
  }

  /** A plain field's dict form reads back as the field. */
  lemma FieldRoundTrip(f: Field)
    requires PlainField(f)
    ensures FieldFromDict(f.name, VObj(FieldToDict(f))) == Ok(f)
  {
    FieldKindRoundTrip(f);
    FieldLimitsRoundTrip(f);
  }

  lemma {:induction false} FieldsRoundTrip(s: Schema, n: nat)
    requires Loadable(s) && n <= |s.fields|
    ensures FieldsFromDict(FieldEntries(s, n)) == Ok(s.fields[..n])
  {
    if n > 0 {
      FieldsRoundTrip(s, n - 1);
      FieldsRoundTripStep(s, n);
    }
  }

  /** The fields round trip extended by one plain field. */
  lemma FieldsRoundTripStep(s: Schema, n: nat)
    requires 0 < n <= |s.fields| && PlainField(s.fields[n - 1])
    requires FieldsFromDict(FieldEntries(s, n - 1)) == Ok(s.fields[..n - 1])
    ensures FieldsFromDict(FieldEntries(s, n)) == Ok(s.fields[..n])
  {
    var f := s.fields[n - 1];
    FieldsStep(FieldEntries(s, n - 1), s.fields[..n - 1], f);
    assert FieldEntries(s, n) == FieldEntries(s, n - 1) + [FieldEntry(f)];
    PrefixSnoc(s.fields, n);
  }

  /** One more plain field's entry reads back as one more field. */
  lemma FieldsStep(props: Dict, init: seq<Field>, f: Field)
    requires PlainField(f) && FieldsFromDict(props) == Ok(init)
    ensures FieldsFromDict(props + [FieldEntry(f)]) == Ok(init + [f])
  {
    FieldRoundTrip(f);
    FieldsFromDictSnoc(props, FieldEntry(f), init, f);
  }

  lemma FieldsFromDictSnoc(props: Dict, e: (string, Value), init: seq<Field>, f: Field)
    requires FieldsFromDict(props) == Ok(init) && FieldFromDict(e.0, e.1) == Ok(f)
    ensures FieldsFromDict(props + [e]) == Ok(init + [f])
  {
    assert (props + [e])[..|props|] == props;
  }

  /** With distinct field names the properties dict holds each field once, in field order. */
  lemma DistinctProperties(s: Schema)
    requires NoDup(Map(NameOf, s.fields))
    ensures PutAll(FieldEntries(s, |s.fields|)) == FieldEntries(s, |s.fields|)
  {
    var es := FieldEntries(s, |s.fields|);
    assert Keys(es) == Map(NameOf, s.fields);
    PutAllDistinct(es);
  }

  lemma HeaderRoundTrip(s: Schema)
    ensures SchemaHeader(SchemaToDict(s)) == Ok((s.schemaId, s.name, s.description, s.version, s.metadata))
  {
    SchemaHeaderGet(s, "schema_id");
    SchemaHeaderGet(s, "name");
    SchemaHeaderGet(s, "description");
    SchemaHeaderGet(s, "version");
    SchemaBodyGet(s, "metadata");
    SchemaAltKeysAbsent(s, "$id");
    SchemaAltKeysAbsent(s, "title");
  }

  /**
   * Round trip: a loadable schema's dict form reads back as the same schema,
   * except that both timestamps become the loading instant.
   */
  lemma ExportThenLoad(s: Schema, now: int)
    requires Loadable(s)
    ensures FromDict(SchemaToDict(s), now) == Ok(s.(createdAt := now, updatedAt := now))
  {
    PropertiesRoundTrip(s);
    HeaderRoundTrip(s);
  }

  /** The properties entry of a loadable schema's dict reads back as its fields. */
  lemma PropertiesRoundTrip(s: Schema)
    requires Loadable(s)
    ensures GetOr(SchemaToDict(s), "properties", VObj([])).VObj?
    ensures FieldsFromDict(GetOr(SchemaToDict(s), "properties", VObj([])).entries) == Ok(s.fields)
  {
    SchemaBodyGet(s, "properties");
    assert GetOr(SchemaToDict(s), "properties", VObj([])) == VObj(PutAll(FieldEntries(s, |s.fields|)));
    FieldsBack(s);
  }

  /** The properties of a loadable schema read back as its fields. */
  lemma FieldsBack(s: Schema)
    requires Loadable(s)
    ensures FieldsFromDict(PutAll(FieldEntries(s, |s.fields|))) == Ok(s.fields)
  {
    DistinctProperties(s);
    FieldsRoundTrip(s, |s.fields|);
    FullPrefix(s.fields);
  }

  // ---------------------------------------------------------------------
  // The registry

  /** Every schema sits under its own id; `order` is the dict's insertion order. */
  ghost predicate Consistent(schemas: map<string, Schema>, order: seq<string>)
  {
    && Ordered(order, schemas)
    && (forall id :: id in schemas ==> schemas[id].schemaId == id)
  }

  /** The search test: the lower-cased query in the lower-cased name, or in a non-empty description. */
  predicate Matches(s: Schema, query: string)
  {
    var q := Text.Lower(query);
    || Text.Contains(Text.Lower(s.name), q)
    || (Given(s.description) && Text.Contains(Text.Lower(s.description.value), q))
  }

  function MatchesFor(query: string): Schema -> bool
  {
    (s: Schema) => Matches(s, query)
  }

  function Everything(): Schema -> bool
  {
    (s: Schema) => true
  }

  /** `search` returns exactly the registered schemas that match. */
  lemma SearchExact(schemas: map<string, Schema>, order: seq<string>, query: string, s: Schema)
    requires Consistent(schemas, order)
    ensures s in Pick(schemas, order, MatchesFor(query)) <==> s in schemas.Values && Matches(s, query)
  {
    if s in schemas.Values && Matches(s, query) {
      PickComplete(schemas, order, MatchesFor(query), s.schemaId);
    }
  }

  /** `list` returns every registered schema. */
  lemma ListExact(schemas: map<string, Schema>, order: seq<string>, s: Schema)
    requires Consistent(schemas, order)
    ensures s in Pick(schemas, order, Everything()) <==> s in schemas.Values
  {
    if s in schemas.Values {
      PickComplete(schemas, order, Everything(), s.schemaId);
    }
  }

  class Registry {
    var schemas: map<string, Schema>
    var order: seq<string>

    ghost predicate Valid()
      reads this
    {
      Consistent(schemas, order)
    }

    constructor ()
      ensures Valid() && schemas == map[] && order == []
    {
      schemas, order := map[], [];
    }

    /** `register`: a known id is refused with nothing changed; otherwise the schema is stored and returned. */
    method Register(s: Schema) returns (r: Result<Schema>)
      requires Valid()
      modifies this
      ensures Valid()
      ensures old(s.schemaId in schemas) ==> r == Err("Schema " + s.schemaId + " already registered") && unchanged(this)
      ensures !old(s.schemaId in schemas) ==>
        r == Ok(s) && schemas == old(schemas)[s.schemaId := s] && order == old(order) + [s.schemaId]
    {
      if s.schemaId in schemas {
        return Err("Schema " + s.schemaId + " already registered");
      }
      OrderedAppend(order, schemas, s.schemaId, s);
      schemas, order := schemas[s.schemaId := s], order + [s.schemaId];
      r := Ok(s);
    }

    function Get(id: string): (r: Option<Schema>)
      reads this
      ensures r.Some? <==> id in schemas
      ensures r.Some? ==> r.value == schemas[id]
    {
      if id in schemas then Some(schemas[id]) else None
    }

    method List() returns (result: seq<Schema>)
      ensures result == Pick(schemas, order, Everything())
    {
      result := Collect(schemas, order, Everything());
    }

    /** `unregister`: true exactly when the id was registered, which it no longer is. */
    method Unregister(id: string) returns (removed: bool)
      requires Valid()
      modifies this
      ensures Valid()
      ensures removed == (id in old(schemas))
      ensures !removed ==> unchanged(this)
      ensures removed ==> schemas == old(schemas) - {id} && order == RemoveFirst(old(order), id)
    {
      if id !in schemas {
        return false;
      }
      OrderedRemove(order, schemas, id);
      schemas, order := schemas - {id}, RemoveFirst(order, id);
      return true;
    }

    method Search(query: string) returns (result: seq<Schema>)
      ensures result == Pick(schemas, order, MatchesFor(query))
    {
      result := Collect(schemas, order, MatchesFor(query));
    }
  }
}
