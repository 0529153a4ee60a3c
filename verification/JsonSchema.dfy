/** JSON values as the runtime holds them, and the validator for tool inputs. */
module JsonSchema {
  import opened Options

  function Pow2(n: nat): nat {
    if n == 0 then 1 else 2 * Pow2(n - 1)
  }

  /** Finite binary64 numbers in lowest terms: `d.0` times 2 to the power `d.1`. Negative zero is left out. */
  predicate IsDouble(d: (int, int)) {
    || d == (0, 0)
    || (&& d.0 % 2 == 1 && -0x20_0000_0000_0000 < d.0 < 0x20_0000_0000_0000
        && -1074 <= d.1 <= 1023
        && (d.1 > 971 ==> 0 - Pow2(1024 - d.1) < d.0 < Pow2(1024 - d.1)))
  }

  type Double = d: (int, int) | IsDouble(d) witness (0, 0)

  const ONE: Double := (1, 0)

  predicate IsIntegral(x: Double) {
    x.1 >= 0
  }

  /** Objects keep their keys in insertion order, as Python dicts do. */
  datatype Json =
    | Null
    | Bool(b: bool)
    | Int(n: int)
    | Float(x: Double)
    | Str(s: string)
    | Arr(items: seq<Json>)
    | Obj(fields: seq<(string, Json)>)

  predicate HasKey(j: Json, key: string) {
    j.Obj? && exists i :: 0 <= i < |j.fields| && j.fields[i].0 == key
  }

  function IndexOf(fields: seq<(string, Json)>, key: string): nat
    requires exists i :: 0 <= i < |fields| && fields[i].0 == key
    ensures IndexOf(fields, key) < |fields| && fields[IndexOf(fields, key)].0 == key
  {
    if fields[0].0 == key then 0 else 1 + IndexOf(fields[1..], key)
  }

  /** `j[key]` */
  function Field(j: Json, key: string): (v: Json)
    requires HasKey(j, key)
    ensures v < j
  {
    j.fields[IndexOf(j.fields, key)].1
  }

  /** `j.get(key)`, None as JSON null. */
  function Get(j: Json, key: string): Json {
    if HasKey(j, key) then Field(j, key) else Null
  }

  // ---------- Equality ----------

  /** The whole number a value is, if it is one; `loose` takes booleans for 0 and 1. */
  function WholeOf(j: Json, loose: bool): Option<int> {
    match j
    case Int(n) => Some(n)
    case Float(x) => if IsIntegral(x) then Some(x.0 * Pow2(x.1)) else None
    case Bool(b) => if loose then Some(if b then 1 else 0) else None
    case _ => None
  }

  /**
   Numbers are equal by value and objects in any order of keys: with `loose` as Python's `==`, which
   takes True for 1, without it as section 4.2.2 of JSON Schema Core, draft 2020-12.
   */
  predicate Equal(a: Json, b: Json, loose: bool)
    decreases a
  {
    if WholeOf(a, loose).Some? || WholeOf(b, loose).Some? then WholeOf(a, loose) == WholeOf(b, loose)
    else
      match a
      case Arr(items) => b.Arr? && |b.items| == |items| && forall k :: 0 <= k < |items| ==> Equal(items[k], b.items[k], loose)
      case Obj(fields) =>
        && b.Obj? && |b.fields| == |fields|
        && forall k :: 0 <= k < |fields| ==> HasKey(b, fields[k].0) && Equal(fields[k].1, Field(b, fields[k].0), loose)
      case _ => a == b
  }

  predicate IsAmong(v: Json, items: seq<Json>, loose: bool) {
    exists i :: 0 <= i < |items| && Equal(v, items[i], loose)
  }

  /** Python truth. */
  predicate Truthy(j: Json) {
    match j
    case Null => false
    case Bool(b) => b
    case Int(n) => n != 0
    case Float(x) => x.0 != 0
    case Str(s) => s != ""
    case Arr(items) => items != []
    case Obj(fields) => fields != []
  }

  /** `str()` of a `required` entry that is no string is a parameter: the text is Python's. */
  type Render = Json -> string

  function KeyText(render: Render, j: Json): string {
    if j.Str? then j.s else render(j)
  }

  // ---------- The validator ----------

  datatype Step = Key(key: string) | Index(index: nat)

  datatype Fault =
    | NotInEnum
    | WrongType
    | NotObject
    | Missing(key: string)
    | Undeclared
    | NotArray

  datatype SchemaError = SchemaError(path: seq<Step>, fault: Fault)

  predicate MatchesName(v: Json, name: string) {
    match name
    case "object" => v.Obj?
    case "array" => v.Arr?
    case "string" => v.Str?
    case "integer" => v.Int?
    case "number" => v.Int? || v.Float?
    case "boolean" => v.Bool?
    case "null" => v.Null?
    case _ => true
  }

  predicate MatchesType(v: Json, expected: Json) {
    match expected
    case Str(name) => MatchesName(v, name)
    case Arr(items) => exists i :: 0 <= i < |items| && MatchesType(v, items[i])
    case _ => true
  }

  predicate NeedsObject(schema: Json) {
    Get(schema, "type") == Str("object") || HasKey(schema, "properties") || HasKey(schema, "required")
  }

  /** `schema.get("required") or ()`, where only a list counts. */
  function Required(schema: Json): seq<Json> {
    var r := Get(schema, "required");
    if r.Arr? then r.items else []
  }

  /** `schema.get("properties") or {}`, when it is a mapping. */
  function Properties(schema: Json): Option<Json> {
    var p := Get(schema, "properties");
    if !Truthy(p) then Some(Obj([])) else if p.Obj? then Some(p) else None
  }

  predicate Declared(schema: Json, key: string) {
    Properties(schema).Some? && HasKey(Properties(schema).value, key)
  }

  function FirstMissing(render: Render, v: Json, required: seq<Json>): Option<string> {
    if required == [] then None
    else if !HasKey(v, KeyText(render, required[0])) then Some(KeyText(render, required[0]))
    else FirstMissing(render, v, required[1..])
  }

  predicate HasUndeclared(v: Json, schema: Json)
    requires v.Obj?
  {
    && Get(schema, "additionalProperties") == Bool(false) && Properties(schema).Some?
    && exists i :: 0 <= i < |v.fields| && !Declared(schema, v.fields[i].0)
  }

  function Below(step: Step, e: Option<SchemaError>): Option<SchemaError> {
    match e
    case None => None
    case Some(err) => Some(SchemaError([step] + err.path, err.fault))
  }

  function Fail(fault: Fault): Option<SchemaError> {
    Some(SchemaError([], fault))
  }

  function FirstError(a: Option<SchemaError>, b: Option<SchemaError>): Option<SchemaError> {
    if a.Some? then a else b
  }

  function SchemaErrorOf(render: Render, v: Json, schema: Json): Option<SchemaError>
    decreases v, 3
  {
    if !Truthy(schema) then None
    else if Get(schema, "enum").Arr? && !IsAmong(v, Get(schema, "enum").items, true) then Fail(NotInEnum)
    else if !Get(schema, "type").Null? && !MatchesType(v, Get(schema, "type")) then Fail(WrongType)
    else FirstError(
      if NeedsObject(schema) then ObjectError(render, v, schema) else None,
      if Get(schema, "type") == Str("array") then ArrayError(render, v, schema) else None)
  }

  function ObjectError(render: Render, v: Json, schema: Json): Option<SchemaError>
    decreases v, 2
  {
    if !v.Obj? then Fail(NotObject)
    else
      var missing := FirstMissing(render, v, Required(schema));
      if missing.Some? then Some(SchemaError([Key(missing.value)], Missing(missing.value)))
      else FirstError(
        if Properties(schema).Some? then PropertiesError(render, v, Properties(schema).value.fields) else None,
        if HasUndeclared(v, schema) then Fail(Undeclared) else None)
  }

  function PropertiesError(render: Render, v: Json, properties: seq<(string, Json)>): Option<SchemaError>
    decreases v, 1, |properties|
  {
    if properties == [] then None
    else
      var (key, child) := properties[0];
      FirstError(
        if HasKey(v, key) && child.Obj? then Below(Key(key), SchemaErrorOf(render, Field(v, key), child)) else None,
        PropertiesError(render, v, properties[1..]))
  }

  function ArrayError(render: Render, v: Json, schema: Json): Option<SchemaError>
    decreases v, 2
  {
    if !v.Arr? then Fail(NotArray)
    else if Get(schema, "items").Obj? then ItemsError(render, v, v.items, 0, Get(schema, "items"))
    else None
  }

  function ItemsError(render: Render, v: Json, items: seq<Json>, from: nat, schema: Json): Option<SchemaError>
    requires v.Arr? && items == v.items && from <= |items|
    decreases v, 1, |items| - from
  {
    if from == |items| then None
    else FirstError(
      Below(Index(from), SchemaErrorOf(render, items[from], schema)),
      ItemsError(render, v, items, from + 1, schema))
  }

  // ---------- What it decides ----------

  /** Conformance, keyword by keyword and without order or paths. */
  ghost predicate Conforms(render: Render, v: Json, schema: Json)
    decreases v
  {
    !Truthy(schema) ||
    (&& (Get(schema, "enum").Arr? ==> IsAmong(v, Get(schema, "enum").items, true))
     && (Get(schema, "type").Null? || MatchesType(v, Get(schema, "type")))
     && (NeedsObject(schema) ==>
           && v.Obj?
           && (forall i :: 0 <= i < |Required(schema)| ==> HasKey(v, KeyText(render, Required(schema)[i])))
           && (Properties(schema).Some? ==>
                 forall i :: 0 <= i < |Properties(schema).value.fields| ==>
                   PropertyConforms(render, v, Properties(schema).value.fields[i]))
           && !HasUndeclared(v, schema))
     && (Get(schema, "type") == Str("array") ==>
           && v.Arr?
           && (Get(schema, "items").Obj? ==>
                 forall i :: 0 <= i < |v.items| ==> Conforms(render, v.items[i], Get(schema, "items")))))
  }

  ghost predicate PropertyConforms(render: Render, v: Json, property: (string, Json))
    decreases v, 0
  {
    HasKey(v, property.0) && property.1.Obj? ==> Conforms(render, Field(v, property.0), property.1)
  }

  lemma {:induction false} NothingMissing(render: Render, v: Json, required: seq<Json>)
    ensures FirstMissing(render, v, required).None?
            <==> forall i :: 0 <= i < |required| ==> HasKey(v, KeyText(render, required[i]))
    ensures FirstMissing(render, v, required).Some? ==>
              exists i :: 0 <= i < |required| && FirstMissing(render, v, required).value == KeyText(render, required[i])
                          && !HasKey(v, KeyText(render, required[i]))
  {
    if required != [] {
      NothingMissing(render, v, required[1..]);
      if FirstMissing(render, v, required).Some? && HasKey(v, KeyText(render, required[0])) {
        var i :| 0 <= i < |required[1..]| && FirstMissing(render, v, required).value == KeyText(render, required[1..][i])
                 && !HasKey(v, KeyText(render, required[1..][i]));
        assert required[i + 1] == required[1..][i];
      }
    }
  }

  /** Main result: the validator finds no error exactly when the value conforms. */
  lemma {:induction false} NoErrorIffConforms(render: Render, v: Json, schema: Json)
    ensures SchemaErrorOf(render, v, schema).None? <==> Conforms(render, v, schema)
    decreases v, 3
  {
    if Truthy(schema) {
      if NeedsObject(schema) && v.Obj? {
        NothingMissing(render, v, Required(schema));
        if Properties(schema).Some? { PropertiesConform(render, v, Properties(schema).value.fields); }
      }
      if Get(schema, "type") == Str("array") && v.Arr? && Get(schema, "items").Obj? {
        ItemsConform(render, v, 0, Get(schema, "items"));
      }
    }
  }

  lemma {:induction false} PropertiesConform(render: Render, v: Json, properties: seq<(string, Json)>)
    ensures PropertiesError(render, v, properties).None?
            <==> forall i :: 0 <= i < |properties| ==> PropertyConforms(render, v, properties[i])
    decreases v, 1, |properties|
  {
    if properties != [] {
      var (key, child) := properties[0];
      if HasKey(v, key) && child.Obj? { NoErrorIffConforms(render, Field(v, key), child); }
      PropertiesConform(render, v, properties[1..]);
      assert PropertyConforms(render, v, properties[0]) <==>
             !(HasKey(v, key) && child.Obj?) || SchemaErrorOf(render, Field(v, key), child).None?;
    }
  }

  lemma {:induction false} ItemsConform(render: Render, v: Json, from: nat, schema: Json)
    requires v.Arr? && from <= |v.items|
    ensures ItemsError(render, v, v.items, from, schema).None?
            <==> forall i :: from <= i < |v.items| ==> Conforms(render, v.items[i], schema)
    decreases v, 1, |v.items| - from
  {
    if from < |v.items| {
      NoErrorIffConforms(render, v.items[from], schema);
      ItemsConform(render, v, from + 1, schema);
    }
  }

  // ---------- Where it points ----------

  /** Following `path` from value and schema together leads to `v'` checked against `schema'`. */
  ghost predicate Reaches(v: Json, schema: Json, path: seq<Step>, v': Json, schema': Json)
    decreases path
  {
    if path == [] then v' == v && schema' == schema
    else
      match path[0]
      case Key(key) =>
        && NeedsObject(schema) && Properties(schema).Some? && HasKey(v, key)
        && exists child: Json :: child.Obj? && (key, child) in Properties(schema).value.fields
                           && Reaches(Field(v, key), child, path[1..], v', schema')
      case Index(i) =>
        && Get(schema, "type") == Str("array") && Get(schema, "items").Obj? && v.Arr? && i < |v.items|
        && Reaches(v.items[i], Get(schema, "items"), path[1..], v', schema')
  }

  /** The value breaks one keyword of the schema by itself. */
  ghost predicate Faulty(render: Render, v: Json, schema: Json, fault: Fault) {
    match fault
    case NotInEnum => Get(schema, "enum").Arr? && !IsAmong(v, Get(schema, "enum").items, true)
    case WrongType => !Get(schema, "type").Null? && !MatchesType(v, Get(schema, "type"))
    case NotObject => NeedsObject(schema) && !v.Obj?
    case Missing(key) =>
      NeedsObject(schema) && v.Obj? && !HasKey(v, key)
      && exists i :: 0 <= i < |Required(schema)| && KeyText(render, Required(schema)[i]) == key
    case Undeclared => NeedsObject(schema) && v.Obj? && HasUndeclared(v, schema)
    case NotArray => Get(schema, "type") == Str("array") && !v.Arr?
  }

  /** The path of the value at fault: for a missing key, the object that lacks it. */
  function FaultSite(e: SchemaError): seq<Step> {
    if e.fault.Missing? && e.path != [] then e.path[..|e.path| - 1] else e.path
  }

  ghost predicate Located(render: Render, v: Json, schema: Json, e: SchemaError) {
    && (e.fault.Missing? ==> e.path != [] && e.path[|e.path| - 1] == Key(e.fault.key))
    && exists v', schema' :: Reaches(v, schema, FaultSite(e), v', schema') && Faulty(render, v', schema', e.fault)
  }

  lemma ReachesByKey(v: Json, schema: Json, key: string, child: Json, path: seq<Step>, v': Json, schema': Json)
    requires NeedsObject(schema) && Properties(schema).Some? && HasKey(v, key) && child.Obj?
    requires (key, child) in Properties(schema).value.fields && Reaches(Field(v, key), child, path, v', schema')
    ensures Reaches(v, schema, [Key(key)] + path, v', schema')
  {
    assert ([Key(key)] + path)[1..] == path;
  }

  lemma ReachesByIndex(v: Json, schema: Json, i: nat, path: seq<Step>, v': Json, schema': Json)
    requires Get(schema, "type") == Str("array") && Get(schema, "items").Obj? && v.Arr? && i < |v.items|
    requires Reaches(v.items[i], Get(schema, "items"), path, v', schema')
    ensures Reaches(v, schema, [Index(i)] + path, v', schema')
  {
    assert ([Index(i)] + path)[1..] == path;
  }

  lemma SiteBelow(step: Step, e: SchemaError)
    requires e.fault.Missing? ==> e.path != [] && e.path[|e.path| - 1] == Key(e.fault.key)
    ensures var up := SchemaError([step] + e.path, e.fault);
            && FaultSite(up) == [step] + FaultSite(e)
            && (e.fault.Missing? ==> up.path != [] && up.path[|up.path| - 1] == Key(e.fault.key))
  {
  }

  lemma LocatedBelowKey(render: Render, v: Json, schema: Json, key: string, child: Json, e: SchemaError)
    requires NeedsObject(schema) && Properties(schema).Some? && HasKey(v, key) && child.Obj?
    requires (key, child) in Properties(schema).value.fields && Located(render, Field(v, key), child, e)
    ensures Located(render, v, schema, SchemaError([Key(key)] + e.path, e.fault))
  {
    var v', schema' :| Reaches(Field(v, key), child, FaultSite(e), v', schema') && Faulty(render, v', schema', e.fault);
    SiteBelow(Key(key), e);
    ReachesByKey(v, schema, key, child, FaultSite(e), v', schema');
  }

  lemma LocatedBelowIndex(render: Render, v: Json, schema: Json, i: nat, e: SchemaError)
    requires Get(schema, "type") == Str("array") && Get(schema, "items").Obj? && v.Arr? && i < |v.items|
    requires Located(render, v.items[i], Get(schema, "items"), e)
    ensures Located(render, v, schema, SchemaError([Index(i)] + e.path, e.fault))
  {
    var v', schema' :| Reaches(v.items[i], Get(schema, "items"), FaultSite(e), v', schema') && Faulty(render, v', schema', e.fault);
    SiteBelow(Index(i), e);
    ReachesByIndex(v, schema, i, FaultSite(e), v', schema');
  }

  lemma LocatedHere(render: Render, v: Json, schema: Json, fault: Fault)
    requires Faulty(render, v, schema, fault)
    ensures !fault.Missing? ==> Located(render, v, schema, SchemaError([], fault))
    ensures fault.Missing? ==> Located(render, v, schema, SchemaError([Key(fault.key)], fault))
  {
    assert Reaches(v, schema, [], v, schema);
    if fault.Missing? {
      assert FaultSite(SchemaError([Key(fault.key)], fault)) == [];
    }
  }

  /** Every reported path leads to a sub-value that really breaks the reported keyword (or lacks the reported key). */
  lemma {:induction false} ErrorsAreLocated(render: Render, v: Json, schema: Json)
    ensures SchemaErrorOf(render, v, schema).Some? ==>
              Located(render, v, schema, SchemaErrorOf(render, v, schema).value)
    decreases v, 3
  {
    var e := SchemaErrorOf(render, v, schema);
    if e.Some? {
      if Get(schema, "enum").Arr? && !IsAmong(v, Get(schema, "enum").items, true) {
        LocatedHere(render, v, schema, NotInEnum);
      } else if !Get(schema, "type").Null? && !MatchesType(v, Get(schema, "type")) {
        LocatedHere(render, v, schema, WrongType);
      } else if NeedsObject(schema) && ObjectError(render, v, schema).Some? {
        ObjectErrorsAreLocated(render, v, schema);
      } else {
        assert Get(schema, "type") == Str("array") && e == ArrayError(render, v, schema);
        if !v.Arr? {
          LocatedHere(render, v, schema, NotArray);
        } else {
          ItemErrorsAreLocated(render, v, 0, schema);
        }
      }
    }
  }

  lemma {:induction false} ObjectErrorsAreLocated(render: Render, v: Json, schema: Json)
    requires NeedsObject(schema) && ObjectError(render, v, schema).Some?
    ensures Located(render, v, schema, ObjectError(render, v, schema).value)
    decreases v, 2
  {
    if !v.Obj? {
      LocatedHere(render, v, schema, NotObject);
    } else {
      var missing := FirstMissing(render, v, Required(schema));
      NothingMissing(render, v, Required(schema));
      if missing.Some? {
        LocatedHere(render, v, schema, Missing(missing.value));
      } else if Properties(schema).Some? && PropertiesError(render, v, Properties(schema).value.fields).Some? {
        PropertyErrorsAreLocated(render, v, schema, 0);
        assert Properties(schema).value.fields[0..] == Properties(schema).value.fields;
      } else {
        LocatedHere(render, v, schema, Undeclared);
      }
    }
  }

  lemma {:induction false} PropertyErrorsAreLocated(render: Render, v: Json, schema: Json, from: nat)
    requires NeedsObject(schema) && Properties(schema).Some? && from <= |Properties(schema).value.fields|
    ensures var e := PropertiesError(render, v, Properties(schema).value.fields[from..]);
            e.Some? ==> Located(render, v, schema, e.value)
    decreases v, 1, |Properties(schema).value.fields| - from
  {
    var properties := Properties(schema).value.fields;
    if from < |properties| {
      var (key, child) := properties[from];
      assert properties[from..][0] == properties[from] && properties[from..][1..] == properties[from + 1..];
      if HasKey(v, key) && child.Obj? && SchemaErrorOf(render, Field(v, key), child).Some? {
        var e := SchemaErrorOf(render, Field(v, key), child).value;
        ErrorsAreLocated(render, Field(v, key), child);
        LocatedBelowKey(render, v, schema, key, child, e);
      } else {
        PropertyErrorsAreLocated(render, v, schema, from + 1);
      }
    }
  }

  lemma {:induction false} ItemErrorsAreLocated(render: Render, v: Json, from: nat, schema: Json)
    requires v.Arr? && from <= |v.items| && Get(schema, "type") == Str("array") && Get(schema, "items").Obj?
    ensures var e := ItemsError(render, v, v.items, from, Get(schema, "items"));
            e.Some? ==> Located(render, v, schema, e.value)
    decreases v, 1, |v.items| - from
  {
    var child := Get(schema, "items");
    if from < |v.items| {
      if SchemaErrorOf(render, v.items[from], child).Some? {
        ErrorsAreLocated(render, v.items[from], child);
        LocatedBelowIndex(render, v, schema, from, SchemaErrorOf(render, v.items[from], child).value);
      } else {
        ItemErrorsAreLocated(render, v, from + 1, schema);
      }
    }
  }

  /** Conversely a fault anywhere below makes the validator report an error. */
  lemma {:induction false} FaultsAreReported(
    render: Render, v: Json, schema: Json, path: seq<Step>, v': Json, schema': Json, fault: Fault)
    requires Reaches(v, schema, path, v', schema') && Faulty(render, v', schema', fault)
    ensures SchemaErrorOf(render, v, schema).Some?
    decreases path
  {
    NoErrorIffConforms(render, v, schema);
    if path != [] {
      match path[0]
      case Key(key) =>
        var child: Json :| child.Obj? && (key, child) in Properties(schema).value.fields
                     && Reaches(Field(v, key), child, path[1..], v', schema');
        FaultsAreReported(render, Field(v, key), child, path[1..], v', schema', fault);
        NoErrorIffConforms(render, Field(v, key), child);
        var i :| 0 <= i < |Properties(schema).value.fields| && Properties(schema).value.fields[i] == (key, child);
        assert !PropertyConforms(render, v, Properties(schema).value.fields[i]);
      case Index(i) =>
        FaultsAreReported(render, v.items[i], Get(schema, "items"), path[1..], v', schema', fault);
        NoErrorIffConforms(render, v.items[i], Get(schema, "items"));
    }
  }
}
