/**
 The tool input validator against the published standard. A schema is read twice, as the standard reads
 it and as the validator does; values meet a reading in one sense only.
 */
module SchemaStandard {
  import opened Options
  import opened JsonSchema

  // ---------- Readings of a schema ----------

  datatype Schema =
    | Always
    | Never
    | Keywords(
        enumeration: Option<seq<Json>>,
        types: Option<seq<string>>,
        required: seq<string>,
        properties: seq<(string, Schema)>,
        additional: Schema,
        items: Schema)

  /** "integer" takes any number without a fractional part. */
  predicate HasType(v: Json, name: string) {
    if name == "integer" then v.Int? || (v.Float? && IsIntegral(v.x)) else MatchesName(v, name)
  }

  predicate HasOneOf(v: Json, names: seq<string>) {
    exists i :: 0 <= i < |names| && HasType(v, names[i])
  }

  predicate Names(properties: seq<(string, Schema)>, key: string) {
    exists i :: 0 <= i < |properties| && properties[i].0 == key
  }

  /**
   The type, enum and required keywords of JSON Schema Validation draft 2020-12 (sections 6.1.1, 6.1.2, 6.5.3),
   items, properties and additionalProperties of JSON Schema Core draft 2020-12 (sections 10.3.1.2, 10.3.2.1,
   10.3.2.3) and boolean schemas (section 4.3.2): every keyword constrains only values of its own kind.
   */
  ghost predicate Meets(v: Json, s: Schema)
    decreases v, 1
  {
    match s
    case Always => true
    case Never => false
    case Keywords(enumeration, types, required, properties, additional, items) =>
      && (enumeration.Some? ==> IsAmong(v, enumeration.value, false))
      && (types.Some? ==> HasOneOf(v, types.value))
      && (v.Obj? ==>
            && (forall i :: 0 <= i < |required| ==> HasKey(v, required[i]))
            && (forall i :: 0 <= i < |properties| ==> PropertyMeets(v, properties[i]))
            && (forall i :: 0 <= i < |v.fields| ==> Names(properties, v.fields[i].0) || Meets(v.fields[i].1, additional)))
      && (v.Arr? ==> forall i :: 0 <= i < |v.items| ==> Meets(v.items[i], items))
  }

  ghost predicate PropertyMeets(v: Json, property: (string, Schema))
    decreases v, 0
  {
    HasKey(v, property.0) ==> Meets(Field(v, property.0), property.1)
  }

  function Texts(j: Json): seq<string> {
    if j.Arr? then seq(|j.items|, i requires 0 <= i < |j.items| => if j.items[i].Str? then j.items[i].s else "") else []
  }

  /** The names "type" gives: one, or a list. */
  function TypeNames(schema: Json): seq<string> {
    if Get(schema, "type").Str? then [Get(schema, "type").s] else Texts(Get(schema, "type"))
  }

  function EnumOf(schema: Json): Option<seq<Json>> {
    if Get(schema, "enum").Arr? then Some(Get(schema, "enum").items) else None
  }

  /** A schema as the standard reads it. */
  function StandardReading(schema: Json): Schema
    decreases schema, 1
  {
    if schema.Bool? then if schema.b then Always else Never
    else Keywords(
      EnumOf(schema),
      if HasKey(schema, "type") then Some(TypeNames(schema)) else None,
      Texts(Get(schema, "required")),
      if HasKey(schema, "properties") then StandardProperties(Field(schema, "properties")) else [],
      if HasKey(schema, "additionalProperties") then StandardReading(Field(schema, "additionalProperties")) else Always,
      if HasKey(schema, "items") then StandardReading(Field(schema, "items")) else Always)
  }

  function StandardProperties(p: Json): (r: seq<(string, Schema)>)
    ensures |r| == if p.Obj? then |p.fields| else 0
    decreases p, 0
  {
    if p.Obj? then seq(|p.fields|, i requires 0 <= i < |p.fields| => (p.fields[i].0, StandardReading(p.fields[i].1))) else []
  }

  /** The types the validator asks for: "properties" or "required" ask for an object, whatever "type" says. */
  function TypesRead(schema: Json): Option<seq<string>> {
    if NeedsObject(schema) then
      Some(if !HasKey(schema, "type") || "object" in TypeNames(schema) then ["object"] else [])
    else if HasKey(schema, "type") then Some(TypeNames(schema))
    else None
  }

  /**
   A schema as the validator reads it: subschemas that are no objects take every value, "items" is seen
   beside the type "array" only, and of "additionalProperties" only false is, where an object is asked for.
   */
  function ValidatorReading(schema: Json): Schema
    decreases schema, 1
  {
    if !schema.Obj? then Always
    else Keywords(
      EnumOf(schema),
      TypesRead(schema),
      Texts(Get(schema, "required")),
      if HasKey(schema, "properties") then ValidatorProperties(Field(schema, "properties")) else [],
      if NeedsObject(schema) && Get(schema, "additionalProperties") == Bool(false) then Never else Always,
      if HasKey(schema, "items") && Get(schema, "type") == Str("array") then ValidatorReading(Field(schema, "items")) else Always)
  }

  function ValidatorProperties(p: Json): (r: seq<(string, Schema)>)
    ensures |r| == if p.Obj? then |p.fields| else 0
    decreases p, 0
  {
    if p.Obj? then seq(|p.fields|, i requires 0 <= i < |p.fields| => (p.fields[i].0, ValidatorReading(p.fields[i].1))) else []
  }

  /** What the standard says of a value and a schema. */
  ghost predicate Standard(v: Json, schema: Json) {
    Meets(v, StandardReading(schema))
  }

  // ---------- Schemas ----------

  const TYPES := ["object", "array", "string", "integer", "number", "boolean", "null"]

  predicate IsTypeName(j: Json) {
    j.Str? && j.s in TYPES
  }

  predicate AllTypeNames(items: seq<Json>) {
    forall i :: 0 <= i < |items| ==> IsTypeName(items[i])
  }

  predicate AllTexts(items: seq<Json>) {
    forall i :: 0 <= i < |items| ==> items[i].Str?
  }

  /**
   A schema of the standard. "prefixItems" and "patternProperties", which change what "items" and
   "additionalProperties" are about, are not among the keywords here.
   */
  ghost predicate IsSchema(j: Json)
    decreases j, 1
  {
    j.Bool? ||
    (&& j.Obj?
     && (HasKey(j, "enum") ==> Get(j, "enum").Arr?)
     && (HasKey(j, "type") ==>
           IsTypeName(Get(j, "type")) || (Get(j, "type").Arr? && Get(j, "type").items != [] && AllTypeNames(Get(j, "type").items)))
     && (HasKey(j, "required") ==> Get(j, "required").Arr? && AllTexts(Get(j, "required").items))
     && (HasKey(j, "properties") ==> AreSchemas(Field(j, "properties")))
     && (HasKey(j, "additionalProperties") ==> IsSchema(Field(j, "additionalProperties")))
     && (HasKey(j, "items") ==> IsSchema(Field(j, "items")))
     && !HasKey(j, "prefixItems") && !HasKey(j, "patternProperties"))
  }

  ghost predicate AreSchemas(p: Json)
    decreases p, 0
  {
    p.Obj? && forall i :: 0 <= i < |p.fields| ==> IsSchema(p.fields[i].1)
  }

  // ---------- Where values part validator and reading ----------

  datatype Departure =
    | IntegralFloat // a float without a fraction is no integer to the validator
    | TruthAsNumber // True is 1 to the validator's enum check

  predicate DepartsHere(d: Departure, v: Json, schema: Json) {
    match d
    case IntegralFloat =>
      v.Float? && IsIntegral(v.x) && HasKey(schema, "type") && "integer" in TypeNames(schema) && !MatchesType(v, Get(schema, "type"))
    case TruthAsNumber =>
      EnumOf(schema).Some? && IsAmong(v, EnumOf(schema).value, true) && !IsAmong(v, EnumOf(schema).value, false)
  }

  ghost predicate DepartsAt(d: Departure, v: Json, schema: Json, path: seq<Step>) {
    exists v', schema' :: Reaches(v, schema, path, v', schema') && DepartsHere(d, v', schema')
  }

  /** Somewhere below, a sub-value the validator checks is such a one. */
  ghost predicate Departs(d: Departure, v: Json, schema: Json) {
    exists path :: DepartsAt(d, v, schema, path)
  }

  lemma DepartsAtKey(d: Departure, v: Json, schema: Json, key: string, child: Json, path: seq<Step>)
    requires NeedsObject(schema) && Properties(schema).Some? && HasKey(v, key) && child.Obj?
    requires (key, child) in Properties(schema).value.fields && DepartsAt(d, Field(v, key), child, path)
    ensures DepartsAt(d, v, schema, [Key(key)] + path)
  {
    var v', schema' :| Reaches(Field(v, key), child, path, v', schema') && DepartsHere(d, v', schema');
    ReachesByKey(v, schema, key, child, path, v', schema');
  }

  lemma DepartsByKey(d: Departure, v: Json, schema: Json, key: string, child: Json)
    requires NeedsObject(schema) && Properties(schema).Some? && HasKey(v, key) && child.Obj?
    requires (key, child) in Properties(schema).value.fields && Departs(d, Field(v, key), child)
    ensures Departs(d, v, schema)
  {
    var path :| DepartsAt(d, Field(v, key), child, path);
    DepartsAtKey(d, v, schema, key, child, path);
  }

  lemma DepartsAtIndex(d: Departure, v: Json, schema: Json, i: nat, path: seq<Step>)
    requires Get(schema, "type") == Str("array") && Get(schema, "items").Obj? && v.Arr? && i < |v.items|
    requires DepartsAt(d, v.items[i], Get(schema, "items"), path)
    ensures DepartsAt(d, v, schema, [Index(i)] + path)
  {
    var v', schema' :| Reaches(v.items[i], Get(schema, "items"), path, v', schema') && DepartsHere(d, v', schema');
    ReachesByIndex(v, schema, i, path, v', schema');
  }

  lemma DepartsByIndex(d: Departure, v: Json, schema: Json, i: nat)
    requires Get(schema, "type") == Str("array") && Get(schema, "items").Obj? && v.Arr? && i < |v.items|
    requires Departs(d, v.items[i], Get(schema, "items"))
    ensures Departs(d, v, schema)
  {
    var path :| DepartsAt(d, v.items[i], Get(schema, "items"), path);
    DepartsAtIndex(d, v, schema, i, path);
  }

  lemma DepartsFromHere(d: Departure, v: Json, schema: Json)
    requires DepartsHere(d, v, schema)
    ensures Departs(d, v, schema)
  {
    assert Reaches(v, schema, [], v, schema);
    assert DepartsAt(d, v, schema, []);
  }

  /** The validator refuses every integral float where an integer is asked for and no other type fits. */
  lemma IntegralFloatsAreReported(render: Render, v: Json, schema: Json)
    requires Departs(IntegralFloat, v, schema)
    ensures SchemaErrorOf(render, v, schema).Some?
  {
    var path :| DepartsAt(IntegralFloat, v, schema, path);
    var v', schema' :| Reaches(v, schema, path, v', schema') && DepartsHere(IntegralFloat, v', schema');
    assert Faulty(render, v', schema', WrongType);
    FaultsAreReported(render, v, schema, path, v', schema', WrongType);
  }

  // ---------- What the validator decides ----------

  lemma NothingAsked(v: Json, schema: Json)
    requires schema.Obj? && !Truthy(schema)
    ensures Meets(v, ValidatorReading(schema)) && Meets(v, StandardReading(schema))
  {
    assert forall key :: !HasKey(schema, key);
  }

  predicate MatchesOneOf(v: Json, names: seq<string>) {
    exists i :: 0 <= i < |names| && MatchesName(v, names[i])
  }

  lemma NamesMatch(j: Json, v: Json)
    requires j.Arr? && AllTypeNames(j.items)
    ensures MatchesType(v, j) <==> MatchesOneOf(v, Texts(j))
  {
    forall i | 0 <= i < |j.items| ensures MatchesType(v, j.items[i]) <==> MatchesName(v, Texts(j)[i]) {
      assert IsTypeName(j.items[i]);
    }
  }

  /** What "type" says of a value, in terms of the names it gives. */
  lemma TypeMatchesIff(v: Json, schema: Json)
    requires schema.Obj? && IsSchema(schema) && HasKey(schema, "type")
    ensures !Get(schema, "type").Null?
    ensures MatchesType(v, Get(schema, "type")) <==> MatchesOneOf(v, TypeNames(schema))
    ensures forall i :: 0 <= i < |TypeNames(schema)| ==> TypeNames(schema)[i] in TYPES
    ensures TypeNames(schema) != []
  {
    var j, names := Get(schema, "type"), TypeNames(schema);
    if j.Arr? {
      NamesMatch(j, v);
      forall i | 0 <= i < |names| ensures names[i] in TYPES { assert IsTypeName(j.items[i]); }
    } else {
      assert names[0] == j.s;
    }
  }

  lemma MatchesOrDeparts(v: Json, names: seq<string>)
    ensures MatchesOneOf(v, names) ==> HasOneOf(v, names)
    ensures HasOneOf(v, names) ==> MatchesOneOf(v, names) || (v.Float? && IsIntegral(v.x) && "integer" in names)
  {
    if MatchesOneOf(v, names) {
      var i :| 0 <= i < |names| && MatchesName(v, names[i]);
      assert HasType(v, names[i]);
    }
    if HasOneOf(v, names) {
      var i :| 0 <= i < |names| && HasType(v, names[i]);
      assert names[i] == "integer" || MatchesName(v, names[i]);
    }
  }

  lemma ObjectsMatch(v: Json, names: seq<string>)
    requires v.Obj? && forall i :: 0 <= i < |names| ==> names[i] in TYPES
    ensures MatchesOneOf(v, names) <==> "object" in names
  {
    forall i | 0 <= i < |names| ensures MatchesName(v, names[i]) <==> names[i] == "object" {}
  }

  /** What the validator demands of the kind of a value. */
  predicate Fits(v: Json, schema: Json) {
    (Get(schema, "type").Null? || MatchesType(v, Get(schema, "type"))) && (NeedsObject(schema) ==> v.Obj?)
  }

  predicate FitsReading(v: Json, schema: Json) {
    TypesRead(schema).None? || HasOneOf(v, TypesRead(schema).value)
  }

  /** Apart from integral floats it is what the types read say. */
  lemma FitsIff(v: Json, schema: Json)
    requires schema.Obj? && IsSchema(schema)
    ensures Fits(v, schema) ==> FitsReading(v, schema)
    ensures FitsReading(v, schema) && !DepartsHere(IntegralFloat, v, schema) ==> Fits(v, schema)
  {
    if HasKey(schema, "type") {
      TypeMatchesIff(v, schema);
      MatchesOrDeparts(v, TypeNames(schema));
      if v.Obj? { ObjectsMatch(v, TypeNames(schema)); }
    }
    if NeedsObject(schema) {
      assert HasOneOf(v, ["object"]) <==> v.Obj? by { assert ["object"][0] == "object"; }
      assert !HasOneOf(v, []);
    }
  }

  lemma {:induction false} EqualIsLoose(a: Json, b: Json)
    requires Equal(a, b, false)
    ensures Equal(a, b, true)
    decreases a
  {
    match a
    case Arr(items) =>
      forall k | 0 <= k < |items| ensures Equal(items[k], b.items[k], true) { EqualIsLoose(items[k], b.items[k]); }
    case Obj(fields) =>
      forall k | 0 <= k < |fields| ensures Equal(fields[k].1, Field(b, fields[k].0), true) {
        EqualIsLoose(fields[k].1, Field(b, fields[k].0));
      }
    case _ =>
  }

  lemma AmongIsLoose(v: Json, items: seq<Json>)
    requires IsAmong(v, items, false)
    ensures IsAmong(v, items, true)
  {
    var i :| 0 <= i < |items| && Equal(v, items[i], false);
    EqualIsLoose(v, items[i]);
  }

  lemma RequiredRead(render: Render, schema: Json)
    requires schema.Obj? && IsSchema(schema)
    ensures var names := Texts(Get(schema, "required"));
            |names| == |Required(schema)| && forall i :: 0 <= i < |names| ==> names[i] == KeyText(render, Required(schema)[i])
  {
    if HasKey(schema, "required") {
      forall i | 0 <= i < |Required(schema)| ensures Texts(Get(schema, "required"))[i] == KeyText(render, Required(schema)[i]) {
        assert Get(schema, "required").items[i].Str?;
      }
    }
  }

  lemma SameNames(read: seq<(string, Schema)>, p: Json, key: string)
    requires p.Obj? && |read| == |p.fields| && forall i :: 0 <= i < |read| ==> read[i].0 == p.fields[i].0
    ensures Names(read, key) <==> HasKey(p, key)
  {
    if Names(read, key) {
      var i :| 0 <= i < |read| && read[i].0 == key;
      assert p.fields[i].0 == key;
    }
    if HasKey(p, key) {
      var i :| 0 <= i < |p.fields| && p.fields[i].0 == key;
      assert read[i].0 == key;
    }
  }

  lemma PropertiesRead(schema: Json)
    requires schema.Obj? && IsSchema(schema)
    ensures Properties(schema).Some? && Properties(schema).value.Obj?
    ensures var read, fields := ValidatorReading(schema).properties, Properties(schema).value.fields;
            && |read| == |fields|
            && forall i :: 0 <= i < |fields| ==> read[i] == (fields[i].0, ValidatorReading(fields[i].1)) && IsSchema(fields[i].1)
  {
    if HasKey(schema, "properties") {
      assert AreSchemas(Field(schema, "properties"));
      assert Get(schema, "properties") == Field(schema, "properties");
    }
  }

  /** Beside the properties: what else an object must do, to validator and reading alike. */
  ghost predicate ObjectFits(render: Render, v: Json, schema: Json)
    requires v.Obj?
  {
    && (forall i :: 0 <= i < |Required(schema)| ==> HasKey(v, KeyText(render, Required(schema)[i])))
    && !HasUndeclared(v, schema)
  }

  ghost predicate ObjectFitsReading(v: Json, s: Schema)
    requires v.Obj? && s.Keywords?
  {
    && (forall i :: 0 <= i < |s.required| ==> HasKey(v, s.required[i]))
    && (forall i :: 0 <= i < |v.fields| ==> Names(s.properties, v.fields[i].0) || Meets(v.fields[i].1, s.additional))
  }

  lemma UndeclaredIff(v: Json, schema: Json)
    requires v.Obj? && schema.Obj? && IsSchema(schema)
    ensures var s := ValidatorReading(schema);
            (NeedsObject(schema) ==> !HasUndeclared(v, schema))
            <==> forall i :: 0 <= i < |v.fields| ==> Names(s.properties, v.fields[i].0) || Meets(v.fields[i].1, s.additional)
  {
    PropertiesRead(schema);
    var s := ValidatorReading(schema);
    forall i | 0 <= i < |v.fields| ensures Names(s.properties, v.fields[i].0) <==> Declared(schema, v.fields[i].0) {
      SameNames(s.properties, Properties(schema).value, v.fields[i].0);
    }
  }

  lemma ObjectFitsIff(render: Render, v: Json, schema: Json)
    requires v.Obj? && schema.Obj? && IsSchema(schema)
    ensures NeedsObject(schema) ==> (ObjectFits(render, v, schema) <==> ObjectFitsReading(v, ValidatorReading(schema)))
    ensures !NeedsObject(schema) ==> ObjectFitsReading(v, ValidatorReading(schema)) && ValidatorReading(schema).properties == []
  {
    RequiredRead(render, schema);
    UndeclaredIff(v, schema);
  }

  lemma {:induction false} ConformingMeets(render: Render, v: Json, schema: Json)
    requires schema.Obj? && IsSchema(schema) && Conforms(render, v, schema) && !Departs(TruthAsNumber, v, schema)
    ensures Meets(v, ValidatorReading(schema))
    decreases v
  {
    if !Truthy(schema) {
      NothingAsked(v, schema);
    } else {
      if DepartsHere(TruthAsNumber, v, schema) { DepartsFromHere(TruthAsNumber, v, schema); }
      FitsIff(v, schema);
      if v.Obj? {
        ObjectFitsIff(render, v, schema);
        PropertiesConformingMeet(render, v, schema);
      }
      if v.Arr? && Get(schema, "type") == Str("array") && Get(schema, "items").Obj? {
        forall i | 0 <= i < |v.items| ensures Meets(v.items[i], ValidatorReading(schema).items) {
          if Departs(TruthAsNumber, v.items[i], Get(schema, "items")) { DepartsByIndex(TruthAsNumber, v, schema, i); }
          ConformingMeets(render, v.items[i], Get(schema, "items"));
        }
      }
    }
  }

  lemma {:induction false} PropertiesConformingMeet(render: Render, v: Json, schema: Json)
    requires v.Obj? && schema.Obj? && IsSchema(schema) && Conforms(render, v, schema) && !Departs(TruthAsNumber, v, schema)
    ensures forall i :: 0 <= i < |ValidatorReading(schema).properties| ==> PropertyMeets(v, ValidatorReading(schema).properties[i])
    decreases v, 0
  {
    PropertiesRead(schema);
    var fields := Properties(schema).value.fields;
    forall i | 0 <= i < |fields| ensures PropertyMeets(v, ValidatorReading(schema).properties[i]) {
      var (key, child) := fields[i];
      if HasKey(v, key) && child.Obj? {
        assert PropertyConforms(render, v, fields[i]);
        if Departs(TruthAsNumber, Field(v, key), child) { DepartsByKey(TruthAsNumber, v, schema, key, child); }
        ConformingMeets(render, Field(v, key), child);
      }
    }
  }

  lemma {:induction false} MeetingConforms(render: Render, v: Json, schema: Json)
    requires schema.Obj? && IsSchema(schema) && Meets(v, ValidatorReading(schema)) && !Departs(IntegralFloat, v, schema)
    ensures Conforms(render, v, schema)
    decreases v
  {
    if Truthy(schema) {
      if DepartsHere(IntegralFloat, v, schema) { DepartsFromHere(IntegralFloat, v, schema); }
      FitsIff(v, schema);
      if EnumOf(schema).Some? { AmongIsLoose(v, EnumOf(schema).value); }
      if v.Obj? {
        ObjectFitsIff(render, v, schema);
        PropertiesRead(schema);
        PropertiesMeetingConform(render, v, schema);
      }
      if v.Arr? && Get(schema, "type") == Str("array") && Get(schema, "items").Obj? {
        forall i | 0 <= i < |v.items| ensures Conforms(render, v.items[i], Get(schema, "items")) {
          if Departs(IntegralFloat, v.items[i], Get(schema, "items")) { DepartsByIndex(IntegralFloat, v, schema, i); }
          MeetingConforms(render, v.items[i], Get(schema, "items"));
        }
      }
    }
  }

  lemma {:induction false} PropertiesMeetingConform(render: Render, v: Json, schema: Json)
    requires v.Obj? && schema.Obj? && IsSchema(schema) && Meets(v, ValidatorReading(schema)) && !Departs(IntegralFloat, v, schema)
    requires Properties(schema).Some?
    ensures forall i :: 0 <= i < |Properties(schema).value.fields| ==> PropertyConforms(render, v, Properties(schema).value.fields[i])
    decreases v, 0
  {
    PropertiesRead(schema);
    var fields := Properties(schema).value.fields;
    forall i | 0 <= i < |fields| ensures PropertyConforms(render, v, fields[i]) {
      var (key, child) := fields[i];
      if HasKey(v, key) && child.Obj? {
        assert PropertyMeets(v, ValidatorReading(schema).properties[i]);
        if Departs(IntegralFloat, Field(v, key), child) { DepartsByKey(IntegralFloat, v, schema, key, child); }
        MeetingConforms(render, Field(v, key), child);
      }
    }
  }

  lemma PropertyMeetsItsReading(v: Json, schema: Json, key: string, child: Json)
    requires v.Obj? && schema.Obj? && IsSchema(schema) && Meets(v, ValidatorReading(schema))
    requires HasKey(v, key) && Properties(schema).Some? && (key, child) in Properties(schema).value.fields
    ensures IsSchema(child) && Meets(Field(v, key), ValidatorReading(child))
  {
    PropertiesRead(schema);
    var i :| 0 <= i < |Properties(schema).value.fields| && Properties(schema).value.fields[i] == (key, child);
    assert PropertyMeets(v, ValidatorReading(schema).properties[i]);
  }

  /** What meets a reading meets it everywhere below. */
  lemma {:induction false} MeetsBelow(v: Json, schema: Json, path: seq<Step>, v': Json, schema': Json)
    requires schema.Obj? && IsSchema(schema) && Meets(v, ValidatorReading(schema)) && Reaches(v, schema, path, v', schema')
    ensures Meets(v', ValidatorReading(schema'))
    decreases path
  {
    if path != [] {
      match path[0]
      case Key(key) =>
        var child: Json :| child.Obj? && (key, child) in Properties(schema).value.fields
                     && Reaches(Field(v, key), child, path[1..], v', schema');
        PropertyMeetsItsReading(v, schema, key, child);
        MeetsBelow(Field(v, key), child, path[1..], v', schema');
      case Index(i) =>
        ItemMeetsItsReading(v, schema, i);
        MeetsBelow(v.items[i], Get(schema, "items"), path[1..], v', schema');
    }
  }

  lemma ItemMeetsItsReading(v: Json, schema: Json, i: nat)
    requires schema.Obj? && IsSchema(schema) && Meets(v, ValidatorReading(schema))
    requires Get(schema, "type") == Str("array") && Get(schema, "items").Obj? && v.Arr? && i < |v.items|
    ensures IsSchema(Get(schema, "items")) && Meets(v.items[i], ValidatorReading(Get(schema, "items")))
  {
  }

  lemma MeetingDoesNotDepart(v: Json, schema: Json)
    requires Meets(v, ValidatorReading(schema))
    ensures !DepartsHere(TruthAsNumber, v, schema)
  {
  }

  lemma MeetingTakesNoTruthForANumber(v: Json, schema: Json)
    requires schema.Obj? && IsSchema(schema) && Meets(v, ValidatorReading(schema))
    ensures !Departs(TruthAsNumber, v, schema)
  {
    forall path ensures !DepartsAt(TruthAsNumber, v, schema, path) {
      forall v', schema' | Reaches(v, schema, path, v', schema') ensures !DepartsHere(TruthAsNumber, v', schema') {
        MeetsBelow(v, schema, path, v', schema');
        MeetingDoesNotDepart(v', schema');
      }
    }
  }

  /**
   Main result: for every schema and value the validator decides whether the value meets the schema as it
   reads it, but for integral floats, which it refuses as integers, and truth values, which it takes for numbers.
   */
  lemma ValidatorDecidesItsReading(render: Render, v: Json, schema: Json)
    requires schema.Obj? && IsSchema(schema)
    ensures SchemaErrorOf(render, v, schema).None? && !Departs(TruthAsNumber, v, schema)
            <==> Meets(v, ValidatorReading(schema)) && !Departs(IntegralFloat, v, schema)
  {
    NoErrorIffConforms(render, v, schema);
    if Departs(IntegralFloat, v, schema) { IntegralFloatsAreReported(render, v, schema); }
    if Meets(v, ValidatorReading(schema)) {
      MeetingTakesNoTruthForANumber(v, schema);
      if !Departs(IntegralFloat, v, schema) { MeetingConforms(render, v, schema); }
    } else if Conforms(render, v, schema) && !Departs(TruthAsNumber, v, schema) {
      ConformingMeets(render, v, schema);
    }
  }

  // ---------- Where the readings agree ----------

  /**
   Keywords stand beside the type they are for, "additionalProperties" is true or false, and no property or
   item is ruled out by a schema false, at every level.
   */
  ghost predicate TypedSchema(schema: Json)
    decreases schema, 1
  {
    if schema.Bool? then schema.b
    else
      && (NeedsObject(schema) ==> HasKey(schema, "type") && TypeNames(schema) == ["object"])
      && (HasKey(schema, "additionalProperties") ==>
            || Get(schema, "additionalProperties") == Bool(true)
            || (Get(schema, "additionalProperties") == Bool(false) && NeedsObject(schema)))
      && (HasKey(schema, "items") ==>
            if Get(schema, "type") == Str("array") then TypedSchema(Field(schema, "items")) else Get(schema, "items") == Bool(true))
      && (HasKey(schema, "properties") ==> AreTyped(Field(schema, "properties")))
  }

  ghost predicate AreTyped(p: Json)
    decreases p, 0
  {
    p.Obj? ==> forall i :: 0 <= i < |p.fields| ==> TypedSchema(p.fields[i].1)
  }

  lemma TypesReadAlikeIff(schema: Json)
    requires schema.Obj? && IsSchema(schema)
    ensures TypesRead(schema) == (if HasKey(schema, "type") then Some(TypeNames(schema)) else None)
            <==> (NeedsObject(schema) ==> HasKey(schema, "type") && TypeNames(schema) == ["object"])
  {
    if HasKey(schema, "type") { TypeMatchesIff(Null, schema); }
  }

  lemma AdditionalAgreesIff(schema: Json)
    requires schema.Obj? && IsSchema(schema)
    ensures ValidatorReading(schema).additional == StandardReading(schema).additional
            <==> (HasKey(schema, "additionalProperties") ==>
                    || Get(schema, "additionalProperties") == Bool(true)
                    || (Get(schema, "additionalProperties") == Bool(false) && NeedsObject(schema)))
  {
  }

  lemma SameParts(a: Schema, b: Schema)
    requires a.Keywords? && b.Keywords? && a.enumeration == b.enumeration && a.required == b.required
    ensures a == b <==> a.types == b.types && a.properties == b.properties && a.additional == b.additional && a.items == b.items
  {
  }

  /** Exactly such schemas mean the same to the validator and the standard. */
  lemma {:induction false} ReadingsAgreeIff(schema: Json)
    requires IsSchema(schema)
    ensures ValidatorReading(schema) == StandardReading(schema) <==> TypedSchema(schema)
    decreases schema, 1
  {
    if schema.Obj? {
      SameParts(ValidatorReading(schema), StandardReading(schema));
      TypesReadAlikeIff(schema);
      AdditionalAgreesIff(schema);
      if HasKey(schema, "items") { ReadingsAgreeIff(Field(schema, "items")); }
      if HasKey(schema, "properties") { PropertiesAgreeIff(Field(schema, "properties")); }
    }
  }

  lemma {:induction false} PropertiesAgreeIff(p: Json)
    requires AreSchemas(p)
    ensures ValidatorProperties(p) == StandardProperties(p) <==> AreTyped(p)
    decreases p, 0
  {
    forall i | 0 <= i < |p.fields|
      ensures ValidatorProperties(p)[i] == StandardProperties(p)[i] <==> TypedSchema(p.fields[i].1)
    {
      ReadingsAgreeIff(p.fields[i].1);
    }
  }

  /** Main result: on such schemas the validator follows the standard, but for the two departures. */
  lemma TypedSchemasFollowTheStandard(render: Render, v: Json, schema: Json)
    requires schema.Obj? && IsSchema(schema) && TypedSchema(schema)
    ensures SchemaErrorOf(render, v, schema).None? && !Departs(TruthAsNumber, v, schema)
            <==> Standard(v, schema) && !Departs(IntegralFloat, v, schema)
  {
    ReadingsAgreeIff(schema);
    ValidatorDecidesItsReading(render, v, schema);
  }

  // ---------- Inputs on which validator and standard part ----------

  lemma FieldsOf(key: string, value: Json)
    ensures var j := Obj([(key, value)]);
            && HasKey(j, key) && Get(j, key) == value && Field(j, key) == value && Truthy(j)
            && forall other :: other != key ==> !HasKey(j, other)
  {
    var j := Obj([(key, value)]);
    assert j.fields[0].0 == key;
  }

  lemma TwoFieldsOf(key: string, value: Json, key': string, value': Json)
    requires key != key'
    ensures var j := Obj([(key, value), (key', value')]);
            && HasKey(j, key) && Get(j, key) == value && Field(j, key) == value && Truthy(j)
            && HasKey(j, key') && Get(j, key') == value' && Field(j, key') == value'
            && forall other :: other != key && other != key' ==> !HasKey(j, other)
  {
    var j := Obj([(key, value), (key', value')]);
    assert j.fields[0].0 == key && j.fields[1].0 == key';
    assert j.fields[1..] == [(key', value')];
  }

  lemma MeetsWithoutTypes(v: Json, properties: seq<(string, Schema)>, items: Schema)
    ensures Meets(v, Keywords(None, None, [], properties, Always, items)) <==>
              && (v.Obj? ==> forall i :: 0 <= i < |properties| ==> PropertyMeets(v, properties[i]))
              && (v.Arr? ==> forall i :: 0 <= i < |v.items| ==> Meets(v.items[i], items))
  {
  }

  lemma ObjectMeets(v: Json, properties: seq<(string, Schema)>, additional: Schema)
    ensures Meets(v, Keywords(None, Some(["object"]), [], properties, additional, Always)) <==>
              && v.Obj?
              && (forall i :: 0 <= i < |properties| ==> PropertyMeets(v, properties[i]))
              && (forall i :: 0 <= i < |v.fields| ==> Names(properties, v.fields[i].0) || Meets(v.fields[i].1, additional))
  {
    assert ["object"][0] == "object";
    assert HasOneOf(v, ["object"]) <==> v.Obj?;
  }

  ghost predicate PropertyIsStandard(v: Json, property: (string, Json)) {
    HasKey(v, property.0) ==> Standard(Field(v, property.0), property.1)
  }

  lemma StandardOfPropertiesAlone(v: Json, p: Json)
    requires p.Obj?
    ensures Standard(v, Obj([("properties", p)])) <==> (v.Obj? ==> forall i :: 0 <= i < |p.fields| ==> PropertyIsStandard(v, p.fields[i]))
  {
    var read := StandardProperties(p);
    FieldsOf("properties", p);
    assert StandardReading(Obj([("properties", p)])) == Keywords(None, None, [], read, Always, Always);
    MeetsWithoutTypes(v, read, Always);
    forall i | 0 <= i < |p.fields| ensures PropertyMeets(v, read[i]) <==> PropertyIsStandard(v, p.fields[i]) {}
  }

  /** "properties" alone: the validator refuses what is no object, which the standard takes; of objects each asks what it asks of the properties. */
  lemma PropertiesAloneDemandAnObject(render: Render, v: Json, p: Json)
    requires p.Obj?
    ensures var schema := Obj([("properties", p)]);
            && (!v.Obj? ==> Standard(v, schema) && SchemaErrorOf(render, v, schema) == Fail(NotObject))
            && (v.Obj? ==>
                  && (Standard(v, schema) <==> forall i :: 0 <= i < |p.fields| ==> PropertyIsStandard(v, p.fields[i]))
                  && (SchemaErrorOf(render, v, schema).None? <==> forall i :: 0 <= i < |p.fields| ==> PropertyConforms(render, v, p.fields[i])))
  {
    var schema := Obj([("properties", p)]);
    StandardOfPropertiesAlone(v, p);
    FieldsOf("properties", p);
    if v.Obj? { PropertiesConform(render, v, p.fields); }
    assert Properties(schema) == Some(p);
  }

  /** "items" alone is not looked at: the validator takes every value, the standard only lists whose items conform. */
  lemma ItemsAloneAreIgnored(render: Render, v: Json, child: Json)
    ensures var schema := Obj([("items", child)]);
            && SchemaErrorOf(render, v, schema).None?
            && (Standard(v, schema) <==> (v.Arr? ==> forall i :: 0 <= i < |v.items| ==> Standard(v.items[i], child)))
  {
    FieldsOf("items", child);
    assert StandardReading(Obj([("items", child)])) == Keywords(None, None, [], [], Always, StandardReading(child));
    MeetsWithoutTypes(v, [], StandardReading(child));
  }

  lemma TakesEveryObject(render: Render, v: Json, schema: Json)
    requires schema.Obj? && Truthy(schema) && Get(schema, "type") == Str("object")
    requires !HasKey(schema, "enum") && !HasKey(schema, "required") && Get(schema, "additionalProperties") != Bool(false)
    requires Properties(schema).Some? ==> PropertiesError(render, v, Properties(schema).value.fields).None?
    ensures SchemaErrorOf(render, v, schema).None? <==> v.Obj?
  {
  }

  /** A schema for further properties is not looked at: the validator takes every object. */
  lemma OpenMapsAreIgnored(render: Render, v: Json, child: Json)
    requires child.Obj?
    ensures var schema := Obj([("type", Str("object")), ("additionalProperties", child)]);
            && (SchemaErrorOf(render, v, schema).None? <==> v.Obj?)
            && (Standard(v, schema) <==> v.Obj? && forall i :: 0 <= i < |v.fields| ==> Standard(v.fields[i].1, child))
  {
    var schema := Obj([("type", Str("object")), ("additionalProperties", child)]);
    TwoFieldsOf("type", Str("object"), "additionalProperties", child);
    TakesEveryObject(render, v, schema);
    assert StandardReading(schema) == Keywords(None, Some(["object"]), [], [], StandardReading(child), Always);
    ObjectMeets(v, [], StandardReading(child));
  }

  lemma StandardOfRuledOut(v: Json, key: string)
    ensures Standard(v, Obj([("type", Str("object")), ("properties", Obj([(key, Bool(false))]))])) <==> v.Obj? && !HasKey(v, key)
  {
    var p := Obj([(key, Bool(false))]);
    TwoFieldsOf("type", Str("object"), "properties", p);
    assert StandardProperties(p) == [(key, Never)];
    assert StandardReading(Obj([("type", Str("object")), ("properties", p)]))
        == Keywords(None, Some(["object"]), [], [(key, Never)], Always, Always);
    ObjectMeets(v, [(key, Never)], Always);
    assert PropertyMeets(v, [(key, Never)][0]) <==> !HasKey(v, key);
  }

  /** A property ruled out by the schema false goes through all the same. */
  lemma RuledOutPropertiesGoThrough(render: Render, v: Json, key: string)
    ensures var schema := Obj([("type", Str("object")), ("properties", Obj([(key, Bool(false))]))]);
            && (SchemaErrorOf(render, v, schema).None? <==> v.Obj?)
            && (Standard(v, schema) <==> v.Obj? && !HasKey(v, key))
  {
    var p := Obj([(key, Bool(false))]);
    var schema := Obj([("type", Str("object")), ("properties", p)]);
    TwoFieldsOf("type", Str("object"), "properties", p);
    assert p.fields[1..] == [] && PropertiesError(render, v, p.fields).None?;
    TakesEveryObject(render, v, schema);
    StandardOfRuledOut(v, key);
  }

  /** One input: {"x": 1} where strings are asked for. */
  lemma OpenMapTakesANumberForAString(render: Render)
    ensures var schema := Obj([("type", Str("object")), ("additionalProperties", Obj([("type", Str("string"))]))]);
            SchemaErrorOf(render, Obj([("x", Int(1))]), schema).None? && !Standard(Obj([("x", Int(1))]), schema)
  {
    var v, child := Obj([("x", Int(1))]), Obj([("type", Str("string"))]);
    OpenMapsAreIgnored(render, v, child);
    FieldsOf("type", Str("string"));
    assert !Standard(v.fields[0].1, child);
  }

  /** One input: {"a": 1} where "a" is ruled out. */
  lemma RuledOutPropertyGoesThrough(render: Render)
    ensures var schema := Obj([("type", Str("object")), ("properties", Obj([("a", Bool(false))]))]);
            SchemaErrorOf(render, Obj([("a", Int(1))]), schema).None? && !Standard(Obj([("a", Int(1))]), schema)
  {
    FieldsOf("a", Int(1));
    RuledOutPropertiesGoThrough(render, Obj([("a", Int(1))]), "a");
  }

  /** One input: a list that holds null against strings. */
  lemma IgnoredItemsLetNullThrough(render: Render)
    ensures var schema := Obj([("items", Obj([("type", Str("string"))]))]);
            SchemaErrorOf(render, Arr([Null]), schema).None? && !Standard(Arr([Null]), schema)
  {
    var child := Obj([("type", Str("string"))]);
    ItemsAloneAreIgnored(render, Arr([Null]), child);
    FieldsOf("type", Str("string"));
    assert !Standard(Arr([Null]).items[0], child);
  }

  /** One input: 1.0 is an integer to the standard and not to the validator. */
  lemma IntegralFloatIsNoInteger(render: Render)
    ensures var schema := Obj([("type", Str("integer"))]);
            Standard(Float(ONE), schema) && SchemaErrorOf(render, Float(ONE), schema) == Fail(WrongType)
  {
    FieldsOf("type", Str("integer"));
    assert ["integer"][0] == "integer";
  }

  /** One input: True is 1 to the validator and not to the standard. */
  lemma TrueIsTakenForOne(render: Render)
    ensures var schema := Obj([("enum", Arr([Int(1)]))]);
            SchemaErrorOf(render, Bool(true), schema).None? && !Standard(Bool(true), schema)
  {
    FieldsOf("enum", Arr([Int(1)]));
    assert Equal(Bool(true), [Int(1)][0], true);
    assert !Equal(Bool(true), Int(1), false);
  }
}