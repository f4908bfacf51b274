/** Normalisation of a resolved response schema to the strict subset providers share. */
module SchemaNormal {
  import opened Prelude
  import opened Json
  import opened SchemaRefs

  const REMOVED: set<string> := {
    "$defs", "$ref", "allOf", "anyOf", "default", "examples",
    "maxItems", "maxLength", "minItems", "minLength", "oneOf", "title"
  }

  /** The twelve removed keywords. */
  lemma RemovedAre(key: string)
    ensures key in REMOVED <==>
      || key == "$defs" || key == "$ref" || key == "allOf" || key == "anyOf" || key == "oneOf" || key == "default"
      || key == "examples" || key == "title" || key == "maxItems" || key == "minItems" || key == "maxLength" || key == "minLength"
  {
  }

  // ----- The specification -------------------------------------------------------------

  function Normal(v: Json): Result<Json, SchemaError>
    decreases v, 0
  {
    match v
    case Arr(items) =>
      var r := NormalItems(items);
      if r.Err? then Err(r.error) else Ok(Arr(r.value))
    case Obj(fields) =>
      var r := NormalFields(fields);
      if r.Err? then Err(r.error) else Finish(r.value)
    case _ => Ok(v)
  }

  function NormalItems(items: Items): Result<Items, SchemaError> {
    if items.NoItems? then Ok(NoItems)
    else
      var head := Normal(items.head);
      if head.Err? then Err(head.error)
      else
        var rest := NormalItems(items.rest);
        if rest.Err? then rest else Ok(Item(head.value, rest.value))
  }

  /** The keywords of a schema object. The names under `properties` are not keywords. */
  function NormalFields(fs: Fields): Result<Fields, SchemaError> {
    if fs.NoFields? then Ok(NoFields)
    else if fs.key in REMOVED then NormalFields(fs.rest)
    else
      var value := NormalMember(fs.key, fs.value);
      if value.Err? then Err(value.error)
      else
        var rest := NormalFields(fs.rest);
        if rest.Err? then rest else Ok(Field(fs.key, value.value, rest.value))
  }

  function NormalMember(key: string, v: Json): Result<Json, SchemaError>
    decreases v, 1
  {
    if key == "properties" && v.Obj? then
      var r := NormalProperties(v.fields);
      if r.Err? then Err(r.error) else Ok(Obj(r.value))
    else Normal(v)
  }

  function NormalProperties(fs: Fields): Result<Fields, SchemaError> {
    if fs.NoFields? then Ok(NoFields)
    else
      var value := Normal(fs.value);
      if value.Err? then Err(value.error)
      else
        var rest := NormalProperties(fs.rest);
        if rest.Err? then rest else Ok(Field(fs.key, value.value, rest.value))
  }

  /** The properties of an object schema: none at all is an empty object. */
  function Properties(fs: Fields): Option<Fields> {
    var p := Get(fs, "properties");
    if p.None? then Some(NoFields) else if p.value.Obj? then Some(p.value.fields) else None
  }

  predicate IsObject(fs: Fields) { Get(fs, "type") == Some(Str("object")) }

  function Finish(fs: Fields): Result<Json, SchemaError> {
    if !IsObject(fs) then Ok(Obj(fs))
    else if Properties(fs).None? then Err(NotAnObject)
    else Ok(Obj(Put(Put(fs, "required", Arr(Names(Keys(Properties(fs).value)))), "additionalProperties", Bool(false))))
  }

  // ----- Normal forms --------------------------------------------------------------------

  /** No removed keyword anywhere except as a property name, and every object schema lists
      exactly its property names, in order, as required and allows no others. */
  ghost predicate NormalForm(v: Json)
    decreases v, 0
  {
    match v
    case Arr(items) => NormalFormItems(items)
    case Obj(fields) =>
      && NormalFormFields(fields)
      && (IsObject(fields) ==>
            && Properties(fields).Some?
            && Get(fields, "required") == Some(Arr(Names(Keys(Properties(fields).value))))
            && Get(fields, "additionalProperties") == Some(Bool(false)))
    case _ => true
  }

  ghost predicate NormalFormItems(items: Items) {
    items.Item? ==> NormalForm(items.head) && NormalFormItems(items.rest)
  }

  ghost predicate NormalFormFields(fs: Fields) {
    fs.Field? ==> fs.key !in REMOVED && NormalFormMember(fs.key, fs.value) && NormalFormFields(fs.rest)
  }

  ghost predicate NormalFormMember(key: string, v: Json)
    decreases v, 1
  {
    if key == "properties" && v.Obj? then NormalFormProperties(v.fields) else NormalForm(v)
  }

  ghost predicate NormalFormProperties(fs: Fields) {
    fs.Field? ==> NormalForm(fs.value) && NormalFormProperties(fs.rest)
  }

  lemma {:induction false} NamesNormal(names: seq<string>)
    ensures NormalFormItems(Names(names))
  {
    if names != [] { NamesNormal(names[1..]); }
  }

  lemma {:induction false} PutNormal(fs: Fields, key: string, v: Json)
    requires NormalFormFields(fs) && key !in REMOVED && key != "properties" && NormalForm(v)
    ensures NormalFormFields(Put(fs, key, v))
  {
    if fs.Field? && fs.key != key { PutNormal(fs.rest, key, v); }
  }

  /** The two keywords an object schema gets do not disturb the ones it is decided by. */
  lemma FinishKeeps(fs: Fields, required: Json)
    ensures var done := Put(Put(fs, "required", required), "additionalProperties", Bool(false));
            && Get(done, "required") == Some(required) && Get(done, "additionalProperties") == Some(Bool(false))
            && forall k :: k != "required" && k != "additionalProperties" ==> Get(done, k) == Get(fs, k)
  {
    var once := Put(fs, "required", required);
    forall k ensures Get(Put(once, "additionalProperties", Bool(false)), k)
                     == if k == "additionalProperties" then Some(Bool(false)) else if k == "required" then Some(required) else Get(fs, k)
    {
      GetPut(fs, "required", required, k);
      GetPut(once, "additionalProperties", Bool(false), k);
    }
  }

  lemma FinishNormal(fs: Fields)
    requires NormalFormFields(fs) && Finish(fs).Ok?
    ensures NormalForm(Finish(fs).value)
  {
    if IsObject(fs) {
      var names := Keys(Properties(fs).value);
      var required := Arr(Names(names));
      NamesNormal(names);
      PutNormal(fs, "required", required);
      PutNormal(Put(fs, "required", required), "additionalProperties", Bool(false));
      FinishKeeps(fs, required);
    }
  }

  /** Normalisation produces a normal form. */
  lemma {:induction false} NormalIsNormal(v: Json)
    requires Normal(v).Ok?
    ensures NormalForm(Normal(v).value)
    decreases v, 0
  {
    match v
    case Arr(items) => ItemsNormal(items);
    case Obj(fields) =>
      FieldsNormal(fields);
      FinishNormal(NormalFields(fields).value);
    case _ =>
  }

  lemma {:induction false} ItemsNormal(items: Items)
    requires NormalItems(items).Ok?
    ensures NormalFormItems(NormalItems(items).value)
  {
    if items.Item? {
      NormalIsNormal(items.head);
      ItemsNormal(items.rest);
    }
  }

  lemma {:induction false} FieldsNormal(fs: Fields)
    requires NormalFields(fs).Ok?
    ensures NormalFormFields(NormalFields(fs).value)
  {
    if fs.Field? {
      FieldsNormal(fs.rest);
      if fs.key !in REMOVED { MemberNormal(fs.key, fs.value); }
    }
  }

  lemma {:induction false} MemberNormal(key: string, v: Json)
    requires NormalMember(key, v).Ok?
    ensures NormalFormMember(key, NormalMember(key, v).value)
    decreases v, 1
  {
    if key == "properties" && v.Obj? {
      PropertiesNormal(v.fields);
    } else {
      NormalIsNormal(v);
      NormalKeepsKind(v);
    }
  }

  lemma {:induction false} PropertiesNormal(fs: Fields)
    requires NormalProperties(fs).Ok?
    ensures NormalFormProperties(NormalProperties(fs).value)
    ensures Keys(NormalProperties(fs).value) == Keys(fs)
  {
    if fs.Field? {
      NormalIsNormal(fs.value);
      PropertiesNormal(fs.rest);
    }
  }

  lemma NormalKeepsKind(v: Json)
    requires Normal(v).Ok?
    ensures Normal(v).value.Obj? <==> v.Obj?
    ensures Normal(v).value == Str("object") <==> v == Str("object")
  {
  }

  /** Normal forms are exactly the fixed points of normalisation. */
  lemma NormalFormIff(v: Json)
    ensures NormalForm(v) <==> Normal(v) == Ok(v)
  {
    if NormalForm(v) { Fixed(v); }
    if Normal(v) == Ok(v) { NormalIsNormal(v); }
  }

  lemma {:induction false} Fixed(v: Json)
    requires NormalForm(v)
    ensures Normal(v) == Ok(v)
  {
    match v
    case Arr(items) => ItemsFixed(items);
    case Obj(fields) =>
      FieldsFixed(fields);
      if IsObject(fields) {
        PutSame(fields, "required");
        PutSame(fields, "additionalProperties");
      }
    case _ =>
  }

  lemma {:induction false} ItemsFixed(items: Items)
    requires NormalFormItems(items)
    ensures NormalItems(items) == Ok(items)
  {
    if items.Item? {
      Fixed(items.head);
      ItemsFixed(items.rest);
    }
  }

  lemma {:induction false} FieldsFixed(fs: Fields)
    requires NormalFormFields(fs)
    ensures NormalFields(fs) == Ok(fs)
  {
    if fs.Field? {
      if fs.key == "properties" && fs.value.Obj? { PropertiesFixed(fs.value.fields); } else { Fixed(fs.value); }
      FieldsFixed(fs.rest);
    }
  }

  lemma {:induction false} PropertiesFixed(fs: Fields)
    requires NormalFormProperties(fs)
    ensures NormalProperties(fs) == Ok(fs)
  {
    if fs.Field? {
      Fixed(fs.value);
      PropertiesFixed(fs.rest);
    }
  }

  /** Normalising twice is normalising once. */
  lemma Idempotent(v: Json)
    requires Normal(v).Ok?
    ensures Normal(Normal(v).value) == Normal(v)
  {
    NormalIsNormal(v);
    Fixed(Normal(v).value);
  }

  // ----- What is kept ------------------------------------------------------------------

  /** A keyword that is not removed is kept, normalised; a removed one is gone. */
  lemma {:induction false} FieldsGet(fs: Fields, key: string)
    requires NormalFields(fs).Ok?
    ensures Get(NormalFields(fs).value, key).Some? <==> key !in REMOVED && Get(fs, key).Some?
    ensures key !in REMOVED && Get(fs, key).Some? ==>
              NormalMember(key, Get(fs, key).value) == Ok(Get(NormalFields(fs).value, key).value)
  {
    if fs.Field? { FieldsGet(fs.rest, key); }
  }

  /** Lists are normalised element by element. */
  lemma {:induction false} NormalElements(items: Items)
    requires NormalItems(items).Ok?
    ensures |Elements(NormalItems(items).value)| == |Elements(items)|
    ensures forall i :: 0 <= i < |Elements(items)| ==> Normal(Elements(items)[i]) == Ok(Elements(NormalItems(items).value)[i])
  {
    if items.Item? { NormalElements(items.rest); }
  }

  /** The keywords that stay keep their order. */
  lemma {:induction false} FieldsOrder(fs: Fields)
    requires NormalFields(fs).Ok?
    ensures Keys(NormalFields(fs).value) == Staying(Keys(fs))
  {
    if fs.Field? { FieldsOrder(fs.rest); }
  }

  function Staying(keys: seq<string>): seq<string> {
    if keys == [] then [] else (if keys[0] in REMOVED then [] else [keys[0]]) + Staying(keys[1..])
  }

  lemma NormalFinishes(fs: Fields)
    requires Normal(Obj(fs)).Ok?
    ensures NormalFields(fs).Ok? && Normal(Obj(fs)) == Finish(NormalFields(fs).value)
  {
  }

  lemma FinishProperties(fs: Fields)
    requires Finish(fs).Ok?
    ensures Finish(fs).value.Obj? && Get(Finish(fs).value.fields, "properties") == Get(fs, "properties")
  {
    if IsObject(fs) { FinishKeeps(fs, Arr(Names(Keys(Properties(fs).value)))); }
  }

  /** Every property name survives, in order, whatever it is, and each property's schema is the
      normalised one. */
  lemma PropertiesKept(fs: Fields, ps: Fields, key: string)
    requires Get(fs, "properties") == Some(Obj(ps)) && Normal(Obj(fs)).Ok?
    ensures NormalProperties(ps).Ok? && Properties(Normal(Obj(fs)).value.fields) == Some(NormalProperties(ps).value)
    ensures Keys(NormalProperties(ps).value) == Keys(ps)
    ensures Get(ps, key).Some? ==> Get(NormalProperties(ps).value, key).Some?
                                   && Normal(Get(ps, key).value) == Ok(Get(NormalProperties(ps).value, key).value)
  {
    hide Normal, NormalFields, NormalProperties, Finish;
    NormalFinishes(fs);
    FieldsGet(fs, "properties");
    FinishProperties(NormalFields(fs).value);
    PropertiesNormal(ps);
    PropertiesGet(ps, key);
  }

  lemma {:induction false} PropertiesGet(ps: Fields, key: string)
    requires NormalProperties(ps).Ok?
    ensures Get(ps, key).Some? ==> Get(NormalProperties(ps).value, key).Some?
                                   && Normal(Get(ps, key).value) == Ok(Get(NormalProperties(ps).value, key).value)
  {
    if ps.Field? { PropertiesGet(ps.rest, key); }
  }

  // ----- When it succeeds ----------------------------------------------------------------

  /** Wherever a schema that is kept says "object", its properties are an object or absent. */
  ghost predicate Shaped(v: Json) {
    match v
    case Arr(items) => ShapedItems(items)
    case Obj(fields) => ShapedFields(fields) && (IsObject(fields) ==> Properties(fields).Some?)
    case _ => true
  }

  ghost predicate ShapedItems(items: Items) { items.Item? ==> Shaped(items.head) && ShapedItems(items.rest) }

  ghost predicate ShapedFields(fs: Fields) {
    fs.Field? ==>
      && (fs.key in REMOVED || if fs.key == "properties" && fs.value.Obj? then ShapedProperties(fs.value.fields) else Shaped(fs.value))
      && ShapedFields(fs.rest)
  }

  ghost predicate ShapedProperties(fs: Fields) { fs.Field? ==> Shaped(fs.value) && ShapedProperties(fs.rest) }

  /** Normalisation succeeds exactly on well-shaped schemas. */
  lemma {:induction false} NormalOkIff(v: Json)
    ensures Normal(v).Ok? <==> Shaped(v)
  {
    match v
    case Arr(items) => ItemsOkIff(items);
    case Obj(fields) =>
      FieldsOkIff(fields);
      if NormalFields(fields).Ok? { FinishIff(fields); }
    case _ =>
  }

  lemma FinishIff(fs: Fields)
    requires NormalFields(fs).Ok?
    ensures IsObject(NormalFields(fs).value) <==> IsObject(fs)
    ensures Properties(NormalFields(fs).value).Some? <==> Properties(fs).Some?
  {
    FieldsGet(fs, "type");
    FieldsGet(fs, "properties");
    if Get(fs, "type").Some? { NormalKeepsKind(Get(fs, "type").value); }
    if Get(fs, "properties").Some? && !Get(fs, "properties").value.Obj? { NormalKeepsKind(Get(fs, "properties").value); }
  }

  lemma {:induction false} ItemsOkIff(items: Items)
    ensures NormalItems(items).Ok? <==> ShapedItems(items)
  {
    if items.Item? {
      NormalOkIff(items.head);
      ItemsOkIff(items.rest);
    }
  }

  lemma {:induction false} FieldsOkIff(fs: Fields)
    ensures NormalFields(fs).Ok? <==> ShapedFields(fs)
  {
    if fs.Field? {
      if fs.key == "properties" && fs.value.Obj? { PropertiesOkIff(fs.value.fields); } else { NormalOkIff(fs.value); }
      FieldsOkIff(fs.rest);
    }
  }

  lemma {:induction false} PropertiesOkIff(fs: Fields)
    ensures NormalProperties(fs).Ok? <==> ShapedProperties(fs)
  {
    if fs.Field? {
      NormalOkIff(fs.value);
      PropertiesOkIff(fs.rest);
    }
  }
}
