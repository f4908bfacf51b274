/** The normaliser as it runs, filling a fresh dictionary key by key, and the whole schema pipeline. */
module SchemaFlat {
  import opened Prelude
  import opened Json
  import opened SchemaRefs
  import opened SchemaNormal

  // ----- Appending -------------------------------------------------------------------

  function Snoc(items: Items, x: Json): Items {
    if items.NoItems? then Item(x, NoItems) else Item(items.head, Snoc(items.rest, x))
  }

  function Concat(a: Items, b: Items): Items {
    if a.NoItems? then b else Item(a.head, Concat(a.rest, b))
  }

  function Join(a: Fields, b: Fields): Fields {
    if a.NoFields? then b else Field(a.key, a.value, Join(a.rest, b))
  }

  lemma {:induction false} SnocConcat(a: Items, x: Json, b: Items)
    ensures Concat(Snoc(a, x), b) == Concat(a, Item(x, b))
  {
    if a.Item? { SnocConcat(a.rest, x, b); }
  }

  lemma {:induction false} ConcatNothing(a: Items)
    ensures Concat(a, NoItems) == a
  {
    if a.Item? { ConcatNothing(a.rest); }
  }

  /** Assigning a new key adds it at the end. */
  lemma {:induction false} PutJoin(a: Fields, key: string, v: Json, b: Fields)
    requires Get(a, key).None?
    ensures Join(Put(a, key, v), b) == Join(a, Field(key, v, b))
  {
    if a.Field? { PutJoin(a.rest, key, v, b); }
  }

  lemma {:induction false} JoinNothing(a: Fields)
    ensures Join(a, NoFields) == a
  {
    if a.Field? { JoinNothing(a.rest); }
  }

  /** No key of the one occurs in the other. */
  ghost predicate Apart(a: Fields, b: Fields) { forall k :: Get(a, k).None? || Get(b, k).None? }

  function AfterItems(done: Items, r: Result<Items, SchemaError>): Result<Items, SchemaError> {
    if r.Err? then r else Ok(Concat(done, r.value))
  }

  function AfterFields(done: Fields, r: Result<Fields, SchemaError>): Result<Fields, SchemaError> {
    if r.Err? then r else Ok(Join(done, r.value))
  }

  lemma ApartPut(done: Fields, fs: Fields, v: Json)
    requires fs.Field? && Get(fs.rest, fs.key).None? && Apart(done, fs)
    ensures Apart(Put(done, fs.key, v), fs.rest) && Get(done, fs.key).None?
  {
    assert Get(fs, fs.key).Some?;
    forall k ensures Get(Put(done, fs.key, v), k).None? || Get(fs.rest, k).None? {
      GetPut(done, fs.key, v, k);
      assert Get(done, k).None? || Get(fs, k).None?;
    }
  }

  // ----- The normaliser ----------------------------------------------------------------

  method Normalize(v: Json) returns (r: Result<Json, SchemaError>)
    requires WellFormed(v)
    ensures r == Normal(v)
    decreases v, 0
  {
    match v {
      case Arr(items) =>
        var list := NormalizeItems(items);
        return if list.Err? then Err(list.error) else Ok(Arr(list.value));
      case Obj(fields) =>
        var kept := NormalizeKeywords(fields);
        if kept.Err? { return Err(kept.error); }
        var result := kept.value;
        if Get(result, "type") == Some(Str("object")) {
          var properties := Properties(result);
          if properties.None? { return Err(NotAnObject); }
          result := Put(result, "required", Arr(Names(Keys(properties.value))));
          result := Put(result, "additionalProperties", Bool(false));
        }
        return Ok(Obj(result));
      case _ => return Ok(v);
    }
  }

  method NormalizeItems(items: Items) returns (r: Result<Items, SchemaError>)
    requires WellFormedItems(items)
    ensures r == NormalItems(items)
    decreases items
  {
    var done, left := NoItems, items;
    while left.Item?
      invariant WellFormedItems(left) && (left == items || left < items)
      invariant NormalItems(items) == AfterItems(done, NormalItems(left))
      decreases left
    {
      var head := Normalize(left.head);
      if head.Err? { return Err(head.error); }
      if NormalItems(left.rest).Ok? { SnocConcat(done, head.value, NormalItems(left.rest).value); }
      done, left := Snoc(done, head.value), left.rest;
    }
    ConcatNothing(done);
    return Ok(done);
  }

  /** Fills a fresh dictionary with the keywords that stay, in order. */
  method NormalizeKeywords(fs: Fields) returns (r: Result<Fields, SchemaError>)
    requires WellFormedFields(fs)
    ensures r == NormalFields(fs)
    decreases fs
  {
    var result, left := NoFields, fs;
    while left.Field?
      invariant WellFormedFields(left) && (left == fs || left < fs)
      invariant NormalFields(fs) == AfterFields(result, NormalFields(left)) && Apart(result, left)
      decreases left
    {
      if left.key !in REMOVED {
        var value: Result<Json, SchemaError>;
        if left.key == "properties" && left.value.Obj? {
          var properties := NormalizeProperties(left.value.fields);
          value := if properties.Err? then Err(properties.error) else Ok(Obj(properties.value));
        } else {
          value := Normalize(left.value);
        }
        if value.Err? { return Err(value.error); }
        ApartPut(result, left, value.value);
        if NormalFields(left.rest).Ok? { PutJoin(result, left.key, value.value, NormalFields(left.rest).value); }
        result := Put(result, left.key, value.value);
      } else {
        ApartRest(result, left);
      }
      left := left.rest;
    }
    JoinNothing(result);
    return Ok(result);
  }

  lemma ApartRest(done: Fields, fs: Fields)
    requires fs.Field? && Apart(done, fs)
    ensures Apart(done, fs.rest)
  {
    forall k ensures Get(done, k).None? || Get(fs.rest, k).None? {
      assert Get(done, k).None? || Get(fs, k).None?;
    }
  }

  method NormalizeProperties(fs: Fields) returns (r: Result<Fields, SchemaError>)
    requires WellFormedFields(fs)
    ensures r == NormalProperties(fs)
    decreases fs
  {
    var result, left := NoFields, fs;
    while left.Field?
      invariant WellFormedFields(left) && (left == fs || left < fs)
      invariant NormalProperties(fs) == AfterFields(result, NormalProperties(left)) && Apart(result, left)
      decreases left
    {
      var value := Normalize(left.value);
      if value.Err? { return Err(value.error); }
      ApartPut(result, left, value.value);
      if NormalProperties(left.rest).Ok? { PutJoin(result, left.key, value.value, NormalProperties(left.rest).value); }
      result := Put(result, left.key, value.value);
      left := left.rest;
    }
    JoinNothing(result);
    return Ok(result);
  }

  // ----- The pipeline --------------------------------------------------------------------

  /** The definitions of a model's schema; a schema without any has none. */
  function Definitions(source: Fields): Result<Fields, SchemaError> {
    var d := Get(source, "$defs");
    if d.None? then Ok(NoFields) else if d.value.Obj? then Ok(d.value.fields) else Err(NotAnObject)
  }

  /** The outcome for a model with these definitions: the normal form of the expansion, when every
      reference expands and the expansion is well shaped, and an error otherwise. */
  ghost predicate FlattensWith(source: Fields, defs: Fields, r: Result<Json, SchemaError>) {
    var resolved := Resolve(Obj(source), defs, {});
    && (r.Ok? <==> Expandable(Obj(source), defs, {}) && resolved.Ok? && Shaped(resolved.value))
    && (r.Ok? ==> r == Normal(resolved.value))
  }

  /** Builds the strict schema of a response model. It succeeds exactly when the definitions are
      an object, every reference expands, and the expansion is well shaped. */
  method FlatStrictSchema(source: Fields) returns (r: Result<Json, SchemaError>)
    requires WellFormedFields(source)
    ensures r.Ok? <==>
      && Definitions(source).Ok? && Expandable(Obj(source), Definitions(source).value, {})
      && var resolved := Resolve(Obj(source), Definitions(source).value, {});
      resolved.Ok? && Shaped(resolved.value)
    ensures r.Ok? ==> r.value.Obj? && NormalForm(r.value)
    ensures r.Ok? ==> r == Normal(Resolve(Obj(source), Definitions(source).value, {}).value)
    ensures Get(source, "$defs").Some? && !Get(source, "$defs").value.Obj? ==> r.Err?
    ensures Get(source, "$defs").None? ==> FlattensWith(source, NoFields, r)
    ensures Get(source, "$defs").Some? && Get(source, "$defs").value.Obj? ==> FlattensWith(source, Get(source, "$defs").value.fields, r)
  {
    hide Normal, NormalForm, Resolve, Shaped, Expandable;
    var definitions := Definitions(source);
    if definitions.Err? { return Err(definitions.error); }
    ResolveIff(Obj(source), definitions.value);
    DefinitionsWellFormed(source);
    var resolved := Resolve(Obj(source), definitions.value, {});
    if resolved.Err? { return Err(resolved.error); }
    ResolveWellFormed(Obj(source), definitions.value, {});
    NormalOkIff(resolved.value);
    r := Normalize(resolved.value);
    if r.Ok? {
      ResolveObject(Obj(source), definitions.value, {});
      NormalIsNormal(resolved.value);
      NormalKeepsKind(resolved.value);
    }
  }

  lemma DefinitionsWellFormed(source: Fields)
    requires WellFormedFields(source) && Definitions(source).Ok?
    ensures WellFormedFields(Definitions(source).value)
  {
    if Get(source, "$defs").Some? { GetWellFormed(source, "$defs"); }
  }

  /** An object resolves to an object. */
  lemma {:induction false} ResolveObject(v: Json, defs: Fields, active: set<string>)
    requires v.Obj? && Resolve(v, defs, active).Ok?
    ensures Resolve(v, defs, active).value.Obj?
    decreases |Unused(defs, active)|
  {
    if Reference(v.fields).Some? {
      var name := Target(Reference(v.fields).value).value;
      SmallerUnused(defs, active, name);
      ResolveObject(Obj(Merged(Get(defs, name).value.fields, v.fields)), defs, active + {name});
    }
  }

  // ----- An instance -------------------------------------------------------------------------

  function One(key: string, v: Json): Fields { Field(key, v, NoFields) }

  function Typed(name: string, rest: Fields): Fields { Field("type", Str(name), rest) }

  /** A definition with a title to be removed and a property of that name to be kept. */
  const FINDING: Fields :=
    Typed("object", Field("description", Str("inner"), Field("title", Str("Finding"), One("properties", Obj(PROPERTIES)))))

  const PROPERTIES: Fields := One("title", Obj(Typed("string", One("maxLength", Num(9.0)))))

  const DEFS: Fields := One("Finding", Obj(FINDING))

  /** A reference to it, with a sibling that overrides one of its keys. */
  const REFERENCE: Fields := Field("$ref", Str("#/$defs/Finding"), One("description", Str("outer")))

  const COUNT: Fields := Typed("integer", One("default", Num(0.0)))

  /** A model with both. */
  const NESTED: Fields :=
    Field("$defs", Obj(DEFS), Typed("object",
      Field("properties", Obj(Field("f", Obj(REFERENCE), One("g", Obj(COUNT)))), One("title", Str("Report")))))

  const EXPANDED: Fields :=
    Typed("object", Field("description", Str("outer"), Field("title", Str("Finding"), One("properties", Obj(PROPERTIES)))))

  const INNER: Fields :=
    Typed("object", Field("description", Str("outer"),
      Field("properties", Obj(One("title", Obj(One("type", Str("string"))))),
      Field("required", Arr(Item(Str("title"), NoItems)), One("additionalProperties", Bool(false))))))

  const FLATTENED: Fields :=
    Typed("object",
      Field("properties", Obj(Field("f", Obj(INNER), One("g", Obj(One("type", Str("integer")))))),
      Field("required", Arr(Item(Str("f"), Item(Str("g"), NoItems))), One("additionalProperties", Bool(false)))))

  lemma ReferenceExpands()
    ensures Resolve(Obj(REFERENCE), DEFS, {}) == Ok(Obj(EXPANDED))
  {
    assert Reference(REFERENCE) == Some(Str("#/$defs/Finding"));
    TargetMeans(Str("#/$defs/Finding"), "Finding");
    assert "#/$defs/" + "Finding" == "#/$defs/Finding";
    assert Get(DEFS, "Finding") == Some(Obj(FINDING));
    ReferenceMerges();
    FlatFixed(Obj(EXPANDED), DEFS, {"Finding"}) by { ExpandedFlat(); }
    assert {} + {"Finding"} == {"Finding"};
  }

  lemma ReferenceMerges()
    ensures Merged(FINDING, REFERENCE) == EXPANDED
  {
    assert Without(REFERENCE, "$ref") == One("description", Str("outer"));
    assert Put(FINDING, "description", Str("outer")) == EXPANDED;
  }

  lemma ExpandedFlat()
    ensures Flat(Obj(EXPANDED)) && Flat(Obj(COUNT))
  {
    assert Flat(Obj(PROPERTIES.value.fields)) && Flat(Obj(PROPERTIES));
  }

  lemma NestedExpands()
    ensures Resolve(Obj(NESTED), DEFS, {}) == Ok(Obj(Typed("object",
              Field("properties", Obj(Field("f", Obj(EXPANDED), One("g", Obj(COUNT)))), One("title", Str("Report"))))))
  {
    ReferenceExpands();
    ExpandedFlat();
    FlatFixed(Obj(COUNT), DEFS, {});
    var properties := Field("f", Obj(REFERENCE), One("g", Obj(COUNT)));
    assert ResolveFields(properties.rest, DEFS, {}) == Ok(One("g", Obj(COUNT)));
    assert ResolveFields(properties, DEFS, {}) == Ok(Field("f", Obj(EXPANDED), One("g", Obj(COUNT))));
    assert Resolve(Obj(properties), DEFS, {}) == Ok(Obj(Field("f", Obj(EXPANDED), One("g", Obj(COUNT)))));
    var last := One("title", Str("Report"));
    assert ResolveFields(last, DEFS, {}) == Ok(last);
    assert Reference(NESTED) == None;
  }

  lemma ExpandedNormal()
    ensures Normal(Obj(EXPANDED)) == Ok(Obj(INNER))
  {
    var text := Typed("string", One("maxLength", Num(9.0)));
    assert NormalFields(One("maxLength", Num(9.0))) == Ok(NoFields);
    assert NormalFields(text) == Ok(One("type", Str("string")));
    assert NormalProperties(PROPERTIES) == Ok(One("title", Obj(One("type", Str("string")))));
    var properties := One("properties", Obj(One("title", Obj(One("type", Str("string"))))));
    assert NormalFields(EXPANDED.rest.rest.rest) == Ok(properties);
    assert NormalFields(EXPANDED.rest.rest) == Ok(properties);
    assert NormalFields(EXPANDED.rest) == Ok(Field("description", Str("outer"), properties));
    var kept := Typed("object", Field("description", Str("outer"), properties));
    assert NormalFields(EXPANDED) == Ok(kept);
    assert Keys(properties.value.fields) == ["title"];
    assert Names(["title"]) == Item(Str("title"), NoItems);
    assert Finish(kept) == Ok(Obj(INNER));
  }

  lemma PairNormal()
    ensures NormalProperties(Field("f", Obj(EXPANDED), One("g", Obj(COUNT))))
         == Ok(Field("f", Obj(INNER), One("g", Obj(One("type", Str("integer"))))))
  {
    ExpandedNormal();
    assert NormalFields(One("default", Num(0.0))) == Ok(NoFields);
    assert NormalFields(COUNT) == Ok(One("type", Str("integer")));
    assert Normal(Obj(COUNT)) == Ok(Obj(One("type", Str("integer"))));
    assert NormalProperties(One("g", Obj(COUNT))) == Ok(One("g", Obj(One("type", Str("integer")))));
  }

  lemma ModelNormal(properties: Fields, small: Fields)
    requires NormalProperties(properties) == Ok(small) && Keys(small) == ["f", "g"]
    ensures Normal(Obj(Typed("object", Field("properties", Obj(properties), One("title", Str("Report"))))))
         == Ok(Obj(Typed("object", Field("properties", Obj(small),
              Field("required", Arr(Item(Str("f"), Item(Str("g"), NoItems))), One("additionalProperties", Bool(false)))))))
  {
    var title := One("title", Str("Report"));
    assert NormalFields(title) == Ok(NoFields);
    assert NormalFields(Field("properties", Obj(properties), title)) == Ok(One("properties", Obj(small)));
    var kept := Typed("object", One("properties", Obj(small)));
    assert NormalFields(Typed("object", Field("properties", Obj(properties), title))) == Ok(kept);
    FinishModel(small);
    hide Finish;
    assert NormalFields(Typed("object", Field("properties", Obj(properties), title))).value == kept;
  }

  lemma FinishModel(small: Fields)
    requires Keys(small) == ["f", "g"]
    ensures Finish(Typed("object", One("properties", Obj(small))))
         == Ok(Obj(Typed("object", Field("properties", Obj(small),
              Field("required", Arr(Item(Str("f"), Item(Str("g"), NoItems))), One("additionalProperties", Bool(false)))))))
  {
    var kept, required := Typed("object", One("properties", Obj(small))), Arr(Item(Str("f"), Item(Str("g"), NoItems)));
    assert ["f", "g"][1..] == ["g"] && ["g"][1..] == [];
    assert Names(["g"]) == Item(Str("g"), NoItems);
    assert Names(["f", "g"]) == required.items;
    assert "type"[0] != "properties"[0] && "type"[0] != "required"[0] && "properties"[0] != "required"[0];
    assert "additionalProperties"[0] != "type"[0] && "additionalProperties"[0] != "properties"[0] && "additionalProperties"[0] != "required"[0];
    assert Get(kept.rest, "properties") == Some(Obj(small));
    assert Put(kept.rest, "required", required) == Field("properties", Obj(small), One("required", required));
    var with := Put(kept, "required", required);
    assert Put(with.rest.rest, "additionalProperties", Bool(false)) == Field("required", required, One("additionalProperties", Bool(false)));
    assert Put(with.rest, "additionalProperties", Bool(false))
        == Field("properties", Obj(small), Field("required", required, One("additionalProperties", Bool(false))));
  }

  /** Its strict schema, in full. */
  lemma NestedInstance()
    ensures Definitions(NESTED) == Ok(DEFS) && Resolve(Obj(NESTED), DEFS, {}).Ok?
    ensures Normal(Resolve(Obj(NESTED), DEFS, {}).value) == Ok(Obj(FLATTENED))
  {
    hide Resolve, Normal, NormalProperties;
    NestedExpands();
    PairNormal();
    var small := Field("f", Obj(INNER), One("g", Obj(One("type", Str("integer")))));
    assert Keys(small) == ["f", "g"];
    ModelNormal(Field("f", Obj(EXPANDED), One("g", Obj(COUNT))), small);
  }
}
