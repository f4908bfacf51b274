/** Inlining of local references in a response schema. */
module SchemaRefs {
  import opened Prelude
  import opened Json

  datatype SchemaError = UnsupportedReference | RecursiveSchema | UnknownReference | NotAnObject

  const PREFIX := "#/$defs/"

  /** The value of `$ref`, where an explicit null counts as none. */
  function Reference(fs: Fields): Option<Json> {
    if Get(fs, "$ref") == Some(Null) then None else Get(fs, "$ref")
  }

  /** Exactly the references below `#/$defs/` name a definition, by the rest of their text. */
  lemma TargetMeans(reference: Json, name: string)
    ensures Target(reference) == Some(name) <==> reference == Str("#/$defs/" + name)
    ensures Target(reference).None? <==> forall n :: reference != Str("#/$defs/" + n)
  {
    if Target(reference).Some? { assert reference.text == "#/$defs/" + Target(reference).value; }
    assert ("#/$defs/" + name)[|PREFIX|..] == name;
  }

  /** The definition a reference names. */
  function Target(reference: Json): Option<string> {
    if reference.Str? && PREFIX <= reference.text then Some(reference.text[|PREFIX|..]) else None
  }

  /** The referenced definition with the siblings of `$ref` written over it. */
  function Merged(target: Fields, siblings: Fields): Fields { Update(target, Without(siblings, "$ref")) }

  function Unused(defs: Fields, active: set<string>): set<string> { KeySet(defs) - active }

  function Resolve(v: Json, defs: Fields, active: set<string>): Result<Json, SchemaError>
    decreases |Unused(defs, active)|, v
  {
    match v
    case Arr(items) =>
      var r := ResolveItems(items, defs, active);
      if r.Err? then Err(r.error) else Ok(Arr(r.value))
    case Obj(fields) =>
      if Reference(fields).Some? then
        var name := Target(Reference(fields).value);
        if name.None? then Err(UnsupportedReference)
        else if name.value in active then Err(RecursiveSchema)
        else
          var target := Get(defs, name.value);
          if target.None? || target.value.Null? then Err(UnknownReference)
          else if !target.value.Obj? then Err(NotAnObject)
          else
            assert Unused(defs, active + {name.value}) < Unused(defs, active) by {
              assert name.value in Unused(defs, active);
            }
            SmallerUnused(defs, active, name.value);
            Resolve(Obj(Merged(target.value.fields, fields)), defs, active + {name.value})
      else
        var r := ResolveFields(fields, defs, active);
        if r.Err? then Err(r.error) else Ok(Obj(r.value))
    case _ => Ok(v)
  }

  function ResolveItems(items: Items, defs: Fields, active: set<string>): Result<Items, SchemaError>
    decreases |Unused(defs, active)|, items
  {
    if items.NoItems? then Ok(NoItems)
    else
      var head := Resolve(items.head, defs, active);
      if head.Err? then Err(head.error)
      else
        var rest := ResolveItems(items.rest, defs, active);
        if rest.Err? then rest else Ok(Item(head.value, rest.value))
  }

  function ResolveFields(fs: Fields, defs: Fields, active: set<string>): Result<Fields, SchemaError>
    decreases |Unused(defs, active)|, fs
  {
    if fs.NoFields? then Ok(NoFields)
    else if fs.key == "$defs" then ResolveFields(fs.rest, defs, active)
    else
      var value := Resolve(fs.value, defs, active);
      if value.Err? then Err(value.error)
      else
        var rest := ResolveFields(fs.rest, defs, active);
        if rest.Err? then rest else Ok(Field(fs.key, value.value, rest.value))
  }

  lemma SmallerUnused(defs: Fields, active: set<string>, name: string)
    requires name in KeySet(defs) && name !in active
    ensures |Unused(defs, active + {name})| < |Unused(defs, active)|
  {
    assert Unused(defs, active + {name}) == Unused(defs, active) - {name};
  }

  // ----- When it succeeds --------------------------------------------------------------

  /** The outermost objects of a schema that hold a reference, apart from unused definitions. */
  ghost predicate Site(v: Json, site: Fields) {
    match v
    case Arr(items) => ItemSite(items, site)
    case Obj(fields) => if Reference(fields).Some? then site == fields else FieldSite(fields, site)
    case _ => false
  }

  ghost predicate ItemSite(items: Items, site: Fields) {
    items.Item? && (Site(items.head, site) || ItemSite(items.rest, site))
  }

  ghost predicate FieldSite(fs: Fields, site: Fields) {
    fs.Field? && ((fs.key != "$defs" && Site(fs.value, site)) || FieldSite(fs.rest, site))
  }

  /** The site's reference is local and names a definition that is an object. */
  ghost predicate Known(site: Fields, defs: Fields) {
    && Reference(site).Some? && Target(Reference(site).value).Some?
    && var target := Get(defs, Target(Reference(site).value).value);
    target.Some? && target.value.Obj?
  }

  ghost function NameAt(site: Fields): string
    requires Reference(site).Some? && Target(Reference(site).value).Some?
  {
    Target(Reference(site).value).value
  }

  ghost function Expanded(site: Fields, defs: Fields): Json
    requires Known(site, defs)
  {
    Obj(Merged(Get(defs, NameAt(site)).value.fields, site))
  }

  /** Expanding one site after the other, each found in the expansion of the one before. */
  ghost predicate Chain(v: Json, defs: Fields, sites: seq<Fields>)
    decreases |sites|
  {
    sites == [] || (Site(v, sites[0]) && (|sites| > 1 ==> Known(sites[0], defs) && Chain(Expanded(sites[0], defs), defs, sites[1..])))
  }

  /** Every reference met along a chain is known, and names neither an active definition nor one
      already being expanded on the chain. */
  ghost predicate ChainOk(defs: Fields, active: set<string>, sites: seq<Fields>) {
    && (forall i :: 0 <= i < |sites| ==> Known(sites[i], defs) && NameAt(sites[i]) !in active)
    && (forall i, j :: 0 <= i < j < |sites| ==> NameAt(sites[i]) != NameAt(sites[j]))
  }

  ghost predicate Expandable(v: Json, defs: Fields, active: set<string>) {
    forall sites :: Chain(v, defs, sites) ==> ChainOk(defs, active, sites)
  }

  ghost predicate SiteResolves(site: Fields, defs: Fields, active: set<string>) {
    && Known(site, defs) && NameAt(site) !in active
    && Resolve(Expanded(site, defs), defs, active + {NameAt(site)}).Ok?
  }

  lemma {:induction false} SitesDecide(v: Json, defs: Fields, active: set<string>)
    ensures Resolve(v, defs, active).Ok? <==> forall site :: Site(v, site) ==> SiteResolves(site, defs, active)
    decreases v
  {
    match v
    case Arr(items) => ItemSitesDecide(items, defs, active);
    case Obj(fields) =>
      if Reference(fields).None? {
        FieldSitesDecide(fields, defs, active);
      } else {
        assert forall site :: Site(v, site) <==> site == fields;
        assert Resolve(v, defs, active).Ok? <==> SiteResolves(fields, defs, active);
      }
    case _ =>
  }

  lemma {:induction false} ItemSitesDecide(items: Items, defs: Fields, active: set<string>)
    ensures ResolveItems(items, defs, active).Ok? <==> forall site :: ItemSite(items, site) ==> SiteResolves(site, defs, active)
    decreases items
  {
    if items.Item? {
      SitesDecide(items.head, defs, active);
      ItemSitesDecide(items.rest, defs, active);
    }
  }

  lemma {:induction false} FieldSitesDecide(fs: Fields, defs: Fields, active: set<string>)
    ensures ResolveFields(fs, defs, active).Ok? <==> forall site :: FieldSite(fs, site) ==> SiteResolves(site, defs, active)
    decreases fs
  {
    if fs.Field? {
      SitesDecide(fs.value, defs, active);
      FieldSitesDecide(fs.rest, defs, active);
    }
  }

  /** A schema that resolves has only good chains. */
  lemma {:induction false} ResolvedChain(v: Json, defs: Fields, active: set<string>, sites: seq<Fields>)
    requires Resolve(v, defs, active).Ok? && Chain(v, defs, sites)
    ensures ChainOk(defs, active, sites)
    decreases |sites|
  {
    if sites != [] {
      SitesDecide(v, defs, active);
      assert SiteResolves(sites[0], defs, active);
      if |sites| > 1 {
        var tail, name := sites[1..], NameAt(sites[0]);
        ResolvedChain(Expanded(sites[0], defs), defs, active + {name}, tail);
        forall i | 0 < i < |sites| ensures Known(sites[i], defs) && NameAt(sites[i]) !in active + {name} {
          assert sites[i] == tail[i - 1];
        }
        forall i, j | 0 < i < j < |sites| ensures NameAt(sites[i]) != NameAt(sites[j]) {
          assert sites[i] == tail[i - 1] && sites[j] == tail[j - 1];
        }
      }
    }
  }

  /** A schema with only good chains resolves. */
  lemma {:induction false} ExpandableResolves(v: Json, defs: Fields, active: set<string>)
    requires Expandable(v, defs, active)
    ensures Resolve(v, defs, active).Ok?
    decreases |Unused(defs, active)|
  {
    forall site | Site(v, site) ensures SiteResolves(site, defs, active) {
      assert Chain(v, defs, [site]);
      assert ChainOk(defs, active, [site]);
      assert Known([site][0], defs) && NameAt([site][0]) !in active;
      var name := NameAt(site);
      SmallerUnused(defs, active, name);
      forall sites | Chain(Expanded(site, defs), defs, sites) ensures ChainOk(defs, active + {name}, sites) {
        ChainTail(v, defs, active, site, sites);
      }
      ExpandableResolves(Expanded(site, defs), defs, active + {name});
    }
    SitesDecide(v, defs, active);
  }

  lemma ChainTail(v: Json, defs: Fields, active: set<string>, site: Fields, sites: seq<Fields>)
    requires Expandable(v, defs, active) && Site(v, site) && Known(site, defs)
    requires Chain(Expanded(site, defs), defs, sites)
    ensures ChainOk(defs, active + {NameAt(site)}, sites)
  {
    var longer := [site] + sites;
    assert longer[1..] == sites;
    assert Chain(v, defs, longer);
    forall i | 0 <= i < |sites| ensures Known(sites[i], defs) && NameAt(sites[i]) !in active + {NameAt(site)} {
      assert sites[i] == longer[i + 1] && NameAt(longer[0]) != NameAt(longer[i + 1]);
    }
    forall i, j | 0 <= i < j < |sites| ensures NameAt(sites[i]) != NameAt(sites[j]) {
      assert NameAt(longer[i + 1]) != NameAt(longer[j + 1]);
    }
  }

  /** Resolution succeeds if and only if every reference met while expanding is known and no
      definition expands into itself. */
  lemma ResolveIff(v: Json, defs: Fields)
    ensures Resolve(v, defs, {}).Ok? <==> Expandable(v, defs, {})
  {
    if Expandable(v, defs, {}) {
      ExpandableResolves(v, defs, {});
    } else {
      var sites :| Chain(v, defs, sites) && !ChainOk(defs, {}, sites);
      if Resolve(v, defs, {}).Ok? { ResolvedChain(v, defs, {}, sites); }
    }
  }

  // ----- What it produces --------------------------------------------------------------

  /** No object holds a reference or a block of definitions, at any depth. */
  ghost predicate Flat(v: Json) {
    match v
    case Arr(items) => FlatItems(items)
    case Obj(fields) => Reference(fields).None? && FlatFields(fields)
    case _ => true
  }

  ghost predicate FlatItems(items: Items) { items.Item? ==> Flat(items.head) && FlatItems(items.rest) }

  ghost predicate FlatFields(fs: Fields) { fs.Field? ==> fs.key != "$defs" && Flat(fs.value) && FlatFields(fs.rest) }

  lemma {:induction false} ResolveFlat(v: Json, defs: Fields, active: set<string>)
    requires Resolve(v, defs, active).Ok?
    ensures Flat(Resolve(v, defs, active).value)
    decreases |Unused(defs, active)|, v
  {
    match v
    case Arr(items) => ResolveItemsFlat(items, defs, active);
    case Obj(fields) =>
      if Reference(fields).Some? {
        var name := Target(Reference(fields).value).value;
        SmallerUnused(defs, active, name);
        ResolveFlat(Obj(Merged(Get(defs, name).value.fields, fields)), defs, active + {name});
      } else {
        ResolveFieldsFlat(fields, defs, active);
      }
    case _ =>
  }

  lemma {:induction false} ResolveItemsFlat(items: Items, defs: Fields, active: set<string>)
    requires ResolveItems(items, defs, active).Ok?
    ensures FlatItems(ResolveItems(items, defs, active).value)
    decreases |Unused(defs, active)|, items
  {
    if items.Item? {
      ResolveFlat(items.head, defs, active);
      ResolveItemsFlat(items.rest, defs, active);
    }
  }

  /** A key's value in the result is the resolved value of that key; an absent one stays absent. */
  lemma {:induction false} ResolveFieldsFlat(fs: Fields, defs: Fields, active: set<string>)
    requires ResolveFields(fs, defs, active).Ok?
    ensures FlatFields(ResolveFields(fs, defs, active).value)
    ensures Reference(fs).None? ==> Reference(ResolveFields(fs, defs, active).value).None?
    decreases |Unused(defs, active)|, fs
  {
    if fs.Field? {
      if fs.key != "$defs" { ResolveFlat(fs.value, defs, active); }
      ResolveFieldsFlat(fs.rest, defs, active);
    }
  }

  /** A schema without references and definitions is left exactly as it is. */
  lemma {:induction false} FlatFixed(v: Json, defs: Fields, active: set<string>)
    requires Flat(v)
    ensures Resolve(v, defs, active) == Ok(v)
    decreases v
  {
    match v
    case Arr(items) => FlatItemsFixed(items, defs, active);
    case Obj(fields) => FlatFieldsFixed(fields, defs, active);
    case _ =>
  }

  lemma {:induction false} FlatItemsFixed(items: Items, defs: Fields, active: set<string>)
    requires FlatItems(items)
    ensures ResolveItems(items, defs, active) == Ok(items)
    decreases items
  {
    if items.Item? {
      FlatFixed(items.head, defs, active);
      FlatItemsFixed(items.rest, defs, active);
    }
  }

  lemma {:induction false} FlatFieldsFixed(fs: Fields, defs: Fields, active: set<string>)
    requires FlatFields(fs)
    ensures ResolveFields(fs, defs, active) == Ok(fs)
    decreases fs
  {
    if fs.Field? {
      FlatFixed(fs.value, defs, active);
      FlatFieldsFixed(fs.rest, defs, active);
    }
  }

  /** Resolving twice is resolving once. */
  lemma ResolveTwice(v: Json, defs: Fields, other: Fields, active: set<string>)
    requires Resolve(v, defs, active).Ok?
    ensures Resolve(Resolve(v, defs, active).value, other, {}) == Resolve(v, defs, active)
  {
    ResolveFlat(v, defs, active);
    FlatFixed(Resolve(v, defs, active).value, other, {});
  }

  /** A reference object stands for its definition with its own other keys written over it. */
  lemma MergedGet(target: Fields, siblings: Fields, key: string)
    requires WellFormedFields(siblings)
    ensures Get(Merged(target, siblings), key) ==
            if key != "$ref" && Get(siblings, key).Some? then Get(siblings, key) else Get(target, key)
  {
    WithoutWellFormed(siblings, "$ref");
    GetUpdate(target, Without(siblings, "$ref"), key);
    GetWithout(siblings, "$ref", key);
  }

  /** An object without a reference keeps its keys, apart from definitions, each resolved. */
  lemma {:induction false} ResolveGet(fs: Fields, defs: Fields, active: set<string>, key: string)
    requires WellFormedFields(fs) && ResolveFields(fs, defs, active).Ok?
    ensures Get(ResolveFields(fs, defs, active).value, key).Some? <==> key != "$defs" && Get(fs, key).Some?
    ensures key != "$defs" && Get(fs, key).Some? ==>
              Resolve(Get(fs, key).value, defs, active) == Ok(Get(ResolveFields(fs, defs, active).value, key).value)
    decreases fs
  {
    if fs.Field? { ResolveGet(fs.rest, defs, active, key); }
  }

  /** Its keys stay in order. */
  lemma {:induction false} ResolveKeys(fs: Fields, defs: Fields, active: set<string>)
    requires ResolveFields(fs, defs, active).Ok?
    ensures Keys(ResolveFields(fs, defs, active).value) == Keys(Without(fs, "$defs"))
    decreases fs
  {
    if fs.Field? { ResolveKeys(fs.rest, defs, active); }
  }

  /** A list resolves element by element. */
  lemma {:induction false} ResolveElements(items: Items, defs: Fields, active: set<string>)
    requires ResolveItems(items, defs, active).Ok?
    ensures |Elements(ResolveItems(items, defs, active).value)| == |Elements(items)|
    ensures forall i :: 0 <= i < |Elements(items)| ==>
              Resolve(Elements(items)[i], defs, active) == Ok(Elements(ResolveItems(items, defs, active).value)[i])
    decreases items
  {
    if items.Item? { ResolveElements(items.rest, defs, active); }
  }

  /** Property names are not told apart from keywords here: a property called `$defs` is lost. */
  lemma DefsPropertyLost(properties: Fields, defs: Fields, active: set<string>)
    requires WellFormedFields(properties) && Get(properties, "$defs").Some? && Reference(properties).None?
    requires Resolve(Obj(properties), defs, active).Ok?
    ensures Resolve(Obj(properties), defs, active).value.Obj?
    ensures Get(Resolve(Obj(properties), defs, active).value.fields, "$defs") == None
  {
    ResolveGet(properties, defs, active, "$defs");
  }

  /** And a property called `$ref` with an object for its schema makes the whole schema fail,
      however deep it is. */
  lemma RefPropertyFails(v: Json, defs: Fields, active: set<string>, properties: Fields)
    requires Site(v, properties) && Get(properties, "$ref").Some? && Get(properties, "$ref").value.Obj?
    ensures Resolve(v, defs, active).Err?
  {
    SitesDecide(v, defs, active);
    assert !SiteResolves(properties, defs, active);
  }

  /** Dictionaries stay dictionaries. */
  lemma {:induction false} ResolveWellFormed(v: Json, defs: Fields, active: set<string>)
    requires WellFormed(v) && WellFormedFields(defs) && Resolve(v, defs, active).Ok?
    ensures WellFormed(Resolve(v, defs, active).value)
    decreases |Unused(defs, active)|, v
  {
    match v
    case Arr(items) => ResolveItemsWellFormed(items, defs, active);
    case Obj(fields) =>
      if Reference(fields).Some? {
        var name := Target(Reference(fields).value).value;
        var target := Get(defs, name).value.fields;
        SmallerUnused(defs, active, name);
        GetWellFormed(defs, name);
        WithoutWellFormed(fields, "$ref");
        UpdateWellFormed(target, Without(fields, "$ref"));
        ResolveWellFormed(Obj(Merged(target, fields)), defs, active + {name});
      } else {
        ResolveFieldsWellFormed(fields, defs, active);
      }
    case _ =>
  }

  lemma {:induction false} ResolveItemsWellFormed(items: Items, defs: Fields, active: set<string>)
    requires WellFormedItems(items) && WellFormedFields(defs) && ResolveItems(items, defs, active).Ok?
    ensures WellFormedItems(ResolveItems(items, defs, active).value)
    decreases |Unused(defs, active)|, items
  {
    if items.Item? {
      ResolveWellFormed(items.head, defs, active);
      ResolveItemsWellFormed(items.rest, defs, active);
    }
  }

  lemma {:induction false} ResolveFieldsWellFormed(fs: Fields, defs: Fields, active: set<string>)
    requires WellFormedFields(fs) && WellFormedFields(defs) && ResolveFields(fs, defs, active).Ok?
    ensures WellFormedFields(ResolveFields(fs, defs, active).value)
    decreases |Unused(defs, active)|, fs
  {
    if fs.Field? {
      ResolveFieldsWellFormed(fs.rest, defs, active);
      if fs.key != "$defs" {
        ResolveWellFormed(fs.value, defs, active);
        ResolveGet(fs.rest, defs, active, fs.key);
      }
    }
  }

  lemma {:induction false} GetWellFormed(fs: Fields, key: string)
    requires WellFormedFields(fs) && Get(fs, key).Some?
    ensures WellFormed(Get(fs, key).value)
  {
    if fs.key != key { GetWellFormed(fs.rest, key); }
  }
}
