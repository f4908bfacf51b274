/** JSON values whose objects keep their keys in insertion order. */
module Json {
  import opened Prelude

  datatype Json = Null | Bool(flag: bool) | Num(number: real) | Str(text: string) | Arr(items: Items) | Obj(fields: Fields)

  datatype Items = NoItems | Item(head: Json, rest: Items)

  datatype Fields = NoFields | Field(key: string, value: Json, rest: Fields)

  function Get(fs: Fields, key: string): Option<Json> {
    if fs.NoFields? then None else if fs.key == key then Some(fs.value) else Get(fs.rest, key)
  }

  /** Assignment: an existing key keeps its place, a new one goes to the end. */
  function Put(fs: Fields, key: string, value: Json): Fields {
    if fs.NoFields? then Field(key, value, NoFields)
    else if fs.key == key then Field(key, value, fs.rest)
    else Field(fs.key, fs.value, Put(fs.rest, key, value))
  }

  function Without(fs: Fields, key: string): Fields {
    if fs.NoFields? then NoFields
    else if fs.key == key then Without(fs.rest, key)
    else Field(fs.key, fs.value, Without(fs.rest, key))
  }

  function Update(fs: Fields, more: Fields): Fields
    decreases more
  {
    if more.NoFields? then fs else Update(Put(fs, more.key, more.value), more.rest)
  }

  function Keys(fs: Fields): seq<string> {
    if fs.NoFields? then [] else [fs.key] + Keys(fs.rest)
  }

  function KeySet(fs: Fields): (keys: set<string>)
    ensures forall k :: k in keys <==> Get(fs, k).Some?
  {
    if fs.NoFields? then {} else {fs.key} + KeySet(fs.rest)
  }

  function Names(names: seq<string>): Items {
    if names == [] then NoItems else Item(Str(names[0]), Names(names[1..]))
  }

  lemma {:induction false} GetPut(fs: Fields, key: string, value: Json, other: string)
    ensures Get(Put(fs, key, value), other) == if other == key then Some(value) else Get(fs, other)
  {
    if fs.Field? { GetPut(fs.rest, key, value, other); }
  }

  lemma {:induction false} PutSame(fs: Fields, key: string)
    requires Get(fs, key).Some?
    ensures Put(fs, key, Get(fs, key).value) == fs
  {
    if fs.key != key { PutSame(fs.rest, key); }
  }

  lemma {:induction false} GetWithout(fs: Fields, key: string, other: string)
    ensures Get(Without(fs, key), other) == if other == key then None else Get(fs, other)
  {
    if fs.Field? { GetWithout(fs.rest, key, other); }
  }

  // ----- Objects as dictionaries ---------------------------------------------------

  /** No object holds a key twice, at any depth. */
  predicate WellFormed(v: Json) {
    match v
    case Arr(items) => WellFormedItems(items)
    case Obj(fields) => WellFormedFields(fields)
    case _ => true
  }

  predicate WellFormedItems(items: Items) {
    items.Item? ==> WellFormed(items.head) && WellFormedItems(items.rest)
  }

  predicate WellFormedFields(fs: Fields) {
    fs.Field? ==> Get(fs.rest, fs.key).None? && WellFormed(fs.value) && WellFormedFields(fs.rest)
  }

  lemma {:induction false} PutWellFormed(fs: Fields, key: string, value: Json)
    requires WellFormedFields(fs) && WellFormed(value)
    ensures WellFormedFields(Put(fs, key, value))
  {
    if fs.Field? && fs.key != key {
      PutWellFormed(fs.rest, key, value);
      GetPut(fs.rest, key, value, fs.key);
    }
  }

  lemma {:induction false} WithoutWellFormed(fs: Fields, key: string)
    requires WellFormedFields(fs)
    ensures WellFormedFields(Without(fs, key))
  {
    if fs.Field? {
      WithoutWellFormed(fs.rest, key);
      GetWithout(fs.rest, key, fs.key);
    }
  }

  lemma {:induction false} UpdateWellFormed(fs: Fields, more: Fields)
    requires WellFormedFields(fs) && WellFormedFields(more)
    ensures WellFormedFields(Update(fs, more))
    decreases more
  {
    if more.Field? {
      PutWellFormed(fs, more.key, more.value);
      UpdateWellFormed(Put(fs, more.key, more.value), more.rest);
    }
  }

  /** The later dictionary wins, key by key. */
  lemma {:induction false} GetUpdate(fs: Fields, more: Fields, key: string)
    requires WellFormedFields(more)
    ensures Get(Update(fs, more), key) == if Get(more, key).Some? then Get(more, key) else Get(fs, key)
    decreases more
  {
    if more.Field? {
      GetUpdate(Put(fs, more.key, more.value), more.rest, key);
      GetPut(fs, more.key, more.value, key);
    }
  }

  // ----- Names in order ----------------------------------------------------------------

  function Elements(items: Items): seq<Json> {
    if items.NoItems? then [] else [items.head] + Elements(items.rest)
  }

  /** The list of the names: as many strings, each in its place. */
  lemma {:induction false} NamesAre(names: seq<string>)
    ensures |Elements(Names(names))| == |names|
    ensures forall i :: 0 <= i < |names| ==> Elements(Names(names))[i] == Str(names[i])
  {
    if names != [] { NamesAre(names[1..]); }
  }

  /** The keys of a dictionary: each key that has a value, once, and a new one at the end. */
  lemma {:induction false} KeysAre(fs: Fields, key: string)
    ensures key in Keys(fs) <==> Get(fs, key).Some?
    ensures WellFormedFields(fs) ==> forall i, j :: 0 <= i < j < |Keys(fs)| ==> Keys(fs)[i] != Keys(fs)[j]
  {
    if fs.Field? {
      KeysAre(fs.rest, key);
      KeysAre(fs.rest, fs.key);
    }
  }

  lemma {:induction false} KeysPut(fs: Fields, key: string, v: Json)
    ensures Keys(Put(fs, key, v)) == if Get(fs, key).Some? then Keys(fs) else Keys(fs) + [key]
  {
    if fs.Field? && fs.key != key { KeysPut(fs.rest, key, v); }
  }
}
