/** Schema declaration (`schema.py`): `Field` and its JSON-Schema form, the
    field factories, and `SchemaBuilder`, which collects named fields and
    builds the collection schema and the index options.

    Python dictionaries are insertion-ordered; a JSON object is therefore an
    ordered sequence of (key, value) entries. Numeric bounds are carried as
    opaque values. */
module Schema {
  import opened Wrappers

  /** A numeric bound: a Python `int`, or a `float` kept as its literal. */
  datatype Number = Integral(i: int) | Floating(literal: string)

  datatype Json =
    | Str(s: string)
    | Bool(b: bool)
    | Int(i: int)
    | Num(n: Number)
    | Arr(elems: seq<Json>)
    | Obj(entries: seq<(string, Json)>)

  /** The value of the first entry under `key`, if any. */
  function Lookup(entries: seq<(string, Json)>, key: string): Option<Json> {
    if entries == [] then None
    else if entries[0].0 == key then Some(entries[0].1)
    else Lookup(entries[1..], key)
  }

  /** The keys of an insertion-ordered dictionary, in order. */
  function Keys<V>(entries: seq<(string, V)>): (ks: seq<string>)
    ensures |ks| == |entries|
    ensures forall i :: 0 <= i < |entries| ==> ks[i] == entries[i].0
  {
    seq(|entries|, i requires 0 <= i < |entries| => entries[i].0)
  }

  /** The keys of two objects laid end to end. */
  lemma KeysAppend<V>(a: seq<(string, V)>, b: seq<(string, V)>)
    ensures Keys(a + b) == Keys(a) + Keys(b)
  {
  }

  /** No key occurs twice. */
  predicate Distinct(ks: seq<string>) {
    forall i, j :: 0 <= i < j < |ks| ==> ks[i] != ks[j]
  }

  // ---------------------------------------------------------------------
  // Field

  /** The frozen `Field` dataclass. */
  datatype Field = Field(
    fieldType: string,
    required: bool,
    filterable: bool,
    format: Option<string>,
    description: Option<string>,
    enum: Option<seq<Json>>,
    minimum: Option<Number>,
    maximum: Option<Number>,
    minLength: Option<int>,
    maxLength: Option<int>,
    pattern: Option<string>,
    items: Option<seq<(string, Json)>>,
    minItems: Option<int>,
    maxItems: Option<int>,
    uniqueItems: bool)

  /** The number of keys `to_json_schema` can emit. */
  const KeyCount: nat := 13

  /** The `i`-th key `to_json_schema` can emit, in the order it inserts
      them. */
  function Key(i: nat): string
    requires i < KeyCount
  {
    if i == 0 then "type"
    else if i == 1 then "format"
    else if i == 2 then "description"
    else if i == 3 then "enum"
    else if i == 4 then "minimum"
    else if i == 5 then "maximum"
    else if i == 6 then "minLength"
    else if i == 7 then "maxLength"
    else if i == 8 then "pattern"
    else if i == 9 then "items"
    else if i == 10 then "minItems"
    else if i == 11 then "maxItems"
    else "uniqueItems"
  }

  function OptStr(o: Option<string>): Option<Json> {
    if o.Some? then Some(Str(o.value)) else None
  }

  function OptInt(o: Option<int>): Option<Json> {
    if o.Some? then Some(Int(o.value)) else None
  }

  function OptNum(o: Option<Number>): Option<Json> {
    if o.Some? then Some(Num(o.value)) else None
  }

  /** What `to_json_schema` inserts under `Key(i)`, `None` where it inserts
      nothing: "type" always, "uniqueItems" (as `true`) only when the flag is
      set, every other key when its attribute is not `None`. */
  function Slot(f: Field, i: nat): Option<Json>
    requires i < KeyCount
  {
    if i == 0 then Some(Str(f.fieldType))
    else if i == 1 then OptStr(f.format)
    else if i == 2 then OptStr(f.description)
    else if i == 3 then (if f.enum.Some? then Some(Arr(f.enum.value)) else None)
    else if i == 4 then OptNum(f.minimum)
    else if i == 5 then OptNum(f.maximum)
    else if i == 6 then OptInt(f.minLength)
    else if i == 7 then OptInt(f.maxLength)
    else if i == 8 then OptStr(f.pattern)
    else if i == 9 then (if f.items.Some? then Some(Obj(f.items.value)) else None)
    else if i == 10 then OptInt(f.minItems)
    else if i == 11 then OptInt(f.maxItems)
    else (if f.uniqueItems then Some(Bool(true)) else None)
  }

  /** The entry inserted for `key`, if there is a value. */
  function Entry(key: string, v: Option<Json>): seq<(string, Json)> {
    if v.Some? then [(key, v.value)] else []
  }

  /** The object built by inserting `values[i]` under `keys[i]` for each
      `i < n` in turn, whenever it is present. */
  function Fill(keys: seq<string>, values: seq<Option<Json>>, n: nat): seq<(string, Json)>
    requires |keys| == |values| && n <= |keys|
  {
    if n == 0 then [] else Fill(keys, values, n - 1) + Entry(keys[n - 1], values[n - 1])
  }

  /** The keys `to_json_schema` can emit, in order. */
  function SchemaKeys(): (ks: seq<string>)
    ensures |ks| == KeyCount && forall i :: 0 <= i < KeyCount ==> ks[i] == Key(i)
  {
    seq(KeyCount, i requires 0 <= i < KeyCount => Key(i))
  }

  /** What `to_json_schema` would insert under each key, in order. */
  function Slots(f: Field): (s: seq<Option<Json>>)
    ensures |s| == KeyCount && forall i :: 0 <= i < KeyCount ==> s[i] == Slot(f, i)
  {
    seq(KeyCount, i requires 0 <= i < KeyCount => Slot(f, i))
  }

  /** The object after the first `n` keys have been considered. */
  function Prefix(f: Field, n: nat): seq<(string, Json)>
    requires n <= KeyCount
  {
    if n == 0 then [] else Prefix(f, n - 1) + Entry(Key(n - 1), Slot(f, n - 1))
  }

  /** `Prefix` is `Fill` over the key list and the slot list. */
  lemma {:induction false} PrefixIsFill(f: Field, n: nat)
    requires n <= KeyCount
    ensures Prefix(f, n) == Fill(SchemaKeys(), Slots(f), n)
  {
    if n > 0 {
      PrefixIsFill(f, n - 1);
    }
  }

  lemma {:induction false} LookupAppend(a: seq<(string, Json)>, b: seq<(string, Json)>, key: string)
    ensures Lookup(a + b, key) == if Lookup(a, key).Some? then Lookup(a, key) else Lookup(b, key)
  {
    if a == [] {
      assert a + b == b;
    } else {
      assert (a + b)[1..] == a[1..] + b;
      LookupAppend(a[1..], b, key);
    }
  }

  /** Length and first two characters tell the candidate keys apart. */
  function Signature(k: string): (int, char, char)
    requires |k| >= 2
  {
    (|k|, k[0], k[1])
  }

  /** The keys are pairwise different, and "required" and "filterable" are
      not among them. */
  lemma KeysDistinct()
    ensures Distinct(SchemaKeys())
    ensures forall i :: 0 <= i < KeyCount ==> SchemaKeys()[i] != "required" && SchemaKeys()[i] != "filterable"
  {
    forall i, j | 0 <= i < j < KeyCount ensures Key(i) != Key(j) {
      assert Signature(Key(i)) != Signature(Key(j));
    }
    forall i | 0 <= i < KeyCount ensures Key(i) != "required" && Key(i) != "filterable" {
      assert Signature(Key(i)) != Signature("required");
      assert Signature(Key(i)) != Signature("filterable");
    }
  }

  /** A key none of whose candidates was considered is absent. */
  lemma {:induction false} LookupFillOther(keys: seq<string>, values: seq<Option<Json>>, n: nat, key: string)
    requires |keys| == |values| && n <= |keys|
    requires forall i :: 0 <= i < n ==> keys[i] != key
    ensures Lookup(Fill(keys, values, n), key) == None
  {
    if n > 0 {
      LookupFillOther(keys, values, n - 1, key);
      LookupAppend(Fill(keys, values, n - 1), Entry(keys[n - 1], values[n - 1]), key);
    }
  }

  /** With distinct keys, once key `i` has been considered, looking it up
      yields exactly what was offered for it. */
  lemma {:induction false} LookupFill(keys: seq<string>, values: seq<Option<Json>>, n: nat, i: nat)
    requires |keys| == |values| && i < n <= |keys| && Distinct(keys)
    ensures Lookup(Fill(keys, values, n), keys[i]) == values[i]
  {
    LookupAppend(Fill(keys, values, n - 1), Entry(keys[n - 1], values[n - 1]), keys[i]);
    if i == n - 1 {
      LookupFillOther(keys, values, n - 1, keys[i]);
    } else {
      LookupFill(keys, values, n - 1, i);
    }
  }

  /** Filling only ever uses the keys considered so far, and with distinct
      keys no key is emitted twice. */
  lemma {:induction false} FillKeys(keys: seq<string>, values: seq<Option<Json>>, n: nat)
    requires |keys| == |values| && n <= |keys| && Distinct(keys)
    ensures forall e :: e in Fill(keys, values, n) ==> e.0 in keys[..n]
    ensures Distinct(Keys(Fill(keys, values, n)))
  {
    if n > 0 {
      FillKeys(keys, values, n - 1);
      var a, b := Fill(keys, values, n - 1), Entry(keys[n - 1], values[n - 1]);
      assert keys[..n] == keys[..n - 1] + [keys[n - 1]];
      var ks := Keys(a + b);
      forall i, j | 0 <= i < j < |ks| ensures ks[i] != ks[j] {
        assert (a + b)[i] == a[i] && a[i] in a;
        if j < |a| {
          assert (a + b)[j] == a[j] && Keys(a)[i] == a[i].0 && Keys(a)[j] == a[j].0;
        } else {
          assert ks[j] == keys[n - 1];
          var k :| 0 <= k < n - 1 && keys[..n - 1][k] == a[i].0;
          assert keys[k] == a[i].0;
        }
      }
    }
  }

  /** `Field.to_json_schema`, as a specification: every key considered in
      turn. */
  function JsonSchema(f: Field): (out: seq<(string, Json)>)
    ensures forall i :: 0 <= i < KeyCount ==> Lookup(out, Key(i)) == Slot(f, i)
    ensures Lookup(out, "required") == None && Lookup(out, "filterable") == None
    ensures forall e :: e in out ==> e.0 in SchemaKeys()
    ensures Distinct(Keys(out))
  {
    var out := Prefix(f, KeyCount);
    PrefixIsFill(f, KeyCount);
    KeysDistinct();
    FillKeys(SchemaKeys(), Slots(f), KeyCount);
    assert SchemaKeys()[..KeyCount] == SchemaKeys();
    forall i | 0 <= i < KeyCount ensures Lookup(out, Key(i)) == Slot(f, i) {
      LookupFill(SchemaKeys(), Slots(f), KeyCount, i);
    }
    LookupFillOther(SchemaKeys(), Slots(f), KeyCount, "required");
    LookupFillOther(SchemaKeys(), Slots(f), KeyCount, "filterable");
    out
  }

  /** One conditional insert of `to_json_schema`: `out[key] = value` when
      there is a value (the key is new, so it goes last). */
  method InsertIfSet(out: seq<(string, Json)>, key: string, v: Option<Json>)
    returns (out': seq<(string, Json)>)
    ensures out' == out + Entry(key, v)
  {
    if v.Some? {
      out' := out + [(key, v.value)];
    } else {
      out' := out;
    }
  }

  /** `Field.to_json_schema` as written: start from "type" and insert each
      optional key in turn when its attribute is set. */
  method ToJsonSchema(f: Field) returns (out: seq<(string, Json)>)
    ensures out == JsonSchema(f)
  {
    out := [("type", Str(f.fieldType))];
    assert out == Prefix(f, 1);
    out := InsertIfSet(out, "format", OptStr(f.format));
    assert out == Prefix(f, 2);
    out := InsertIfSet(out, "description", OptStr(f.description));
    assert out == Prefix(f, 3);
    out := InsertIfSet(out, "enum", if f.enum.Some? then Some(Arr(f.enum.value)) else None);
    assert out == Prefix(f, 4);
    out := InsertIfSet(out, "minimum", OptNum(f.minimum));
    assert out == Prefix(f, 5);
    out := InsertIfSet(out, "maximum", OptNum(f.maximum));
    assert out == Prefix(f, 6);
    out := InsertIfSet(out, "minLength", OptInt(f.minLength));
    assert out == Prefix(f, 7);
    out := InsertIfSet(out, "maxLength", OptInt(f.maxLength));
    assert out == Prefix(f, 8);
    out := InsertIfSet(out, "pattern", OptStr(f.pattern));
    assert out == Prefix(f, 9);
    out := InsertIfSet(out, "items", if f.items.Some? then Some(Obj(f.items.value)) else None);
    assert out == Prefix(f, 10);
    out := InsertIfSet(out, "minItems", OptInt(f.minItems));
    assert out == Prefix(f, 11);
    out := InsertIfSet(out, "maxItems", OptInt(f.maxItems));
    assert out == Prefix(f, 12);
    out := InsertIfSet(out, "uniqueItems", if f.uniqueItems then Some(Bool(true)) else None);
    assert out == Prefix(f, 13);
  }

  /** Key by key: "type" is always the field type; each optional key is
      emitted exactly when its attribute is set, with that value;
      "uniqueItems" only as `true`; "required" and "filterable" never. */
  lemma JsonSchemaKeys(f: Field)
    ensures var out := JsonSchema(f);
      && Lookup(out, "type") == Some(Str(f.fieldType))
      && Lookup(out, "format") == OptStr(f.format)
      && Lookup(out, "description") == OptStr(f.description)
      && Lookup(out, "enum") == (if f.enum.Some? then Some(Arr(f.enum.value)) else None)
      && Lookup(out, "minimum") == OptNum(f.minimum)
      && Lookup(out, "maximum") == OptNum(f.maximum)
      && Lookup(out, "minLength") == OptInt(f.minLength)
      && Lookup(out, "maxLength") == OptInt(f.maxLength)
      && Lookup(out, "pattern") == OptStr(f.pattern)
      && Lookup(out, "items") == (if f.items.Some? then Some(Obj(f.items.value)) else None)
      && Lookup(out, "minItems") == OptInt(f.minItems)
      && Lookup(out, "maxItems") == OptInt(f.maxItems)
      && Lookup(out, "uniqueItems") == (if f.uniqueItems then Some(Bool(true)) else None)
      && Lookup(out, "required") == None
      && Lookup(out, "filterable") == None
  {
    var out := JsonSchema(f);
    assert Lookup(out, Key(0)) == Slot(f, 0);
    assert Lookup(out, Key(1)) == Slot(f, 1);
    assert Lookup(out, Key(2)) == Slot(f, 2);
    assert Lookup(out, Key(3)) == Slot(f, 3);
    assert Lookup(out, Key(4)) == Slot(f, 4);
    assert Lookup(out, Key(5)) == Slot(f, 5);
    assert Lookup(out, Key(6)) == Slot(f, 6);
    assert Lookup(out, Key(7)) == Slot(f, 7);
    assert Lookup(out, Key(8)) == Slot(f, 8);
    assert Lookup(out, Key(9)) == Slot(f, 9);
    assert Lookup(out, Key(10)) == Slot(f, 10);
    assert Lookup(out, Key(11)) == Slot(f, 11);
    assert Lookup(out, Key(12)) == Slot(f, 12);
  }

  // ---------------------------------------------------------------------
  // Field factories

  function Strs(ss: seq<string>): (js: seq<Json>)
    ensures |js| == |ss| && forall i :: 0 <= i < |ss| ==> js[i] == Str(ss[i])
  {
    seq(|ss|, i requires 0 <= i < |ss| => Str(ss[i]))
  }

  /** `string(...)`: a "string" field; the numeric and array attributes stay
      unset. */
  function StringField(required: bool := false, filterable: bool := true,
                       format: Option<string> := None, description: Option<string> := None,
                       enum: Option<seq<string>> := None, minLength: Option<int> := None,
                       maxLength: Option<int> := None, pattern: Option<string> := None): (f: Field)
    ensures f.fieldType == "string" && f.format == format
    ensures f.required == required && f.filterable == filterable && f.description == description
    ensures f.enum == (if enum.Some? then Some(Strs(enum.value)) else None)
    ensures f.minLength == minLength && f.maxLength == maxLength && f.pattern == pattern
    ensures f.minimum == None && f.maximum == None
    ensures f.items == None && f.minItems == None && f.maxItems == None && !f.uniqueItems
  {
    Field("string", required, filterable, format, description,
          if enum.Some? then Some(Strs(enum.value)) else None,
          None, None, minLength, maxLength, pattern, None, None, None, false)
  }

  /** `integer(...)`: an "integer" field with optional integer bounds. */
  function IntegerField(required: bool := false, filterable: bool := true,
                        description: Option<string> := None,
                        minimum: Option<int> := None, maximum: Option<int> := None): (f: Field)
    ensures f.fieldType == "integer" && f.format == None
    ensures f.required == required && f.filterable == filterable && f.description == description
    ensures f.minimum == (if minimum.Some? then Some(Integral(minimum.value)) else None)
    ensures f.maximum == (if maximum.Some? then Some(Integral(maximum.value)) else None)
    ensures f.enum == None && f.minLength == None && f.maxLength == None && f.pattern == None
    ensures f.items == None && f.minItems == None && f.maxItems == None && !f.uniqueItems
  {
    Field("integer", required, filterable, None, description, None,
          if minimum.Some? then Some(Integral(minimum.value)) else None,
          if maximum.Some? then Some(Integral(maximum.value)) else None,
          None, None, None, None, None, None, false)
  }

  /** `number(...)`: a "number" field with optional bounds. */
  function NumberField(required: bool := false, filterable: bool := true,
                       description: Option<string> := None,
                       minimum: Option<Number> := None, maximum: Option<Number> := None): (f: Field)
    ensures f.fieldType == "number" && f.format == None
    ensures f.required == required && f.filterable == filterable && f.description == description
    ensures f.minimum == minimum && f.maximum == maximum
    ensures f.enum == None && f.minLength == None && f.maxLength == None && f.pattern == None
    ensures f.items == None && f.minItems == None && f.maxItems == None && !f.uniqueItems
  {
    Field("number", required, filterable, None, description, None, minimum, maximum,
          None, None, None, None, None, None, false)
  }

  /** `boolean(...)`: a "boolean" field with nothing but a description. */
  function BooleanField(required: bool := false, filterable: bool := true,
                        description: Option<string> := None): (f: Field)
    ensures f.fieldType == "boolean" && f.format == None
    ensures f.required == required && f.filterable == filterable && f.description == description
    ensures f.enum == None && f.minimum == None && f.maximum == None
    ensures f.minLength == None && f.maxLength == None && f.pattern == None
    ensures f.items == None && f.minItems == None && f.maxItems == None && !f.uniqueItems
  {
    Field("boolean", required, filterable, None, description, None, None, None,
          None, None, None, None, None, None, false)
  }

  /** The element description `array` accepts: a field, or a raw schema. */
  datatype ArrayItem = FieldItem(field: Field) | SchemaItem(schema: seq<(string, Json)>)

  /** `array(item, ...)`: an "array" field whose "items" is the item field's
      JSON schema, or a copy of the raw schema given. */
  function ArrayField(item: ArrayItem, required: bool := false, filterable: bool := true,
                      description: Option<string> := None, minItems: Option<int> := None,
                      maxItems: Option<int> := None, uniqueItems: bool := false): (f: Field)
    ensures f.fieldType == "array" && f.format == None
    ensures f.required == required && f.filterable == filterable && f.description == description
    ensures item.FieldItem? ==> f.items == Some(JsonSchema(item.field))
    ensures item.SchemaItem? ==> f.items == Some(item.schema)
    ensures f.minItems == minItems && f.maxItems == maxItems && f.uniqueItems == uniqueItems
    ensures f.enum == None && f.minimum == None && f.maximum == None
    ensures f.minLength == None && f.maxLength == None && f.pattern == None
  {
    var itemSchema := if item.FieldItem? then JsonSchema(item.field) else item.schema;
    Field("array", required, filterable, None, description, None, None, None,
          None, None, None, Some(itemSchema), minItems, maxItems, uniqueItems)
  }

  /** `datetime(...)`: a string field of format "date-time". */
  function DateTimeField(required: bool := false, filterable: bool := true,
                         description: Option<string> := None): (f: Field)
    ensures f.fieldType == "string" && f.format == Some("date-time")
    ensures f.required == required && f.filterable == filterable && f.description == description
    ensures f.enum == None && f.minLength == None && f.maxLength == None && f.pattern == None
    ensures f.minimum == None && f.maximum == None
    ensures f.items == None && f.minItems == None && f.maxItems == None && !f.uniqueItems
  {
    StringField(required, filterable, Some("date-time"), description, None, None, None, None)
  }

  /** `date(...)`: a string field of format "date". */
  function DateField(required: bool := false, filterable: bool := true,
                     description: Option<string> := None): (f: Field)
    ensures f.fieldType == "string" && f.format == Some("date")
    ensures f.required == required && f.filterable == filterable && f.description == description
    ensures f.enum == None && f.minLength == None && f.maxLength == None && f.pattern == None
    ensures f.minimum == None && f.maximum == None
    ensures f.items == None && f.minItems == None && f.maxItems == None && !f.uniqueItems
  {
    StringField(required, filterable, Some("date"), description, None, None, None, None)
  }

  /** The schemas of the date factories are strings with the fixed format,
      and nothing string-specific beyond it. */
  lemma DateSchemas(required: bool, filterable: bool, description: Option<string>)
    ensures var out := JsonSchema(DateTimeField(required, filterable, description));
            && Lookup(out, "type") == Some(Str("string"))
            && Lookup(out, "format") == Some(Str("date-time"))
            && Lookup(out, "enum") == None && Lookup(out, "pattern") == None
    ensures var out := JsonSchema(DateField(required, filterable, description));
            && Lookup(out, "type") == Some(Str("string"))
            && Lookup(out, "format") == Some(Str("date"))
            && Lookup(out, "enum") == None && Lookup(out, "pattern") == None
  {
    JsonSchemaKeys(DateTimeField(required, filterable, description));
    JsonSchemaKeys(DateField(required, filterable, description));
  }

  /** An array of fields describes its elements by the element field's own
      schema, nested under "items". */
  lemma ArrayOfFieldSchema(item: Field, required: bool, filterable: bool,
                           description: Option<string>, minItems: Option<int>,
                           maxItems: Option<int>, uniqueItems: bool)
    ensures var out := JsonSchema(ArrayField(FieldItem(item), required, filterable, description,
                                             minItems, maxItems, uniqueItems));
            && Lookup(out, "type") == Some(Str("array"))
            && Lookup(out, "items") == Some(Obj(JsonSchema(item)))
            && Lookup(out, "uniqueItems") == (if uniqueItems then Some(Bool(true)) else None)
  {
    JsonSchemaKeys(ArrayField(FieldItem(item), required, filterable, description,
                              minItems, maxItems, uniqueItems));
  }

  // ---------------------------------------------------------------------
  // SchemaBuilder

  /** The position of the first occurrence of `x` in `ns`. */
  function IndexOf(ns: seq<string>, x: string): (i: nat)
    requires x in ns
    ensures i < |ns| && ns[i] == x
    ensures forall j :: 0 <= j < i ==> ns[j] != x
  {
    if ns[0] == x then 0 else 1 + IndexOf(ns[1..], x)
  }

  /** `self._fields[name] = field` on an insertion-ordered dictionary: an
      existing name keeps its place and gets the new field; a new name goes
      last. */
  function Upsert(fields: seq<(string, Field)>, name: string, field: Field): (r: seq<(string, Field)>)
    ensures name !in Keys(fields) ==> r == fields + [(name, field)]
    ensures name in Keys(fields) ==> |r| == |fields| && Keys(r) == Keys(fields)
    ensures name in Keys(fields) && Distinct(Keys(fields)) ==>
              forall i :: 0 <= i < |fields| ==>
                r[i] == if fields[i].0 == name then (name, field) else fields[i]
    ensures Distinct(Keys(fields)) ==> Distinct(Keys(r))
  {
    if name in Keys(fields) then
      var k := IndexOf(Keys(fields), name);
      var r := fields[k := (name, field)];
      assert Keys(r) == Keys(fields);
      r
    else
      var r := fields + [(name, field)];
      assert Keys(r) == Keys(fields) + [name];
      r
  }

  /** The names of the fields that satisfy `p`, in insertion order. */
  function NamesWhere(fields: seq<(string, Field)>, p: Field -> bool): (names: seq<string>)
    ensures |names| <= |fields|
    ensures forall n :: n in names ==> n in Keys(fields)
  {
    if fields == [] then []
    else (if p(fields[0].1) then [fields[0].0] else []) + NamesWhere(fields[1..], p)
  }

  /** A name is listed exactly when one of the fields under it satisfies
      `p`; the list is empty exactly when no field does. */
  lemma {:induction false} NamesWhereMembers(fields: seq<(string, Field)>, p: Field -> bool, name: string)
    ensures name in NamesWhere(fields, p) <==>
              exists i :: 0 <= i < |fields| && fields[i].0 == name && p(fields[i].1)
    ensures NamesWhere(fields, p) == [] <==> forall i :: 0 <= i < |fields| ==> !p(fields[i].1)
  {
    if fields != [] {
      NamesWhereMembers(fields[1..], p, name);
      if exists i :: 1 <= i < |fields| && fields[i].0 == name && p(fields[i].1) {
        var i :| 1 <= i < |fields| && fields[i].0 == name && p(fields[i].1);
        assert fields[1..][i - 1] == fields[i];
      }
      if !p(fields[0].1) && NamesWhere(fields[1..], p) == [] {
        forall i | 0 <= i < |fields| ensures !p(fields[i].1) {
          if i > 0 { assert fields[1..][i - 1] == fields[i]; }
        }
      }
      if !p(fields[0].1) && NamesWhere(fields[1..], p) != [] {
        var i :| 0 <= i < |fields| - 1 && p(fields[1..][i].1);
        assert fields[i + 1] == fields[1..][i];
      }
    }
  }

  /** Filtering distributes over concatenation: with `NamesWhereOne`, the
      names come in insertion order. */
  lemma {:induction false} NamesWhereAppend(a: seq<(string, Field)>, b: seq<(string, Field)>, p: Field -> bool)
    ensures NamesWhere(a + b, p) == NamesWhere(a, p) + NamesWhere(b, p)
  {
    if a == [] {
      assert a + b == b;
    } else {
      assert (a + b)[0] == a[0];
      assert (a + b)[1..] == a[1..] + b;
      NamesWhereAppend(a[1..], b, p);
    }
  }

  /** A single field is listed exactly when it passes. */
  lemma NamesWhereOne(name: string, f: Field, p: Field -> bool)
    ensures NamesWhere([(name, f)], p) == if p(f) then [name] else []
  {
    assert [(name, f)][1..] == [];
  }

  /** With distinct field names, no name is listed twice. */
  lemma {:induction false} NamesWhereDistinct(fields: seq<(string, Field)>, p: Field -> bool)
    requires Distinct(Keys(fields))
    ensures Distinct(NamesWhere(fields, p))
  {
    if fields != [] {
      var rest := fields[1..];
      forall i, j | 0 <= i < j < |rest| ensures Keys(rest)[i] != Keys(rest)[j] {
        assert Keys(rest)[i] == Keys(fields)[i + 1] && Keys(rest)[j] == Keys(fields)[j + 1];
      }
      NamesWhereDistinct(rest, p);
      var tail := NamesWhere(rest, p);
      if p(fields[0].1) {
        assert fields[0].0 !in tail by {
          NamesWhereMembers(rest, p, fields[0].0);
          forall i | 0 <= i < |rest| ensures rest[i].0 != fields[0].0 {
            assert Keys(fields)[0] == fields[0].0 && Keys(fields)[i + 1] == rest[i].0;
          }
        }
        var names := [fields[0].0] + tail;
        forall i, j | 0 <= i < j < |names| ensures names[i] != names[j] {
          if i == 0 {
            assert names[j] == tail[j - 1];
          } else {
            assert names[i] == tail[i - 1] && names[j] == tail[j - 1];
          }
        }
      }
    }
  }

  predicate IsRequired(f: Field) { f.required }

  predicate IsNotFilterable(f: Field) { !f.filterable }

  /** The "properties" object: each field's schema under its name, in
      insertion order. */
  function PropertyEntries(fields: seq<(string, Field)>): (props: seq<(string, Json)>)
    ensures Keys(props) == Keys(fields)
    ensures forall i :: 0 <= i < |fields| ==> props[i].1 == Obj(JsonSchema(fields[i].1))
  {
    seq(|fields|, i requires 0 <= i < |fields| => (fields[i].0, Obj(JsonSchema(fields[i].1))))
  }

  /** `SchemaBuilder`. */
  class SchemaBuilder {
    const additionalProperties: bool
    var fields: seq<(string, Field)>

    /** Field names are unique (they are the keys of a dictionary). */
    ghost predicate Valid()
      reads this
    {
      Distinct(Keys(fields))
    }

    constructor (additionalProperties: bool := false)
      ensures Valid() && fields == []
      ensures this.additionalProperties == additionalProperties
    {
      this.additionalProperties := additionalProperties;
      fields := [];
    }

    /** `add`: record `field` under `name` and return the builder itself. */
    method Add(name: string, field: Field) returns (b: SchemaBuilder)
      requires Valid()
      modifies this
      ensures b == this && Valid()
      ensures fields == Upsert(old(fields), name, field)
    {
      fields := Upsert(fields, name, field);
      b := this;
    }

    /** `build`: the collection schema and the index options. The schema
        always carries "type", "additionalProperties" and "properties", and
        carries "required" only when some field is required; the index
        options list the non-filterable names. */
    function Build(): (r: (Json, Json))
      reads this
      ensures r.0.Obj? && r.1.Obj?
      ensures Lookup(r.0.entries, "type") == Some(Str("object"))
      ensures Lookup(r.0.entries, "additionalProperties") == Some(Bool(additionalProperties))
      ensures Lookup(r.0.entries, "properties") == Some(Obj(PropertyEntries(fields)))
      ensures Lookup(r.0.entries, "required")
              == if NamesWhere(fields, IsRequired) == [] then None
                 else Some(Arr(Strs(NamesWhere(fields, IsRequired))))
      ensures Keys(r.0.entries) == ["type", "additionalProperties", "properties"]
                                   + (if NamesWhere(fields, IsRequired) == [] then [] else ["required"])
      ensures r.1 == Obj([("metadataConfiguration",
                           Obj([("nonFilterableMetadataKeys",
                                 Arr(Strs(NamesWhere(fields, IsNotFilterable))))]))])
    {
      var required := NamesWhere(fields, IsRequired);
      var nonFilterable := NamesWhere(fields, IsNotFilterable);
      var base := [("type", Str("object")),
                   ("additionalProperties", Bool(additionalProperties)),
                   ("properties", Obj(PropertyEntries(fields)))];
      var extra := if required != [] then [("required", Arr(Strs(required)))] else [];
      assert Lookup(base, "properties") == Some(Obj(PropertyEntries(fields))) by {
        assert base[0].0 != "properties" && base[1].0 != "properties";
        assert Lookup(base, "properties") == Lookup(base[1..], "properties") == Lookup(base[2..], "properties");
      }
      assert Lookup(base, "required") == None by {
        assert base[0].0 != "required" && base[1].0 != "required" && base[2].0 != "required";
        assert Lookup(base, "required") == Lookup(base[1..], "required")
               == Lookup(base[2..], "required") == Lookup(base[3..], "required");
      }
      LookupAppend(base, extra, "type");
      LookupAppend(base, extra, "additionalProperties");
      LookupAppend(base, extra, "properties");
      LookupAppend(base, extra, "required");
      KeysAppend(base, extra);
      assert Keys(base) == ["type", "additionalProperties", "properties"];
      assert Keys(extra) == if required == [] then [] else ["required"];
      (Obj(base + extra),
       Obj([("metadataConfiguration", Obj([("nonFilterableMetadataKeys", Arr(Strs(nonFilterable)))]))]))
    }
  }
}
