/** The schema translator: CMS attribute definitions to validator shapes. */
module Schema {
  import opened Wrappers
  import opened Errors
  import opened JsonValues
  import Records

  /** The shape of a validator: what the translator builds, not how a value is checked. */
  datatype Validator =
    | Str
    | DateTime
    | Bool
    | Num
    | Optional(inner: Validator)
    | Arr(element: Validator)
    | Obj(shape: seq<(string, Validator)>)
    | Unvalidated

  /** `media`: a URL and four optional descriptive members. */
  const MediaShape: Validator :=
    Obj([("url", Str), ("alternativeText", Optional(Str)), ("caption", Optional(Str)),
         ("width", Optional(Num)), ("height", Optional(Num))])

  /** `dynamiczone`: a list of components, each naming its kind in `__component`. */
  const DynamicZoneShape: Validator := Arr(Obj([("__component", Str)]))

  const StringTags: set<string> := {"string", "uid", "documentId", "richtext", "text"}

  /** Every tag the dispatch table names. */
  const Tags: set<string> :=
    StringTags + {"datetime", "boolean", "number", "array", "object", "media", "relation", "dynamiczone"}

  /** The table key a `type` member selects: only a string names an entry. */
  function TagOf(t: Option<Json>): Option<string> {
    if t.Some? && t.value.JStr? then Some(t.value.s) else None
  }

  /** `mapTypeToZodSchema(type, field)`: only the thunk of the selected tag runs, and a tag
      that names no entry falls back to the unvalidated shape. */
  function MapType(tag: Option<string>, field: Json): Result<Validator, Error>
    decreases Size(field), 2, 0
  {
    match tag
    case None => Ok(Unvalidated)
    case Some(t) =>
      if t in StringTags then Ok(Str)
      else if t == "datetime" then Ok(DateTime)
      else if t == "boolean" then Ok(Bool)
      else if t == "number" then Ok(Num)
      else if t == "array" then ArrayOf(field)
      else if t == "object" then ObjectOf(field)
      else if t == "media" then Ok(MediaShape)
      else if t == "dynamiczone" then Ok(DynamicZoneShape)
      else Ok(Unvalidated)
  }

  /** The `array` thunk: the element shape is mapped from the tag and members of the field's
      `items`. */
  function ArrayOf(field: Json): Result<Validator, Error>
    decreases Size(field), 1, 0
  {
    match Get(field, "items")
    case None => Err(TypeError("items"))
    case Some(items) =>
      if items.JNull? then Err(TypeError("items"))
      else
        GetSize(field, "items");
        match MapType(TagOf(Get(items, "type")), items)
        case Ok(element) => Ok(Arr(element))
        case Err(e) => Err(e)
  }

  /** The `object` thunk: a record over the entries of `field.properties`. */
  function ObjectOf(field: Json): Result<Validator, Error>
    decreases Size(field), 1, 0
  {
    match Get(field, "properties")
    case None => Err(TypeError("properties"))
    case Some(props) =>
      if props.JNull? then Err(TypeError("properties"))
      else
        GetSize(field, "properties");
        EntriesSize(props);
        PropertiesShape(Entries(props), Records.Empty(), Size(field))
  }

  /** One iteration of the `object` loop: a property must be a non-null object with a
      `type` member, and is mapped from that member with itself as the field. */
  function PropertyValidator(key: string, value: Json): Result<Validator, Error>
    decreases Size(value), 3, 0
  {
    if value.JObj? && HasMember(value, "type") then MapType(TagOf(Get(value, "type")), value)
    else Err(InvalidFieldValue(key))
  }

  /** The `object` loop over the remaining entries `es`, filling `shape`; every entry value
      is smaller than `bound`. */
  function PropertiesShape(es: seq<(string, Json)>, shape: Records.Record<Validator>, ghost bound: nat)
    : Result<Validator, Error>
    requires shape.Valid()
    requires forall i :: 0 <= i < |es| ==> Size(es[i].1) < bound
    decreases bound, 0, |es|
  {
    if es == [] then Ok(Obj(Records.Entries(shape)))
    else
      match PropertyValidator(es[0].0, es[0].1)
      case Err(e) => Err(e)
      case Ok(v) => PropertiesShape(es[1..], Records.Put(shape, es[0].0, v), bound)
  }

  /** One iteration of generateZodSchema's loop: the attribute's `type` member is taken out,
      and that tag is mapped with the attribute's other members as the field. */
  function AttributeValidator(key: string, value: Json): Result<Validator, Error> {
    if value.JNull? then Err(TypeError(key))
    else MapType(TagOf(Get(value, "type")), RestOf(value, "type"))
  }

  /** `generateZodSchema`'s loop over the remaining entries `es`, filling `shape`. */
  function AttributesShape(es: seq<(string, Json)>, shape: Records.Record<Validator>): Result<Validator, Error>
    requires shape.Valid()
  {
    if es == [] then Ok(Obj(Records.Entries(shape)))
    else
      match AttributeValidator(es[0].0, es[0].1)
      case Err(e) => Err(e)
      case Ok(v) => AttributesShape(es[1..], Records.Put(shape, es[0].0, v))
  }

  /** `generateZodSchema(attributes)` for a non-null `attributes`. */
  function GenerateSchema(attributes: Json): Result<Validator, Error>
    requires !attributes.JNull?
  {
    AttributesShape(Entries(attributes), Records.Empty())
  }

  // ---------------------------------------------------------------------------------------
  // A reference definition of the two loops: translate every entry in order and stop at the
  // first failure, with no partial shape.

  function TranslateAll(es: seq<(string, Json)>, f: (string, Json) -> Result<Validator, Error>)
    : Result<seq<(string, Validator)>, Error>
  {
    if es == [] then Ok([])
    else
      match f(es[0].0, es[0].1)
      case Err(e) => Err(e)
      case Ok(v) =>
        match TranslateAll(es[1..], f)
        case Err(e) => Err(e)
        case Ok(rest) => Ok([(es[0].0, v)] + rest)
  }

  /** `TranslateAll` succeeds exactly when every entry translates, and then keeps each key
      with its own validator, in order. */
  lemma {:induction false} TranslateAllOk(es: seq<(string, Json)>, f: (string, Json) -> Result<Validator, Error>)
    ensures TranslateAll(es, f).Ok? <==> forall i :: 0 <= i < |es| ==> f(es[i].0, es[i].1).Ok?
    ensures TranslateAll(es, f).Ok? ==>
      var out := TranslateAll(es, f).value;
      |out| == |es| && forall i :: 0 <= i < |es| ==> out[i] == (es[i].0, f(es[i].0, es[i].1).value)
  {
    if es != [] {
      TranslateAllOk(es[1..], f);
      if f(es[0].0, es[0].1).Ok? && TranslateAll(es[1..], f).Ok? {
        var out, rest := TranslateAll(es, f).value, TranslateAll(es[1..], f).value;
        forall i | 0 <= i < |es| ensures out[i] == (es[i].0, f(es[i].0, es[i].1).value) {
          if i > 0 { assert out[i] == rest[i - 1] && es[i] == es[1..][i - 1]; }
        }
      } else if f(es[0].0, es[0].1).Ok? {
        var i :| 0 <= i < |es[1..]| && !f(es[1..][i].0, es[1..][i].1).Ok?;
        assert es[1..][i] == es[i + 1];
      }
    }
  }

  /** On failure `TranslateAll` reports the error of the first entry that fails. */
  lemma {:induction false} TranslateAllFirstError(es: seq<(string, Json)>, f: (string, Json) -> Result<Validator, Error>)
    requires TranslateAll(es, f).Err?
    ensures exists i :: 0 <= i < |es| && f(es[i].0, es[i].1) == Err(TranslateAll(es, f).error) &&
                        (forall j :: 0 <= j < i ==> f(es[j].0, es[j].1).Ok?)
  {
    if f(es[0].0, es[0].1).Ok? {
      TranslateAllFirstError(es[1..], f);
      var i :| 0 <= i < |es[1..]| && f(es[1..][i].0, es[1..][i].1) == Err(TranslateAll(es[1..], f).error) &&
        forall j :: 0 <= j < i ==> f(es[1..][j].0, es[1..][j].1).Ok?;
      assert es[1..][i] == es[i + 1];
      forall j | 0 <= j < i + 1 ensures f(es[j].0, es[j].1).Ok? {
        if j > 0 { assert es[j] == es[1..][j - 1]; }
      }
    } else {
      assert f(es[0].0, es[0].1) == Err(TranslateAll(es, f).error);
    }
  }

  /** After the first entry is put into `shape`, the remaining keys are still distinct and
      still new. */
  lemma TailKeysFresh(es: seq<(string, Json)>, shape: Records.Record<Validator>, v: Validator)
    requires shape.Valid() && es != []
    requires Records.Distinct(Keys(es)) && forall i :: 0 <= i < |es| ==> es[i].0 !in shape.keys
    ensures Records.Distinct(Keys(es[1..]))
    ensures forall i :: 0 <= i < |es[1..]| ==> es[1..][i].0 !in Records.Put(shape, es[0].0, v).keys
  {
    assert forall i :: 0 <= i < |es[1..]| ==> Keys(es[1..])[i] == Keys(es)[i + 1];
    forall i | 0 <= i < |es[1..]| ensures es[1..][i].0 !in Records.Put(shape, es[0].0, v).keys {
      assert Keys(es)[0] != Keys(es)[i + 1];
    }
  }

  /** The `object` loop is the reference translation of its entries, appended to what the
      shape already holds, when no key repeats. */
  lemma {:induction false} PropertiesShapeTranslates(es: seq<(string, Json)>, shape: Records.Record<Validator>, bound: nat)
    requires shape.Valid()
    requires forall i :: 0 <= i < |es| ==> Size(es[i].1) < bound
    requires Records.Distinct(Keys(es)) && forall i :: 0 <= i < |es| ==> es[i].0 !in shape.keys
    ensures PropertiesShape(es, shape, bound) ==
      match TranslateAll(es, PropertyValidator)
      case Ok(out) => Ok(Obj(Records.Entries(shape) + out))
      case Err(e) => Err(e)
    decreases |es|
  {
    if es == [] {
      assert Records.Entries(shape) + [] == Records.Entries(shape);
    } else {
      var entry := PropertyValidator(es[0].0, es[0].1);
      if entry.Ok? {
        var shape' := Records.Put(shape, es[0].0, entry.value);
        TailKeysFresh(es, shape, entry.value);
        PropertiesShapeTranslates(es[1..], shape', bound);
        Records.PutEntries(shape, es[0].0, entry.value);
        AppendShape(Records.Entries(shape), (es[0].0, entry.value), TranslateAll(es[1..], PropertyValidator));
      }
    }
  }

  /** The same for `generateZodSchema`'s loop. */
  lemma {:induction false} AttributesShapeTranslates(es: seq<(string, Json)>, shape: Records.Record<Validator>)
    requires shape.Valid()
    requires Records.Distinct(Keys(es)) && forall i :: 0 <= i < |es| ==> es[i].0 !in shape.keys
    ensures AttributesShape(es, shape) ==
      match TranslateAll(es, AttributeValidator)
      case Ok(out) => Ok(Obj(Records.Entries(shape) + out))
      case Err(e) => Err(e)
  {
    if es == [] {
      assert Records.Entries(shape) + [] == Records.Entries(shape);
    } else {
      var entry := AttributeValidator(es[0].0, es[0].1);
      if entry.Ok? {
        var shape' := Records.Put(shape, es[0].0, entry.value);
        TailKeysFresh(es, shape, entry.value);
        AttributesShapeTranslates(es[1..], shape');
        Records.PutEntries(shape, es[0].0, entry.value);
        AppendShape(Records.Entries(shape), (es[0].0, entry.value), TranslateAll(es[1..], AttributeValidator));
      }
    }
  }

  lemma AppendShape(done: seq<(string, Validator)>, entry: (string, Validator), rest: Result<seq<(string, Validator)>, Error>)
    ensures (match rest case Ok(out) => Ok(Obj(done + [entry] + out)) case Err(e) => Err(e)) ==
            (match (match rest case Ok(out) => Ok([entry] + out) case Err(e) => Err(e))
             case Ok(out) => Ok(Obj(done + out)) case Err(e) => Err(e))
  {
    if rest.Ok? { assert done + [entry] + rest.value == done + ([entry] + rest.value); }
  }

  // ---------------------------------------------------------------------------------------
  // The dispatch table.

  /** Every tag maps to a shape; only `array` and `object` read the field. */
  lemma TagTable(tag: Option<string>, field: Json)
    ensures tag.None? ==> MapType(tag, field) == Ok(Unvalidated)
    ensures tag.Some? && tag.value in StringTags ==> MapType(tag, field) == Ok(Str)
    ensures tag == Some("datetime") ==> MapType(tag, field) == Ok(DateTime)
    ensures tag == Some("boolean") ==> MapType(tag, field) == Ok(Bool)
    ensures tag == Some("number") ==> MapType(tag, field) == Ok(Num)
    ensures tag == Some("media") ==> MapType(tag, field) == Ok(MediaShape)
    ensures tag == Some("dynamiczone") ==> MapType(tag, field) == Ok(DynamicZoneShape)
    ensures tag == Some("relation") ==> MapType(tag, field) == Ok(Unvalidated)
    ensures tag.Some? && tag.value !in Tags ==> MapType(tag, field) == Ok(Unvalidated)
  {
  }

  /** Only the selected thunk runs: a tag other than `array` or `object` never fails and
      does not depend on the field, however malformed its `items` or `properties`. */
  lemma OnlyCompositesFail(tag: Option<string>, field: Json, other: Json)
    ensures MapType(tag, field).Err? ==> tag == Some("array") || tag == Some("object")
    ensures tag != Some("array") && tag != Some("object") ==> MapType(tag, field) == MapType(tag, other)
  {
  }

  /** `array` wraps the shape mapped from `items.type` and `items`, and fails when `items` is
      missing or null. */
  lemma ArrayElement(field: Json)
    ensures Get(field, "items").None? || Get(field, "items") == Some(JNull) ==>
      MapType(Some("array"), field) == Err(TypeError("items"))
    ensures Get(field, "items").Some? && Get(field, "items") != Some(JNull) ==>
      var items := Get(field, "items").value;
      MapType(Some("array"), field) ==
        match MapType(TagOf(Get(items, "type")), items)
        case Ok(element) => Ok(Arr(element))
        case Err(e) => Err(e)
  {
  }

  /** `object` is the reference translation of the entries of `properties`: a record with one
      member per property in order, or the first property's error. */
  lemma ObjectTranslates(field: Json, props: Json)
    requires Get(field, "properties") == Some(props) && !props.JNull?
    requires props.JObj? ==> Records.Distinct(Keys(props.fields))
    ensures MapType(Some("object"), field) ==
      match TranslateAll(Entries(props), PropertyValidator)
      case Ok(out) => Ok(Obj(out))
      case Err(e) => Err(e)
  {
    GetSize(field, "properties");
    EntriesSize(props);
    EntriesDistinct(props);
    var empty: Records.Record<Validator> := Records.Empty();
    PropertiesShapeTranslates(Entries(props), empty, Size(field));
    assert MapType(Some("object"), field) == PropertiesShape(Entries(props), empty, Size(field));
    if TranslateAll(Entries(props), PropertyValidator).Ok? {
      var out := TranslateAll(Entries(props), PropertyValidator).value;
      assert Records.Entries(empty) + out == out;
    }
  }

  /** `object` fails naming the first property that is not a non-null object holding a
      `type` member, when every earlier property translates. */
  lemma ObjectFirstInvalid(field: Json, props: Json, i: nat)
    requires Get(field, "properties") == Some(props) && !props.JNull?
    requires props.JObj? ==> Records.Distinct(Keys(props.fields))
    requires i < |Entries(props)|
    requires !(Entries(props)[i].1.JObj? && HasMember(Entries(props)[i].1, "type"))
    requires forall j :: 0 <= j < i ==> PropertyValidator(Entries(props)[j].0, Entries(props)[j].1).Ok?
    ensures MapType(Some("object"), field) == Err(InvalidFieldValue(Entries(props)[i].0))
  {
    ObjectTranslates(field, props);
    var es := Entries(props);
    TranslateAllOk(es, PropertyValidator);
    TranslateAllFirstError(es, PropertyValidator);
    var k :| 0 <= k < |es| && PropertyValidator(es[k].0, es[k].1) == Err(TranslateAll(es, PropertyValidator).error) &&
      (forall j :: 0 <= j < k ==> PropertyValidator(es[j].0, es[j].1).Ok?);
    assert !(i < k) && !(k < i);
  }

  // ---------------------------------------------------------------------------------------
  // The top level.

  /** `generateZodSchema` gives a record with exactly the attribute keys, in order, each
      mapped from its own definition; or the error of the first attribute that fails. */
  lemma GenerateSchemaShape(attributes: Json)
    requires !attributes.JNull?
    requires attributes.JObj? ==> Records.Distinct(Keys(attributes.fields))
    ensures var es := Entries(attributes);
      GenerateSchema(attributes).Ok? <==> forall i :: 0 <= i < |es| ==> AttributeValidator(es[i].0, es[i].1).Ok?
    ensures var es := Entries(attributes);
      GenerateSchema(attributes).Ok? ==>
        GenerateSchema(attributes).value.Obj? &&
        var shape := GenerateSchema(attributes).value.shape;
        |shape| == |es| && forall i :: 0 <= i < |es| ==> shape[i] == (es[i].0, AttributeValidator(es[i].0, es[i].1).value)
    ensures var es := Entries(attributes);
      GenerateSchema(attributes).Err? ==>
        exists i :: 0 <= i < |es| && AttributeValidator(es[i].0, es[i].1) == GenerateSchema(attributes) &&
                    (forall j :: 0 <= j < i ==> AttributeValidator(es[j].0, es[j].1).Ok?)
  {
    var es := Entries(attributes);
    EntriesDistinct(attributes);
    var empty: Records.Record<Validator> := Records.Empty();
    AttributesShapeTranslates(es, empty);
    if TranslateAll(es, AttributeValidator).Ok? {
      assert Records.Entries(empty) + TranslateAll(es, AttributeValidator).value == TranslateAll(es, AttributeValidator).value;
    }
    TranslateAllOk(es, AttributeValidator);
    if TranslateAll(es, AttributeValidator).Err? {
      TranslateAllFirstError(es, AttributeValidator);
    }
  }

  /** An attribute without `type` is unvalidated, whereas a property without `type` inside
      an `object` is an error. */
  lemma MissingTypeAttributeVersusProperty(key: string, value: Json)
    requires !value.JNull? && !HasMember(value, "type")
    ensures AttributeValidator(key, value) == Ok(Unvalidated)
    ensures PropertyValidator(key, value) == Err(InvalidFieldValue(key))
  {
  }

  /** The field an attribute is mapped with never holds `type`, and otherwise holds the
      attribute's own members. */
  lemma AttributeFieldStripped(key: string, value: Json)
    requires value.JObj?
    ensures AttributeValidator(key, value) == MapType(TagOf(Get(value, "type")), RestOf(value, "type"))
    ensures !HasMember(RestOf(value, "type"), "type")
    ensures forall j :: j != "type" ==> Get(RestOf(value, "type"), j) == Get(value, j)
  {
  }
}
