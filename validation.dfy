/** What a translated validator accepts when a record is parsed against it. The ISO 8601
    check of `datetime` is a parameter. */
module Validation {
  import opened Wrappers
  import opened JsonValues
  import opened Schema

  /** Whether parsing `x` (None for a missing member) against shape `v` succeeds. A record
      accepts any object whose listed members it accepts, whatever else the object holds. */
  predicate Accepts(v: Validator, x: Option<Json>, isDateTime: string -> bool)
    decreases v
  {
    match v
    case Unvalidated => true
    case Optional(inner) => x.None? || Accepts(inner, x, isDateTime)
    case Str => x.Some? && x.value.JStr?
    case DateTime => x.Some? && x.value.JStr? && isDateTime(x.value.s)
    case Bool => x.Some? && x.value.JBool?
    case Num => x.Some? && x.value.JNum?
    case Arr(element) =>
      x.Some? && x.value.JArr? &&
      forall i :: 0 <= i < |x.value.items| ==> Accepts(element, Some(x.value.items[i]), isDateTime)
    case Obj(shape) =>
      x.Some? && x.value.JObj? &&
      forall i :: 0 <= i < |shape| ==> Accepts(shape[i].1, Get(x.value, shape[i].0), isDateTime)
  }

  /** An unrecognised tag such as `custom-widget` yields a validator that accepts anything,
      even a missing member. */
  lemma UnknownTagAcceptsAll(field: Json, x: Option<Json>, isDateTime: string -> bool)
    ensures MapType(Some("custom-widget"), field) == Ok(Unvalidated)
    ensures Accepts(MapType(Some("custom-widget"), field).value, x, isDateTime)
  {
  }

  /** Exactly the values a media member accepts: an object with a string `url`, and an
      `alternativeText` and `caption` that are strings and a `width` and `height` that are
      numbers wherever they are present. */
  lemma MediaMembers(x: Option<Json>, isDateTime: string -> bool)
    ensures Accepts(MediaShape, x, isDateTime) <==>
      x.Some? && x.value.JObj? &&
      Get(x.value, "url").Some? && Get(x.value, "url").value.JStr? &&
      (Get(x.value, "alternativeText").None? || Get(x.value, "alternativeText").value.JStr?) &&
      (Get(x.value, "caption").None? || Get(x.value, "caption").value.JStr?) &&
      (Get(x.value, "width").None? || Get(x.value, "width").value.JNum?) &&
      (Get(x.value, "height").None? || Get(x.value, "height").value.JNum?)
  {
    var shape := MediaShape.shape;
    assert shape[0] == ("url", Str) && shape[1] == ("alternativeText", Optional(Str));
    assert shape[2] == ("caption", Optional(Str)) && shape[3] == ("width", Optional(Num));
    assert shape[4] == ("height", Optional(Num)) && |shape| == 5;
  }

  /** A media member needs a string `url`; the other four members may be missing. */
  lemma MediaNeedsUrl(url: string, isDateTime: string -> bool)
    ensures Accepts(MediaShape, Some(JObj([("url", JStr(url))])), isDateTime)
    ensures !Accepts(MediaShape, Some(JObj([("caption", JStr(url))])), isDateTime)
  {
    var shape := MediaShape.shape;
    var given, other := JObj([("url", JStr(url))]), JObj([("caption", JStr(url))]);
    assert "url"[0] == 'u' && "caption"[0] == 'c';
    assert Lookup(other.fields[1..], "url") == None;
    assert Get(other, shape[0].0) == None;
    forall i | 1 <= i < |shape| ensures Get(given, shape[i].0) == None {
      assert shape[i].0[0] != 'u';
      assert Lookup(given.fields[1..], shape[i].0) == None;
    }
  }

  function TitleViews(): Json {
    JObj([("title", JObj([("type", JStr("string"))])), ("views", JObj([("type", JStr("number"))]))])
  }

  lemma TitleViewsSchema()
    ensures GenerateSchema(TitleViews()) == Ok(Obj([("title", Str), ("views", Num)]))
  {
    var attributes := TitleViews();
    assert Keys(attributes.fields)[0][0] != Keys(attributes.fields)[1][0];
    GenerateSchemaShape(attributes);
    var es := Entries(attributes);
    assert AttributeValidator(es[0].0, es[0].1) == Ok(Str);
    assert AttributeValidator(es[1].0, es[1].1) == Ok(Num);
    assert |es| == 2;
    assert GenerateSchema(attributes).Ok?;
    var shape := GenerateSchema(attributes).value.shape;
    assert |shape| == 2 && shape[0] == ("title", Str) && shape[1] == ("views", Num);
    assert shape == [("title", Str), ("views", Num)];
  }

  /** `{title: string, views: number}` accepts `{title: "x", views: 3}` and rejects
      `{title: 3, views: "x"}`. */
  lemma TitleViewsExample(isDateTime: string -> bool)
    ensures GenerateSchema(TitleViews()).Ok?
    ensures Accepts(GenerateSchema(TitleViews()).value, Some(JObj([("title", JStr("x")), ("views", JNum(3))])), isDateTime)
    ensures !Accepts(GenerateSchema(TitleViews()).value, Some(JObj([("title", JNum(3)), ("views", JStr("x"))])), isDateTime)
  {
    TitleViewsSchema();
    var v := Obj([("title", Str), ("views", Num)]);
    var good := JObj([("title", JStr("x")), ("views", JNum(3))]);
    assert Get(good, "title") == Some(JStr("x")) && Get(good, "views") == Some(JNum(3));
    assert Get(JObj([("title", JNum(3)), ("views", JStr("x"))]), v.shape[0].0) == Some(JNum(3));
  }

  function NestedMissingType(): Json {
    JObj([("tags", JObj([
      ("type", JStr("array")),
      ("items", JObj([
        ("type", JStr("object")),
        ("properties", JObj([("name", JObj([("kind", JStr("string"))]))]))]))]))])
  }

  /** An `array` of `object` whose property lacks `type` fails, naming that property. */
  lemma NestedMissingTypeFails()
    ensures GenerateSchema(NestedMissingType()) == Err(Errors.InvalidFieldValue("name"))
    ensures Errors.Message(GenerateSchema(NestedMissingType()).error) == "Invalid field value for key: name"
  {
    var items := JObj([
      ("type", JStr("object")),
      ("properties", JObj([("name", JObj([("kind", JStr("string"))]))]))]);
    assert MapType(Some("object"), items) == Err(Errors.InvalidFieldValue("name"));
    var tags := NestedMissingType().fields[0].1;
    assert Get(RestOf(tags, "type"), "items") == Some(items);
    assert MapType(Some("array"), RestOf(tags, "type")) == Err(Errors.InvalidFieldValue("name"));
  }
}
