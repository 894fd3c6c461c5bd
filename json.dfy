/** Decoded JSON bodies, as JavaScript sees them after `response.json()`. */
module JsonValues {
  import opened Wrappers
  import opened Text
  import Records

  /** A JSON value. Object members keep their document order; a decoded object never repeats
      a key. Numbers are integers in this model. */
  datatype Json =
    | JNull
    | JBool(b: bool)
    | JNum(n: int)
    | JStr(s: string)
    | JArr(items: seq<Json>)
    | JObj(fields: seq<(string, Json)>)

  /** The value of the first member named `k`. */
  function Lookup(fields: seq<(string, Json)>, k: string): Option<Json> {
    if fields == [] then None
    else if fields[0].0 == k then Some(fields[0].1)
    else Lookup(fields[1..], k)
  }

  /** `v[k]` (also `v?.k`) on a decoded JSON value: an object's member, undefined for any
      other value; `Records.Get` is the same read on an object the adapter builds. The members
      the adapter reads (`data`, `attributes`, `type`, `items`, `properties`) are never
      properties of strings, numbers or arrays. */
  function Get(v: Json, k: string): Option<Json> {
    match v
    case JObj(fields) => Lookup(fields, k)
    case _ => None
  }

  /** `k in v` for an object `v`. */
  predicate HasMember(v: Json, k: string) {
    Get(v, k).Some?
  }

  /** JavaScript truthiness of a JSON value. */
  predicate Truthy(v: Json) {
    match v
    case JNull => false
    case JBool(b) => b
    case JNum(n) => n != 0
    case JStr(s) => s != ""
    case _ => true
  }

  /** `Object.entries(v)` for a non-null value: an object's members; an array's or a string's
      elements keyed by their index; nothing for a number or a boolean. */
  function Entries(v: Json): seq<(string, Json)>
    requires !v.JNull?
  {
    match v
    case JObj(fields) => fields
    case JArr(items) => seq(|items|, i requires 0 <= i < |items| => (NatToString(i), items[i]))
    case JStr(s) => seq(|s|, i requires 0 <= i < |s| => (NatToString(i), JStr([s[i]])))
    case _ => []
  }

  /** The keys of an entry list, in order. */
  function Keys(es: seq<(string, Json)>): (ks: seq<string>)
    ensures |ks| == |es| && forall i :: 0 <= i < |es| ==> ks[i] == es[i].0
  {
    seq(|es|, i requires 0 <= i < |es| => es[i].0)
  }

  /** `Object.entries` never lists a key twice: an array's or a string's index keys are
      distinct, and so are the keys of an object that repeats none. */
  lemma EntriesDistinct(v: Json)
    requires !v.JNull? && (v.JObj? ==> Records.Distinct(Keys(v.fields)))
    ensures Records.Distinct(Keys(Entries(v)))
  {
    var ks := Keys(Entries(v));
    forall i, j | 0 <= i < j < |ks| ensures ks[i] != ks[j] {
      if v.JArr? || v.JStr? {
        assert ks[i] == NatToString(i) && ks[j] == NatToString(j);
        NatToStringInjective(i, j);
      }
    }
  }

  /** The members of `fields` other than those named `k`, in order: the decoded-member
      counterpart of `UrlSearch.Without`, used for the object rest. */
  function Without(fields: seq<(string, Json)>, k: string): (rest: seq<(string, Json)>)
    ensures Lookup(rest, k) == None
    ensures forall j :: j != k ==> Lookup(rest, j) == Lookup(fields, j)
    ensures forall i :: 0 <= i < |rest| ==> rest[i] in fields && rest[i].0 != k
  {
    if fields == [] then []
    else if fields[0].0 == k then Without(fields[1..], k)
    else [fields[0]] + Without(fields[1..], k)
  }

  /** The rest of a non-null `v` after destructuring its member `k`: a fresh object holding the
      other own enumerable members of `v`. */
  function RestOf(v: Json, k: string): (rest: Json)
    requires !v.JNull?
    ensures rest.JObj? && !HasMember(rest, k)
    ensures forall j :: j != k ==> Get(rest, j) == Lookup(Entries(v), j)
  {
    JObj(Without(Entries(v), k))
  }

  /** A size measure: the number of JSON values a value is built from. */
  function Size(v: Json): nat
    decreases v, 1
  {
    match v
    case JArr(items) => 1 + ItemsSize(items)
    case JObj(fields) => 1 + FieldsSize(v, 0)
    case _ => 1
  }

  function ItemsSize(items: seq<Json>): nat {
    if items == [] then 0 else Size(items[0]) + ItemsSize(items[1..])
  }

  /** The sizes of the member values of object `v` from the `i`-th on. */
  function FieldsSize(v: Json, i: nat): nat
    requires v.JObj? && i <= |v.fields|
    decreases v, 0, |v.fields| - i
  {
    if i == |v.fields| then 0 else Size(v.fields[i].1) + FieldsSize(v, i + 1)
  }

  lemma {:induction false} ItemSize(items: seq<Json>, i: nat)
    requires i < |items|
    ensures Size(items[i]) <= ItemsSize(items)
  {
    if i > 0 { ItemSize(items[1..], i - 1); }
  }

  lemma {:induction false} FieldSize(v: Json, i: nat, j: nat)
    requires v.JObj? && i <= j < |v.fields|
    ensures Size(v.fields[j].1) <= FieldsSize(v, i)
    decreases j - i
  {
    if i < j { FieldSize(v, i + 1, j); }
  }

  /** Where `Lookup` finds its value. */
  lemma {:induction false} LookupIndex(fields: seq<(string, Json)>, k: string) returns (j: nat)
    requires Lookup(fields, k).Some?
    ensures j < |fields| && fields[j] == (k, Lookup(fields, k).value)
  {
    if fields[0].0 == k {
      j := 0;
    } else {
      var j' := LookupIndex(fields[1..], k);
      j := j' + 1;
    }
  }

  /** A member is smaller than the object that holds it. */
  lemma GetSize(v: Json, k: string)
    requires Get(v, k).Some?
    ensures Size(Get(v, k).value) < Size(v)
  {
    var j := LookupIndex(v.fields, k);
    FieldSize(v, 0, j);
  }

  /** No entry's value is larger than the value it was listed from. */
  lemma EntriesSize(v: Json)
    requires !v.JNull?
    ensures forall i :: 0 <= i < |Entries(v)| ==> Size(Entries(v)[i].1) <= Size(v)
  {
    var es := Entries(v);
    forall i | 0 <= i < |es| ensures Size(es[i].1) <= Size(v) {
      match v
      case JObj(fields) => FieldSize(v, 0, i);
      case JArr(items) => ItemSize(items, i);
      case _ =>
    }
  }
}
