/** The list of name/value entries behind a `URLSearchParams` object, with the `append` and
    `set` operations of section 6.2 of the WHATWG URL Standard. Percent-encoding and
    serialisation of the list are not part of this model. */
module UrlSearch {

  type Entry = (string, string)

  /** The entries named `n`, in list order. */
  function Named(l: seq<Entry>, n: string): seq<Entry> {
    if l == [] then []
    else (if l[0].0 == n then [l[0]] else []) + Named(l[1..], n)
  }

  /** The entries not named `n`, in list order: every entry with that name goes, since a
      parameter list may repeat a name (unlike `JsonValues.Without` on object members). */
  function Without(l: seq<Entry>, n: string): seq<Entry> {
    if l == [] then []
    else (if l[0].0 == n then [] else [l[0]]) + Without(l[1..], n)
  }

  lemma {:induction false} NamedConcat(a: seq<Entry>, b: seq<Entry>, n: string)
    ensures Named(a + b, n) == Named(a, n) + Named(b, n)
  {
    if a != [] {
      assert (a + b)[1..] == a[1..] + b;
      NamedConcat(a[1..], b, n);
    } else {
      assert a + b == b;
    }
  }

  lemma {:induction false} WithoutConcat(a: seq<Entry>, b: seq<Entry>, n: string)
    ensures Without(a + b, n) == Without(a, n) + Without(b, n)
  {
    if a != [] {
      assert (a + b)[1..] == a[1..] + b;
      WithoutConcat(a[1..], b, n);
    } else {
      assert a + b == b;
    }
  }

  /** Dropping the entries named `n` leaves none named `n` and every other name untouched. */
  lemma {:induction false} NamedWithout(l: seq<Entry>, n: string, m: string)
    ensures Named(Without(l, n), m) == if m == n then [] else Named(l, m)
  {
    if l != [] {
      NamedWithout(l[1..], n, m);
      var head := if l[0].0 == n then [] else [l[0]];
      NamedConcat(head, Without(l[1..], n), m);
      if head != [] { assert head[1..] == []; }
    }
  }

  lemma {:induction false} WithoutIdempotent(l: seq<Entry>, n: string)
    ensures Without(Without(l, n), n) == Without(l, n)
  {
    if l != [] {
      WithoutIdempotent(l[1..], n);
      var head := if l[0].0 == n then [] else [l[0]];
      WithoutConcat(head, Without(l[1..], n), n);
      if head != [] { assert head[1..] == []; }
    }
  }

  /** `set(n, v)`: when the list has entries named `n`, the first takes the value `v` and the
      others are removed; otherwise `(n, v)` is appended. Afterwards `n` occurs exactly once
      with value `v`, and the entries with other names are exactly as before, in order. */
  function SetEntry(l: seq<Entry>, n: string, v: string): (r: seq<Entry>)
    ensures Named(r, n) == [(n, v)]
    ensures forall m :: m != n ==> Named(r, m) == Named(l, m)
    ensures Without(r, n) == Without(l, n)
  {
    if l == [] then
      [(n, v)]
    else if l[0].0 == n then
      var r := [(n, v)] + Without(l[1..], n);
      assert r[1..] == Without(l[1..], n);
      NamedWithout(l[1..], n, n);
      forall m | m != n ensures Named(r, m) == Named(l, m) {
        NamedWithout(l[1..], n, m);
      }
      WithoutIdempotent(l[1..], n);
      r
    else
      var r := [l[0]] + SetEntry(l[1..], n, v);
      assert r[1..] == SetEntry(l[1..], n, v);
      r
  }

  /** `set` on a name the list already holds overwrites its first occurrence in place. */
  lemma {:induction false} SetEntryInPlace(l: seq<Entry>, n: string, v: string, i: nat)
    requires i < |l| && l[i].0 == n
    requires forall j :: 0 <= j < i ==> l[j].0 != n
    ensures SetEntry(l, n, v) == l[..i] + [(n, v)] + Without(l[i + 1..], n)
  {
    if i > 0 {
      SetEntryInPlace(l[1..], n, v, i - 1);
      assert l[1..][i..] == l[i + 1..];
      assert l[..i] == [l[0]] + l[1..][..i - 1];
    }
  }

  /** `set` on a name the list does not hold appends the entry. */
  lemma {:induction false} SetEntryAppends(l: seq<Entry>, n: string, v: string)
    requires forall j :: 0 <= j < |l| ==> l[j].0 != n
    ensures SetEntry(l, n, v) == l + [(n, v)]
  {
    if l != [] {
      SetEntryAppends(l[1..], n, v);
      assert l == [l[0]] + l[1..];
    }
  }

  /** A `URLSearchParams` object: its entry list, changed in place by `append` and `set`. */
  class SearchParams {
    var list: seq<Entry>

    constructor ()
      ensures list == []
    {
      list := [];
    }

    /** `append(name, value)` */
    method Append(name: string, value: string)
      modifies this
      ensures list == old(list) + [(name, value)]
    {
      list := list + [(name, value)];
    }

    /** `set(name, value)` */
    method Set(name: string, value: string)
      modifies this
      ensures list == SetEntry(old(list), name, value)
    {
      list := SetEntry(list, name, value);
    }
  }
}
