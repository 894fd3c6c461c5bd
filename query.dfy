/** The query builder: `StrapiQueryOptions` with its defaults (fetchStrapiContent) and the
    search parameters fetchFromStrapi assembles from a parameter object. */
module Query {
  import opened Wrappers
  import opened Text
  import Records
  import opened UrlSearch

  datatype Paginate = Paginate(limit: int)

  /** `StrapiQueryOptions`; `None` stands for a property left undefined. */
  datatype QueryOptions = QueryOptions(
    contentType: string,
    filter: Option<string>,
    populate: Option<string>,
    sort: Option<string>,
    paginate: Option<Paginate>)

  const DefaultPopulate: string := "SEO.socialImage"
  const DefaultSort: string := "updatedAt:desc"
  const DefaultLimit: string := "25"
  const PopulateName: string := "populate"
  const LimitName: string := "pagination[limit]"
  const SortName: string := "sort"
  /** What `set` stores for an undefined value: the string JavaScript makes of `undefined`. */
  const UndefinedText: string := "undefined"

  /** The collection path: the content type pluralised by a literal "s". */
  function ContentPath(contentType: string): (path: string)
    ensures |path| == |contentType| + 6
    ensures path[..5] == "/api/" && path[5..|path| - 1] == contentType && path[|path| - 1] == 's'
  {
    "/api/" + contentType + "s"
  }

  /** The path of the schema endpoint for a content type. */
  function SchemaPath(contentType: string): (path: string)
    ensures |path| == |contentType| + 26
    ensures path[..26] == "/get-strapi-schema/schema/" && path[26..] == contentType
  {
    "/get-strapi-schema/schema/" + contentType
  }

  /** A non-empty filter is split on "=" into its first two pieces, key and value; a missing
      or empty filter gives two empty strings, and one without "=" leaves the value undefined. */
  function SplitFilter(filter: Option<string>): (r: (string, string))
    ensures '=' !in r.0 && '=' !in r.1
  {
    if filter.None? || filter.value == "" then ("", "")
    else
      var parts := Split(filter.value, '=');
      assert '=' !in UndefinedText by { assert forall k :: 0 <= k < |UndefinedText| ==> UndefinedText[k] != '='; }
      (parts[0], if |parts| >= 2 then parts[1] else UndefinedText)
  }

  /** The filter key is the text before the first "="; the value is the text from there up to
      the next "=" or the end, and whatever follows a second "=" is lost. A filter without "="
      keeps all of its text as the key. */
  lemma SplitFilterMeaning(f: string)
    requires f != ""
    ensures '=' !in SplitFilter(Some(f)).0
    ensures '=' !in f ==> SplitFilter(Some(f)) == (f, UndefinedText)
    ensures '=' in f ==> SplitFilter(Some(f)).0 == f[..IndexOf(f, '=')]
    ensures '=' in f ==> FirstPiece(f[IndexOf(f, '=') + 1..], SplitFilter(Some(f)).1)
  {
    SplitHead(f, '=');
    if '=' in f {
      var i := IndexOf(f, '=');
      var t := f[i + 1..];
      SplitHead(t, '=');
      if '=' in t {
        var j := IndexOf(t, '=');
        assert t[..j] == t[..|t[..j]|];
      } else {
        assert t[..|t|] == t;
      }
    }
  }

  /** `piece` is the longest "="-free prefix of `t`. */
  predicate FirstPiece(t: string, piece: string) {
    '=' !in piece && |piece| <= |t| && t[..|piece|] == piece &&
    (|piece| == |t| || t[|piece|] == '=')
  }

  /** The page size sent: a given non-zero limit written in decimal, else the default "25". */
  function LimitValue(paginate: Option<Paginate>): (r: string)
    ensures r != "0"
    ensures paginate.Some? && paginate.value.limit > 0 ==> IsDigits(r) && DigitsValue(r) == paginate.value.limit
    ensures paginate.Some? && paginate.value.limit < 0 ==> |r| >= 2 && r[0] == '-'
    ensures (paginate.None? || paginate.value.limit == 0) ==> r == DefaultLimit
  {
    if paginate.Some? && paginate.value.limit > 0 then
      NonZeroString(paginate.value.limit);
      NatToStringRoundTrip(paginate.value.limit);
      IntToString(paginate.value.limit)
    else if paginate.Some? && paginate.value.limit < 0 then IntToString(paginate.value.limit)
    else DefaultLimit
  }

  /** The parameter object fetchStrapiContent passes on: the filter entry first, then
      `populate`, `pagination[limit]` and `sort`, each filled with its default. A filter whose
      key is one of those three names is overwritten in place by the literal property. */
  function ContentParams(q: QueryOptions): (params: Records.Record<string>)
    ensures params.Valid()
  {
    var (key, value) := SplitFilter(q.filter);
    var p0 := Records.Put(Records.Empty(), key, value);
    var p1 := Records.Put(p0, PopulateName, q.populate.GetOr(DefaultPopulate));
    var p2 := Records.Put(p1, LimitName, LimitValue(q.paginate));
    Records.Put(p2, SortName, q.sort.GetOr(DefaultSort))
  }

  /** The defaults of `populate`, `pagination[limit]` and `sort` take effect exactly when those
      options are absent (for the limit: absent or zero), whatever the filter key is; the
      filter keeps its entry only under a key other than those three, and its slot is first. */
  lemma ContentParamsMeaning(q: QueryOptions)
    ensures var params := ContentParams(q);
      var (key, value) := SplitFilter(q.filter);
      Records.Get(params, PopulateName) == Some(q.populate.GetOr(DefaultPopulate)) &&
      Records.Get(params, LimitName) == Some(LimitValue(q.paginate)) &&
      Records.Get(params, SortName) == Some(q.sort.GetOr(DefaultSort)) &&
      (key !in [PopulateName, LimitName, SortName] ==> Records.Get(params, key) == Some(value)) &&
      params.keys[0] == key &&
      (forall k :: k in params.keys <==> k in [key, PopulateName, LimitName, SortName])
  {
  }

  /** The parameter object has no key besides the filter key and the three literal names. */
  lemma ContentParamsKeys(q: QueryOptions, name: string)
    requires name !in [SplitFilter(q.filter).0, PopulateName, LimitName, SortName]
    ensures name !in ContentParams(q).keys
  {
    ContentParamsMeaning(q);
  }

  /** The populate value fetchFromStrapi sees is the option or its default. */
  lemma ContentParamsPopulate(q: QueryOptions)
    ensures ContentParams(q).Valid() && PopulateName in ContentParams(q).values
    ensures ContentParams(q).values[PopulateName] == q.populate.GetOr(DefaultPopulate)
    ensures ExpandsPopulate(ContentParams(q)) <==> q.populate.GetOr(DefaultPopulate) != ""
  {
    ContentParamsMeaning(q);
  }

  /** With a filter key other than the three literal names, the object holds the four entries
      in source order. */
  lemma ContentParamsOrder(q: QueryOptions)
    requires SplitFilter(q.filter).0 !in [PopulateName, LimitName, SortName]
    ensures Records.Entries(ContentParams(q)) == [SplitFilter(q.filter),
      (PopulateName, q.populate.GetOr(DefaultPopulate)),
      (LimitName, LimitValue(q.paginate)), (SortName, q.sort.GetOr(DefaultSort))]
  {
    var (key, value) := SplitFilter(q.filter);
    var populate, limit, sort := q.populate.GetOr(DefaultPopulate), LimitValue(q.paginate), q.sort.GetOr(DefaultSort);
    var p0 := Records.Put(Records.Empty(), key, value);
    var p1 := Records.Put(p0, PopulateName, populate);
    var p2 := Records.Put(p1, LimitName, limit);
    var p3 := Records.Put(p2, SortName, sort);
    assert p3 == ContentParams(q);
    assert p3.keys == [key, PopulateName, LimitName, SortName];
    assert Records.Get(p3, key) == Some(value) && Records.Get(p3, PopulateName) == Some(populate);
    assert Records.Get(p3, LimitName) == Some(limit) && Records.Get(p3, SortName) == Some(sort);
    Records.EntriesOfFour(p3);
  }

  /** The indexed populate name `populate[k]`. */
  function PopulateIndexName(k: nat): string {
    "populate[" + NatToString(k) + "]"
  }

  /** `populate[k]` is never `populate`, and different indexes give different names. */
  lemma PopulateIndexNameDistinct(j: nat, k: nat)
    ensures PopulateIndexName(k) !in [PopulateName, LimitName, SortName]
    ensures PopulateIndexName(j) == PopulateIndexName(k) ==> j == k
  {
    var a, b := PopulateIndexName(j), PopulateIndexName(k);
    assert |b| > |PopulateName|;
    assert b[1] == 'o' && LimitName[1] == 'a' && b[0] != SortName[0];
    if a == b {
      assert a[9..|a| - 1] == NatToString(j);
      assert b[9..|b| - 1] == NatToString(k);
      NatToStringInjective(j, k);
    }
  }

  /** The first dot segment of a populate field (the whole field when it has no dot). */
  function Parent(field: string): string {
    Split(field, '.')[0]
  }

  /** `${parent}.${child}` for a dotted field: its first two dot segments; any further
      segments are dropped. */
  function NestedPath(field: string): string
    requires '.' in field
  {
    var segs := Split(field, '.');
    SplitHead(field, '.');
    segs[0] + "." + segs[1]
  }

  /** The entries appended for the populate field at 0-based position `index`. */
  function FieldEntries(field: string, index: nat): (r: seq<Entry>)
    ensures |r| == if '.' in field then 2 else 1
    ensures r[0] == (PopulateName, if '.' in field then field[..IndexOf(field, '.')] else field)
  {
    SplitHead(field, '.');
    if '.' in field then
      [(PopulateName, Parent(field)), (PopulateIndexName(index + 1), NestedPath(field))]
    else
      [(PopulateName, field)]
  }

  /** The entries appended for a list of populate fields, field by field in list order. */
  function ExpandPopulate(fields: seq<string>): (r: seq<Entry>)
    ensures |fields| <= |r| <= 2 * |fields|
  {
    if fields == [] then []
    else
      var n := |fields| - 1;
      ExpandPopulate(fields[..n]) + FieldEntries(fields[n], n)
  }

  /** One `populate` entry per field, carrying the field's first dot segment. */
  function Heads(fields: seq<string>): seq<Entry> {
    seq(|fields|, i requires 0 <= i < |fields| => (PopulateName, Parent(fields[i])))
  }

  lemma FieldEntriesNamed(field: string, index: nat, m: string)
    ensures Named(FieldEntries(field, index), m) ==
      if m == PopulateName then [(PopulateName, Parent(field))]
      else if '.' in field && m == PopulateIndexName(index + 1) then [(m, NestedPath(field))]
      else []
  {
    PopulateIndexNameDistinct(index + 1, index + 1);
    SplitHead(field, '.');
    var es := FieldEntries(field, index);
    if '.' in field {
      assert es[1..][1..] == [];
      var second := (PopulateIndexName(index + 1), NestedPath(field));
      assert Named(es[1..], m) == (if second.0 == m then [second] else []);
    } else {
      assert es[1..] == [];
    }
  }

  /** The plain `populate` entries of the expansion are the fields' first dot segments, one per
      field, in list order. */
  lemma {:induction false} ExpandPopulateHeads(fields: seq<string>)
    ensures Named(ExpandPopulate(fields), PopulateName) == Heads(fields)
  {
    if fields != [] {
      var n := |fields| - 1;
      ExpandPopulateHeads(fields[..n]);
      NamedConcat(ExpandPopulate(fields[..n]), FieldEntries(fields[n], n), PopulateName);
      FieldEntriesNamed(fields[n], n, PopulateName);
      assert Heads(fields) == Heads(fields[..n]) + [(PopulateName, Parent(fields[n]))];
    }
  }

  /** `populate[k]` occurs exactly when the k-th field (1-based) has a dot, once, with the
      field's first two dot segments as its value. */
  lemma {:induction false} ExpandPopulateIndexed(fields: seq<string>, k: nat)
    ensures Named(ExpandPopulate(fields), PopulateIndexName(k)) ==
      if 1 <= k <= |fields| && '.' in fields[k - 1]
      then [(PopulateIndexName(k), NestedPath(fields[k - 1]))]
      else []
  {
    if fields != [] {
      var n := |fields| - 1;
      ExpandPopulateIndexed(fields[..n], k);
      NamedConcat(ExpandPopulate(fields[..n]), FieldEntries(fields[n], n), PopulateIndexName(k));
      FieldEntriesNamed(fields[n], n, PopulateIndexName(k));
      PopulateIndexNameDistinct(k, n + 1);
    }
  }

  /** The expansion holds no name other than `populate` and `populate[1]` to
      `populate[|fields|]`. */
  lemma {:induction false} ExpandPopulateNames(fields: seq<string>, m: string)
    requires m != PopulateName
    requires forall k: nat :: 1 <= k <= |fields| ==> m != PopulateIndexName(k)
    ensures Named(ExpandPopulate(fields), m) == []
  {
    if fields != [] {
      var n := |fields| - 1;
      ExpandPopulateNames(fields[..n], m);
      NamedConcat(ExpandPopulate(fields[..n]), FieldEntries(fields[n], n), m);
      FieldEntriesNamed(fields[n], n, m);
    }
  }

  /** No name occurs twice in a list of parameter entries: `Records.Distinct` on the names. */
  predicate DistinctNames(ps: seq<Entry>) {
    forall i, j :: 0 <= i < j < |ps| ==> ps[i].0 != ps[j].0
  }

  /** `set` applied to each entry of `ps`, in order, starting from the list `l`. */
  function SetAll(l: seq<Entry>, ps: seq<Entry>): seq<Entry> {
    if ps == [] then l
    else
      var n := |ps| - 1;
      SetEntry(SetAll(l, ps[..n]), ps[n].0, ps[n].1)
  }

  /** After setting entries with distinct names, each of those names occurs exactly once, with
      the value it was set to. */
  lemma {:induction false} SetAllNamed(l: seq<Entry>, ps: seq<Entry>, i: nat)
    requires DistinctNames(ps) && i < |ps|
    ensures Named(SetAll(l, ps), ps[i].0) == [ps[i]]
  {
    var n := |ps| - 1;
    var before := SetAll(l, ps[..n]);
    assert SetAll(l, ps) == SetEntry(before, ps[n].0, ps[n].1);
    if i < n {
      assert DistinctNames(ps[..n]) by {
        forall a, b | 0 <= a < b < n ensures ps[..n][a].0 != ps[..n][b].0 {
          assert ps[..n][a] == ps[a] && ps[..n][b] == ps[b];
        }
      }
      SetAllNamed(l, ps[..n], i);
      assert ps[..n][i] == ps[i] && ps[i].0 != ps[n].0;
    }
  }

  /** Setting entries leaves every other name's entries exactly as they were, in order. */
  lemma {:induction false} SetAllOthers(l: seq<Entry>, ps: seq<Entry>, m: string)
    requires forall i :: 0 <= i < |ps| ==> ps[i].0 != m
    ensures Named(SetAll(l, ps), m) == Named(l, m)
  {
    if ps != [] {
      SetAllOthers(l, ps[..|ps| - 1], m);
    }
  }

  /** Whether fetchFromStrapi expands `populate`: only when it is present and non-empty. */
  predicate ExpandsPopulate(params: Records.Record<string>) {
    var populate := Records.Get(params, PopulateName);
    populate.Some? && populate.value != ""
  }

  /** The query fetchFromStrapi builds from a parameter object: the populate entries appended
      first (when `populate` is truthy, which then leaves the object), then every remaining
      parameter applied with `set`, in the object's order. */
  function QueryOf(params: Records.Record<string>): seq<Entry>
    requires params.Valid()
  {
    if ExpandsPopulate(params) then
      var fields := Split(params.values[PopulateName], ',');
      SetAll(ExpandPopulate(fields), Records.Entries(Records.Delete(params, PopulateName)))
    else
      SetAll([], Records.Entries(params))
  }

  /** Every parameter that is set occurs exactly once in the query, with its value: all of
      them when `populate` is not expanded, all but `populate` when it is. */
  lemma QuerySetNames(params: Records.Record<string>, m: string)
    requires params.Valid() && m in params.keys
    requires ExpandsPopulate(params) ==> m != PopulateName
    ensures Named(QueryOf(params), m) == [(m, params.values[m])]
  {
    var rest := if ExpandsPopulate(params) then Records.Delete(params, PopulateName) else params;
    var ps := Records.Entries(rest);
    var i :| 0 <= i < |rest.keys| && rest.keys[i] == m;
    var base := if ExpandsPopulate(params) then ExpandPopulate(Split(params.values[PopulateName], ',')) else [];
    assert QueryOf(params) == SetAll(base, ps);
    SetAllNamed(base, ps, i);
  }

  /** Names that are not set keep exactly the entries the populate expansion gave them: the
      `populate` and `populate[k]` entries, unless a parameter of the same name replaced them. */
  lemma QueryPopulateNames(params: Records.Record<string>, m: string)
    requires params.Valid() && ExpandsPopulate(params)
    requires m == PopulateName || m !in params.keys
    ensures Named(QueryOf(params), m) ==
      Named(ExpandPopulate(Split(params.values[PopulateName], ',')), m)
  {
    var rest := Records.Delete(params, PopulateName);
    var ps := Records.Entries(rest);
    assert forall i :: 0 <= i < |ps| ==> ps[i].0 in rest.keys;
    SetAllOthers(ExpandPopulate(Split(params.values[PopulateName], ',')), ps, m);
  }

  /** Without expansion the query holds nothing but the set parameters. */
  lemma QueryNoExpansion(params: Records.Record<string>, m: string)
    requires params.Valid() && !ExpandsPopulate(params) && m !in params.keys
    ensures Named(QueryOf(params), m) == []
  {
    var ps := Records.Entries(params);
    assert forall i :: 0 <= i < |ps| ==> ps[i].0 in params.keys;
    SetAllOthers([], ps, m);
  }

  /** The body of the populate `forEach`: append the entries for the field at `index`. */
  method AppendField(search: SearchParams, field: string, index: nat)
    modifies search
    ensures search.list == old(search.list) + FieldEntries(field, index)
  {
    if '.' in field {
      var segs := Split(field, '.');
      SplitHead(field, '.');
      search.Append(PopulateName, segs[0]);
      search.Append(PopulateIndexName(index + 1), segs[0] + "." + segs[1]);
    } else {
      search.Append(PopulateName, field);
    }
  }

  /** The populate `forEach` on a fresh `URLSearchParams`. */
  method AppendPopulate(search: SearchParams, fields: seq<string>)
    requires search.list == []
    modifies search
    ensures search.list == ExpandPopulate(fields)
  {
    for i := 0 to |fields|
      invariant search.list == ExpandPopulate(fields[..i])
    {
      AppendField(search, fields[i], i);
      assert fields[..i + 1][..i] == fields[..i];
    }
    assert fields[..|fields|] == fields;
  }

  /** The `set` `forEach` over the entries of the parameter object. */
  method SetParams(search: SearchParams, entries: seq<Entry>)
    modifies search
    ensures search.list == SetAll(old(search.list), entries)
  {
    ghost var start := search.list;
    for j := 0 to |entries|
      invariant search.list == SetAll(start, entries[..j])
    {
      search.Set(entries[j].0, entries[j].1);
      assert entries[..j + 1][..j] == entries[..j];
    }
    assert entries[..|entries|] == entries;
  }

  /** fetchFromStrapi's parameter handling: append the populate entries to a fresh
      `URLSearchParams`, drop `populate` from the object, then `set` every remaining
      parameter. */
  method BuildQuery(params: Records.Record<string>) returns (query: seq<Entry>)
    requires params.Valid()
    ensures query == QueryOf(params)
  {
    var search := new SearchParams();
    var rest := params;
    var populate := Records.Get(params, PopulateName);
    if populate.Some? && populate.value != "" {
      AppendPopulate(search, Split(populate.value, ','));
      rest := Records.Delete(rest, PopulateName);
    }
    SetParams(search, Records.Entries(rest));
    query := search.list;
  }

  /** The query of a content request. */
  function ContentQuery(q: QueryOptions): seq<Entry> {
    QueryOf(ContentParams(q))
  }

  /** A content request carries `sort` and `pagination[limit]` once each, with their values
      or defaults; `populate` expanded from its value or default (a plain empty `populate=`
      entry when it is empty); and the filter once, unless its key is one of the literal
      names. */
  lemma ContentQueryMeaning(q: QueryOptions)
    ensures Named(ContentQuery(q), SortName) == [(SortName, q.sort.GetOr(DefaultSort))]
    ensures Named(ContentQuery(q), LimitName) == [(LimitName, LimitValue(q.paginate))]
    ensures var populate := q.populate.GetOr(DefaultPopulate);
      Named(ContentQuery(q), PopulateName) ==
        if populate == "" then [(PopulateName, "")] else Heads(Split(populate, ','))
    ensures var (key, value) := SplitFilter(q.filter);
      key !in [PopulateName, LimitName, SortName] ==> Named(ContentQuery(q), key) == [(key, value)]
  {
    var params := ContentParams(q);
    var (key, value) := SplitFilter(q.filter);
    ContentParamsMeaning(q);
    QuerySetNames(params, SortName);
    QuerySetNames(params, LimitName);
    var populate := q.populate.GetOr(DefaultPopulate);
    if populate == "" {
      QuerySetNames(params, PopulateName);
    } else {
      QueryPopulateNames(params, PopulateName);
      ExpandPopulateHeads(Split(populate, ','));
    }
    if key !in [PopulateName, LimitName, SortName] {
      QuerySetNames(params, key);
    }
  }

  /** An indexed populate name that the filter does not claim is present exactly when the
      populate field at that position has a dot. */
  lemma ContentQueryIndexed(q: QueryOptions, k: nat)
    requires q.populate.GetOr(DefaultPopulate) != ""
    requires SplitFilter(q.filter).0 != PopulateIndexName(k)
    ensures var fields := Split(q.populate.GetOr(DefaultPopulate), ',');
      Named(ContentQuery(q), PopulateIndexName(k)) ==
        if 1 <= k <= |fields| && '.' in fields[k - 1]
        then [(PopulateIndexName(k), NestedPath(fields[k - 1]))]
        else []
  {
    var name := PopulateIndexName(k);
    PopulateIndexNameDistinct(k, k);
    ContentParamsKeys(q, name);
    ContentParamsPopulate(q);
    QueryPopulateNames(ContentParams(q), name);
    ExpandPopulateIndexed(Split(q.populate.GetOr(DefaultPopulate), ','), k);
  }

  /** With every option left out, the request is
      `populate=SEO&populate[1]=SEO.socialImage&=&pagination[limit]=25&sort=updatedAt:desc`. */
  lemma DefaultContentQuery(contentType: string)
    ensures ContentQuery(QueryOptions(contentType, None, None, None, None)) ==
      [("populate", "SEO"), ("populate[1]", "SEO.socialImage"), ("", ""),
       ("pagination[limit]", "25"), ("sort", "updatedAt:desc")]
  {
    DefaultQueryStages(contentType);
    DefaultQuerySetsAppend();
  }

  /** The default request's populate entries, and the parameters then set on them. */
  lemma DefaultQueryStages(contentType: string)
    ensures ContentQuery(QueryOptions(contentType, None, None, None, None)) ==
      SetAll([("populate", "SEO"), ("populate[1]", "SEO.socialImage")],
             [("", ""), (LimitName, DefaultLimit), (SortName, DefaultSort)])
  {
    var q := QueryOptions(contentType, None, None, None, None);
    DefaultParamsRest(q);
    ContentParamsPopulate(q);
    DefaultPopulateSingleField();
    DefaultPopulateExpansion();
  }

  /** None of the default request's set parameters was among the populate entries. */
  lemma DefaultQuerySetsAppend()
    ensures SetAll([("populate", "SEO"), ("populate[1]", "SEO.socialImage")],
                   [("", ""), (LimitName, DefaultLimit), (SortName, DefaultSort)]) ==
      [("populate", "SEO"), ("populate[1]", "SEO.socialImage"), ("", ""),
       ("pagination[limit]", "25"), ("sort", "updatedAt:desc")]
  {
    var base := [("populate", "SEO"), ("populate[1]", "SEO.socialImage")];
    var rest := [("", ""), (LimitName, DefaultLimit), (SortName, DefaultSort)];
    assert DistinctNames(rest);
    assert forall i, j :: 0 <= i < |base| && 0 <= j < |rest| ==> base[i].0 != rest[j].0;
    SetAllAppends(base, rest);
  }

  /** Setting entries whose names are new and distinct appends them in order. */
  lemma {:induction false} SetAllAppends(l: seq<Entry>, ps: seq<Entry>)
    requires DistinctNames(ps)
    requires forall i, j :: 0 <= i < |l| && 0 <= j < |ps| ==> l[i].0 != ps[j].0
    ensures SetAll(l, ps) == l + ps
  {
    if ps != [] {
      var n := |ps| - 1;
      SetAllAppends(l, ps[..n]);
      var l' := l + ps[..n];
      assert forall j :: 0 <= j < |l'| ==> l'[j].0 != ps[n].0 by {
        forall j | 0 <= j < |l'| ensures l'[j].0 != ps[n].0 {
          if j >= |l| { assert l'[j] == ps[j - |l|]; }
        }
      }
      SetEntryAppends(l', ps[n].0, ps[n].1);
      assert l' + [ps[n]] == l + ps;
    }
  }

  /** Without options the object, once `populate` is deleted, lists the empty filter entry,
      `pagination[limit]=25` and `sort=updatedAt:desc`. */
  lemma DefaultParamsRest(q: QueryOptions)
    requires q.filter.None? && q.paginate.None? && q.sort.None?
    ensures Records.Entries(Records.Delete(ContentParams(q), PopulateName)) ==
      [("", ""), (LimitName, DefaultLimit), (SortName, DefaultSort)]
  {
    assert SplitFilter(q.filter) == ("", "");
    ContentParamsOrder(q);
    DeleteSecond(ContentParams(q), PopulateName);
  }

  /** Deleting the second of four keys leaves the other three entries in order. */
  lemma DeleteSecond(r: Records.Record<string>, k: string)
    requires r.Valid() && |r.keys| == 4 && r.keys[1] == k
    ensures var es := Records.Entries(r);
      Records.Entries(Records.Delete(r, k)) == [es[0], es[2], es[3]]
  {
    var es := Records.Entries(r);
    Records.DeleteEntries(r, k, 1);
    assert es[..1] + es[2..] == [es[0], es[2], es[3]];
  }

  /** The default populate value expands to `populate=SEO` and `populate[1]=SEO.socialImage`. */
  lemma DefaultPopulateExpansion()
    ensures ExpandPopulate([DefaultPopulate]) ==
      [("populate", "SEO"), ("populate[1]", "SEO.socialImage")]
  {
    DefaultPopulateSegments();
    assert PopulateIndexName(1) == "populate[1]";
    assert [DefaultPopulate][..0] == [];
    assert ExpandPopulate([DefaultPopulate]) == FieldEntries(DefaultPopulate, 0);
  }

  lemma DefaultPopulateSingleField()
    ensures Split(DefaultPopulate, ',') == [DefaultPopulate]
  {
    assert ',' !in DefaultPopulate;
    SplitHead(DefaultPopulate, ',');
  }

  lemma DefaultPopulateSegments()
    ensures '.' in DefaultPopulate
    ensures Parent(DefaultPopulate) == "SEO" && NestedPath(DefaultPopulate) == "SEO.socialImage"
  {
    DefaultPopulateDots();
    assert "SEO" + "." + "socialImage" == DefaultPopulate;
  }

  lemma DefaultPopulateDots()
    ensures Split(DefaultPopulate, '.') == ["SEO", "socialImage"]
  {
    var f := DefaultPopulate;
    assert f[3] == '.' && f[..3] == "SEO" && f[4..] == "socialImage";
    assert '.' !in f[..3] && '.' !in f[4..];
    SplitOnce(f, '.', 3);
  }
}
