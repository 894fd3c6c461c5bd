/** Worked requests for the query builder. */
module QueryExamples {
  import opened Wrappers
  import opened Text
  import opened UrlSearch
  import opened Query

  lemma StoreFilterSplit()
    ensures SplitFilter(Some("store=3")) == ("store", "3")
  {
    var f := "store=3";
    assert f[5] == '=' && f[..5] == "store" && f[6..] == "3";
    assert '=' !in f[..5] && '=' !in f[6..];
    SplitOnce(f, '=', 5);
  }

  lemma StoreNotLiteral()
    ensures "store" !in [PopulateName, LimitName, SortName]
  {
    assert "store"[0] != PopulateName[0] && "store"[0] != LimitName[0] && "store"[1] != SortName[1];
  }

  /** `filter: "store=3"` puts `store=3` in the query exactly once. */
  lemma StoreFilterOnce(contentType: string)
    ensures Named(ContentQuery(QueryOptions(contentType, Some("store=3"), None, None, None)), "store") ==
      [("store", "3")]
  {
    StoreFilterSplit();
    StoreNotLiteral();
    ContentQueryMeaning(QueryOptions(contentType, Some("store=3"), None, None, None));
  }

  /** Without `paginate` the query carries `pagination[limit]=25` once. */
  lemma DefaultLimitOnce(q: QueryOptions)
    requires q.paginate.None?
    ensures Named(ContentQuery(q), "pagination[limit]") == [("pagination[limit]", "25")]
  {
    ContentQueryMeaning(q);
  }

  /** A filter on `sort` is overwritten by the literal `sort` property. */
  lemma SortFilterOverridden(contentType: string)
    ensures Named(ContentQuery(QueryOptions(contentType, Some("sort=title"), None, None, None)), "sort") ==
      [("sort", "updatedAt:desc")]
  {
    ContentQueryMeaning(QueryOptions(contentType, Some("sort=title"), None, None, None));
  }

  lemma SeoAuthorSplit()
    ensures Split("seo.image,author", ',') == ["seo.image", "author"]
  {
    var f := "seo.image,author";
    assert f[9] == ',' && f[..9] == "seo.image" && f[10..] == "author";
    assert ',' !in f[..9] && ',' !in f[10..];
    SplitOnce(f, ',', 9);
  }

  lemma SeoImageSegments()
    ensures '.' in "seo.image"
    ensures Parent("seo.image") == "seo" && NestedPath("seo.image") == "seo.image"
  {
    var g := "seo.image";
    assert g[3] == '.' && g[..3] == "seo" && g[4..] == "image";
    assert '.' !in g[..3] && '.' !in g[4..];
    SplitOnce(g, '.', 3);
  }

  lemma AuthorSegments()
    ensures '.' !in "author" && Parent("author") == "author"
  {
    assert forall i :: 0 <= i < |"author"| ==> "author"[i] != '.';
    SplitHead("author", '.');
  }

  lemma SeoAuthorNames()
    ensures PopulateIndexName(1) == "populate[1]" && PopulateIndexName(2) == "populate[2]"
  {
    assert NatToString(1) == "1" && NatToString(2) == "2";
  }

  function SeoAuthor(contentType: string): QueryOptions {
    QueryOptions(contentType, None, Some("seo.image,author"), None, None)
  }

  /** `populate: "seo.image,author"` gives `populate=seo` and then `populate=author`. */
  lemma SeoAuthorHeads(contentType: string)
    ensures Named(ContentQuery(SeoAuthor(contentType)), "populate") == [("populate", "seo"), ("populate", "author")]
  {
    SeoAuthorSplit();
    SeoImageSegments();
    AuthorSegments();
    ContentQueryMeaning(SeoAuthor(contentType));
  }

  /** ... with `populate[1]=seo.image` for the dotted first field ... */
  lemma SeoAuthorFirstIndexed(contentType: string)
    ensures Named(ContentQuery(SeoAuthor(contentType)), "populate[1]") == [("populate[1]", "seo.image")]
  {
    SeoAuthorSplit();
    SeoImageSegments();
    SeoAuthorNames();
    var q := SeoAuthor(contentType);
    assert q.populate.GetOr(DefaultPopulate) == "seo.image,author";
    assert SplitFilter(q.filter).0 == "" != PopulateIndexName(1);
    var fields := Split("seo.image,author", ',');
    assert fields[0] == "seo.image" && '.' in fields[0] && |fields| == 2;
    ContentQueryIndexed(q, 1);
  }

  /** ... and no indexed entry for `author`, which has no dot. */
  lemma SeoAuthorSecondIndexed(contentType: string)
    ensures Named(ContentQuery(SeoAuthor(contentType)), "populate[2]") == []
  {
    SeoAuthorSplit();
    AuthorSegments();
    SeoAuthorNames();
    var q := SeoAuthor(contentType);
    assert q.populate.GetOr(DefaultPopulate) == "seo.image,author";
    assert SplitFilter(q.filter).0 == "" != PopulateIndexName(2);
    ContentQueryIndexed(q, 2);
  }

  lemma IndexedFilterSplit()
    ensures SplitFilter(Some("populate[1]=x")) == ("populate[1]", "x")
  {
    var f := "populate[1]=x";
    assert f[11] == '=' && f[..11] == "populate[1]" && f[12..] == "x";
    assert '=' !in f[..11] && '=' !in f[12..];
    SplitOnce(f, '=', 11);
  }

  /** A filter on `populate[1]` replaces the indexed entry the expansion appended: the name
      then occurs once, with the filter's value. */
  lemma IndexedFilterReplaces(contentType: string)
    ensures Named(ContentQuery(QueryOptions(contentType, Some("populate[1]=x"), None, None, None)), "populate[1]") ==
      [("populate[1]", "x")]
  {
    IndexedFilterSplit();
    SeoAuthorNames();
    PopulateIndexNameDistinct(1, 1);
    ContentQueryMeaning(QueryOptions(contentType, Some("populate[1]=x"), None, None, None));
  }
}
