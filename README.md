# Strapi content adapter — a verified model

This project models the core of the Strapi adapter in `src/strapi/index.ts`. The adapter does
three things:

- **Query builder.** `fetchStrapiContent` turns a `StrapiQueryOptions` into a parameter object.
  It fills in the defaults for `populate`, `sort` and `pagination[limit]`, and splits the
  `filter` string on `=`. `fetchFromStrapi` then turns that object into `URLSearchParams`. It
  appends the comma-separated `populate` fields as `populate` / `populate[N]` entries, deletes
  `populate` from the object, and applies every remaining property with `set`.
- **Schema translator.** `mapTypeToZodSchema` and `generateZodSchema` translate CMS attribute
  definitions into validator shapes, dispatching on each field's `type` tag.
- **Response checks.** The content body must hold an array under `data`. The schema body must
  hold a truthy `attributes`.

Modules:

- **`Wrappers`**: `Option` and `Result`.
- **`Errors`**: the errors the adapter throws, and their messages.
- **`Text`**: JavaScript `split` and `String(n)`.
- **`Records`**: a JavaScript object as its keys in insertion order plus a map.
  - Assigning an existing key keeps its position.
  - `delete` removes a key.
  - `Object.entries` lists the keys in order.
- **`UrlSearch`**: the entry list behind `URLSearchParams`, with `append` and `set` as in
  section 6.2 of the WHATWG URL Standard. `SearchParams` is a class whose methods update that
  list in place.
- **`Query`**: the options and their defaults, the filter split, the populate expansion, and
  `BuildQuery`. `BuildQuery` runs the two `forEach` loops of `fetchFromStrapi` on a
  `SearchParams` object and is proved equal to the specification function `QueryOf`.
- **`QueryExamples`**: worked requests.
- **`JsonValues`**: decoded JSON bodies.
  - Member lookup.
  - Truthiness.
  - `Object.entries`.
  - The object spread `{ type, ...rest }`.
  - A size measure for termination.
- **`Schema`**: the tag table as `MapType`. `ArrayOf`, `ObjectOf` and the `object` property
  loop `PropertiesShape` are mutually recursive with it. The attribute loop `AttributesShape`
  calls `MapType` but is not called back. `TranslateAll` is an independent reference
  definition of both loops (translate each entry in order, stop at the first failure), and lemmas tie
  both loops to it.
- **`Validation`**: what a translated shape accepts, with the ISO 8601 check as a parameter,
  plus worked schemas.
- **`Strapi`**: the two entry points and `fetchFromStrapi`. The HTTP response is a parameter
  and the issued request is a result.

In these places the model follows the code's own behaviour:

- A missing or null `items` (for `array`) or `properties` (for `object`) is a JavaScript
  `TypeError`, modelled as the error `TypeError`.
- An `object` property fails not only when it lacks `type`, but whenever it is not a non-null
  object holding a `type` member.
- A filter without `=` sends the value `undefined`.
- A filter key equal to `populate`, `sort` or `pagination[limit]` is overwritten by the literal
  property.
- An empty `populate` is sent as a plain `populate=` entry.
- With no filter, the parameter object still holds the empty key with the empty value, so
  the query carries an entry with an empty name and an empty value (a bare `=`).
- A filter value stops at a second `=`: `a=b=c` sends the key `a` with the value `b`.

## Model

| member | source | states |
|---|---|---|
| Text.Split | src/strapi/index.ts:31 | `split`: there is always at least one piece, no piece contains the separator, and joining the pieces with it gives back the string |
| Text.SplitHead | src/strapi/index.ts:31 | there are at least two pieces exactly when the separator occurs; the first piece is the text before the first separator, and the second is the first piece of the rest |
| Text.SplitOnce | src/strapi/index.ts:112 | a string with exactly one separator splits into the text before it and the text after it |
| Text.NatToStringRoundTrip | src/strapi/index.ts:114 | reading back the digits of `String(n)` gives `n` |
| Text.IntToString | src/strapi/index.ts:36 | the limit's `String` form is its decimal digits, after a minus sign when it is negative |
| Text.NonZeroString | src/strapi/index.ts:36 | only zero is written "0" |
| Text.NatToStringInjective | src/strapi/index.ts:114 | different indexes give different decimal strings |
| Records.Put | src/strapi/index.ts:33-38 | defining a property makes it read back its value and leaves other properties unchanged; an existing key keeps its place, and a new key goes last |
| Records.Delete | src/strapi/index.ts:120 | `delete params.populate` leaves the key absent, the other properties unchanged, and the key order otherwise the same |
| Records.Entries | src/strapi/index.ts:123 | `Object.entries` lists each key once, in insertion order, with its value |
| Records.DeleteEntries | src/strapi/index.ts:120-123 | after deleting the key at position i, the entries are the old entries without the i-th one |
| Records.PutEntries | src/strapi/index.ts:64-71 | assigning a new key to the shape appends exactly one entry |
| UrlSearch.SetEntry | src/strapi/index.ts:124 | after `set(n, v)` the name n occurs exactly once, with value v; every other name's entries are unchanged and in order |
| UrlSearch.SetEntryInPlace | src/strapi/index.ts:124 | when n is present, `set` replaces its first occurrence where it stands and drops the later ones |
| UrlSearch.SetEntryAppends | src/strapi/index.ts:124 | when n is absent, `set` appends (n, v) |
| UrlSearch.SearchParams.constructor | src/strapi/index.ts:105 | the parameters of the freshly built URL start empty |
| UrlSearch.SearchParams.Append | src/strapi/index.ts:113 | `append` adds one entry at the end and changes nothing else |
| UrlSearch.SearchParams.Set | src/strapi/index.ts:124 | `set` updates the list as `SetEntry` does |
| Query.ContentPath | src/strapi/index.ts:33 | the collection path is "/api/", then the content type, then a literal "s" |
| Query.SchemaPath | src/strapi/index.ts:47 | the schema path is "/get-strapi-schema/schema/" followed by the content type |
| Query.SplitFilter | src/strapi/index.ts:30-31 | neither the filter key nor the filter value ever holds "="; what they are is stated by `SplitFilterMeaning` |
| Query.LimitValue | src/strapi/index.ts:36 | the limit sent is never "0": a positive limit reads back as itself, a negative one starts with "-", and an absent or zero limit gives "25" |
| Query.ContentParams | src/strapi/index.ts:33-38 | the parameter object is well formed (each key once); its contents are stated by `ContentParamsMeaning` and `ContentParamsOrder` |
| Query.SplitFilterMeaning | src/strapi/index.ts:30-31 | the filter key is the text before the first "="; the value runs up to the next "=" or the end; a filter without "=" keeps all its text as the key and sends "undefined" |
| Query.ContentParamsMeaning | src/strapi/index.ts:27-38 | `populate`, `pagination[limit]` and `sort` hold the option or its default (for the limit: absent or 0 gives "25"), whatever the filter key; the filter keeps its value only under another key; the filter's slot is first; there are no other keys |
| Query.ContentParamsOrder | src/strapi/index.ts:33-38 | with a filter key other than the three literal names, the object lists filter, populate, limit and sort, in that order |
| Query.ContentParamsPopulate | src/strapi/index.ts:107 | populate is expanded exactly when the option, or its default, is non-empty |
| Query.PopulateIndexName | src/strapi/index.ts:114 | the name `populate[k]` for the 1-based field number k; `PopulateIndexNameDistinct` states that these names never clash with each other or with the literal names |
| Query.PopulateIndexNameDistinct | src/strapi/index.ts:114 | `populate[k]` is never `populate`, `pagination[limit]` or `sort`, and different k give different names |
| Query.Parent | src/strapi/index.ts:112 | the first dot segment of a field, which is the whole field when it has no dot; `FieldEntries` states it is the text before the first dot |
| Query.NestedPath | src/strapi/index.ts:112-114 | the first two dot segments of a dotted field joined by a dot, with further segments dropped; used by `ExpandPopulateIndexed` and shown by `QueryExamples.SeoAuthorFirstIndexed` |
| Query.FieldEntries | src/strapi/index.ts:111-117 | a field gives two entries when it has a dot and one otherwise; the first is `populate` with the text before the first dot, or the whole field |
| Query.ExpandPopulate | src/strapi/index.ts:108-118 | the expansion gives one or two entries per field; its entries are stated by `ExpandPopulateHeads`, `ExpandPopulateIndexed` and `ExpandPopulateNames` |
| Query.FieldEntriesNamed | src/strapi/index.ts:111-117 | a field adds one `populate` entry holding its first dot segment; a dotted field also adds `populate[i+1]` holding its first two segments |
| Query.ExpandPopulateHeads | src/strapi/index.ts:108-118 | the `populate` entries are the fields' first dot segments, one per field, in list order |
| Query.ExpandPopulateIndexed | src/strapi/index.ts:108-118 | `populate[k]` occurs once when field k-1 has a dot, holding its first two segments, and not at all otherwise |
| Query.ExpandPopulateNames | src/strapi/index.ts:110-118 | the expansion produces no other names |
| Query.SetAll | src/strapi/index.ts:123-125 | the `set` loop as a function of the list and the remaining properties; stated by `SetAllNamed`, `SetAllOthers` and `SetAllAppends` |
| Query.SetAllNamed | src/strapi/index.ts:123-125 | after the `set` loop, each name set occurs exactly once, with the value it was set to |
| Query.SetAllOthers | src/strapi/index.ts:123-125 | the `set` loop leaves the entries of every name it does not set unchanged and in order |
| Query.SetAllAppends | src/strapi/index.ts:123-125 | setting new, distinct names appends them in order |
| Query.ExpandsPopulate | src/strapi/index.ts:107 | the truthiness test on the object's `populate` property; `ContentParamsPopulate` states it holds exactly when the option or its default is non-empty |
| Query.QueryOf | src/strapi/index.ts:105-125 | the query of a parameter object: the populate expansion, then each remaining property set; stated by `QuerySetNames`, `QueryPopulateNames`, `QueryNoExpansion`, and met by `BuildQuery` |
| Query.QuerySetNames | src/strapi/index.ts:107-125 | every property left in the object after the populate step occurs once in the query, with its value |
| Query.QueryPopulateNames | src/strapi/index.ts:107-125 | names that are not set keep exactly the entries the populate expansion appended |
| Query.QueryNoExpansion | src/strapi/index.ts:107-125 | without expansion the query holds nothing but the object's properties |
| Query.AppendField | src/strapi/index.ts:111-117 | one `forEach` step appends exactly the entries for its field |
| Query.AppendPopulate | src/strapi/index.ts:110-118 | the populate loop leaves the parameters holding the expansion of all fields |
| Query.SetParams | src/strapi/index.ts:123-125 | the `set` loop applies `set` to each entry in order |
| Query.BuildQuery | src/strapi/index.ts:105-125 | the parameters built in place equal `QueryOf`: the expansion first, then each remaining property set |
| Query.ContentQuery | src/strapi/index.ts:27-38 | the query of a content request; stated by `ContentQueryMeaning`, `ContentQueryIndexed` and `DefaultContentQuery` |
| Query.ContentQueryMeaning | src/strapi/index.ts:27-38 | a content request carries `sort` and `pagination[limit]` once each; `populate` as the field heads, or a plain `populate=` when empty; and the filter once, unless its key is a literal name |
| Query.ContentQueryIndexed | src/strapi/index.ts:27-38 | in a content request, `populate[k]` is present exactly when populate field k-1 has a dot, unless the filter claims that name |
| Query.DefaultContentQuery | src/strapi/index.ts:27 | with no options the query is `populate=SEO`, `populate[1]=SEO.socialImage`, `=`, `pagination[limit]=25`, `sort=updatedAt:desc` |
| Query.DefaultParamsRest | src/strapi/index.ts:36 | with no options, deleting `populate` leaves the empty filter entry, the limit 25 and the default sort |
| Query.DefaultPopulateExpansion | src/strapi/index.ts:27 | the default populate expands to `populate=SEO` and `populate[1]=SEO.socialImage` |
| QueryExamples.StoreFilterOnce | src/strapi/index.ts:30-34 | the filter "store=3" puts `store=3` in the query exactly once |
| QueryExamples.DefaultLimitOnce | src/strapi/index.ts:36 | without `paginate` the query carries `pagination[limit]=25` exactly once |
| QueryExamples.SortFilterOverridden | src/strapi/index.ts:34-37 | a filter on `sort` is overwritten by the literal `sort` property |
| QueryExamples.SeoAuthorHeads | src/strapi/index.ts:110-118 | "seo.image,author" gives `populate=seo`, then `populate=author` |
| QueryExamples.SeoAuthorFirstIndexed | src/strapi/index.ts:114 | "seo.image,author" gives `populate[1]=seo.image` |
| QueryExamples.SeoAuthorSecondIndexed | src/strapi/index.ts:115-116 | "seo.image,author" gives no indexed entry for `author` |
| QueryExamples.IndexedFilterReplaces | src/strapi/index.ts:123-125 | a filter on `populate[1]` replaces the appended indexed entry instead of adding a second one |
| JsonValues.Get | src/strapi/index.ts:40 | a member of an object, missing for any other value; used by every lemma about bodies and fields |
| JsonValues.Truthy | src/strapi/index.ts:48 | JavaScript truthiness of a decoded value; stated through `Strapi.SchemaOf` |
| JsonValues.HasMember | src/strapi/index.ts:66 | `"type" in value` for an object value; `RestOf` states that the rest has no `type` member |
| JsonValues.Entries | src/strapi/index.ts:65 | `Object.entries` of a decoded value; stated by `EntriesDistinct` and `EntriesSize` |
| JsonValues.EntriesDistinct | src/strapi/index.ts:65 | `Object.entries` never lists a key twice |
| JsonValues.RestOf | src/strapi/index.ts:93 | `rest` has no `type` member and every other member of the attribute definition |
| Schema.TagOf | src/strapi/index.ts:87 | the table key that a `type` member selects: only a JSON string names an entry; `TagTable` states the result for string and non-string tags |
| Schema.MapType | src/strapi/index.ts:53-88 | the tag table; stated by `TagTable`, `OnlyCompositesFail`, `ArrayElement` and `ObjectTranslates` |
| Schema.ArrayOf | src/strapi/index.ts:62 | the `array` entry; stated by `ArrayElement` |
| Schema.ObjectOf | src/strapi/index.ts:63-73 | the `object` entry; stated by `ObjectTranslates` and `ObjectFirstInvalid` |
| Schema.PropertyValidator | src/strapi/index.ts:66-70 | one property of an `object`; stated by `ObjectFirstInvalid` |
| Schema.PropertiesShape | src/strapi/index.ts:64-72 | the property loop; stated by `PropertiesShapeTranslates` |
| Schema.AttributeValidator | src/strapi/index.ts:93-94 | one attribute; stated by `AttributeFieldStripped` and `MissingTypeAttributeVersusProperty` |
| Schema.AttributesShape | src/strapi/index.ts:91-97 | the attribute loop; stated by `AttributesShapeTranslates` |
| Schema.GenerateSchema | src/strapi/index.ts:90-98 | the schema of an attribute set; stated by `GenerateSchemaShape` |
| Schema.TagTable | src/strapi/index.ts:54-87 | the string-like tags give a string, and datetime, boolean, number, media and dynamiczone their own shapes; relation, unknown and non-string tags give Unvalidated |
| Schema.OnlyCompositesFail | src/strapi/index.ts:87 | only the selected thunk runs: a tag other than `array` or `object` never fails and ignores the field |
| Schema.ArrayElement | src/strapi/index.ts:62 | `array` wraps the shape mapped from `items.type` and `items`; a missing or null `items` fails |
| Schema.ObjectTranslates | src/strapi/index.ts:63-73 | `object` gives a record with one member per property, in order, or the first failing property's error with no partial shape |
| Schema.ObjectFirstInvalid | src/strapi/index.ts:66-70 | `object` fails naming the first property that is not a non-null object with a `type` member |
| Schema.PropertiesShapeTranslates | src/strapi/index.ts:64-72 | the `object` loop equals the reference translation `TranslateAll` |
| Schema.AttributesShapeTranslates | src/strapi/index.ts:91-97 | the `generateZodSchema` loop equals the reference translation `TranslateAll` |
| Schema.TranslateAllOk | src/strapi/index.ts:92-95 | the reference translation succeeds exactly when every entry does, and then keeps each key with its own shape, in order |
| Schema.TranslateAllFirstError | src/strapi/index.ts:65-70 | on failure, the reference translation reports the error of the first entry that fails |
| Schema.GenerateSchemaShape | src/strapi/index.ts:90-98 | the result is a record whose keys are exactly the attribute keys, in order, each mapped from its own definition; otherwise the first failing attribute's error |
| Schema.MissingTypeAttributeVersusProperty | src/strapi/index.ts:93-94 | an attribute without `type` is Unvalidated, whereas the same value as an `object` property is an error |
| Schema.AttributeFieldStripped | src/strapi/index.ts:93-94 | an attribute is mapped from its own `type`, with a field that lacks `type` but keeps every other member |
| Validation.Accepts | src/strapi/index.ts:53-84 | what parsing against each translated shape accepts: strings, date-time strings, booleans, numbers, optional members, arrays element by element, and objects member by member; stated by the other Validation rows |
| Validation.UnknownTagAcceptsAll | src/strapi/index.ts:87 | an unrecognised tag such as `custom-widget` yields a validator that accepts any value |
| Validation.MediaMembers | src/strapi/index.ts:75-82 | a media value is accepted exactly when it is an object with a string `url`, string `alternativeText` and `caption` where present, and numeric `width` and `height` where present |
| Validation.MediaNeedsUrl | src/strapi/index.ts:75-82 | an object holding only a string `url` is accepted as media; one holding only a `caption` is not |
| Validation.TitleViewsExample | src/strapi/index.ts:90-98 | {title: string, views: number} accepts {title: "x", views: 3} and rejects {title: 3, views: "x"} |
| Validation.NestedMissingTypeFails | src/strapi/index.ts:62-69 | an `array` of `object` whose property lacks `type` fails with the message "Invalid field value for key: name" |
| Errors.Message | src/strapi/index.ts:41 | the text each error carries; its use is stated by `Strapi.Outcome`, `Strapi.ContentPosts`, `Strapi.SchemaOf` and `Validation.NestedMissingTypeFails` |
| Strapi.Outcome | src/strapi/index.ts:129-130 | a non-ok response fails with the message "Failed to fetch: " and its status text; otherwise the result is the decoded body |
| Strapi.FetchFromStrapi | src/strapi/index.ts:100-131 | the request goes to the path with the query built from the parameters; the result is the response's outcome |
| Strapi.ContentPosts | src/strapi/index.ts:40-43 | posts are returned, unchanged, exactly when `data` is an array; otherwise "Invalid data received from Strapi" |
| Strapi.SchemaOf | src/strapi/index.ts:48-50 | a missing or falsy `attributes` fails with "Invalid schema data received from Strapi"; otherwise the result is the translated attributes |
| Strapi.FetchStrapiContent | src/strapi/index.ts:23-44 | the request is the content path with the content query; it succeeds exactly when the response is ok, decodes and holds an array under `data` |
| Strapi.FetchStrapiSchema | src/strapi/index.ts:46-51 | the request is the schema path with no parameters; the result is the response's schema or its error |
| Strapi.NotAnArrayRejected | src/strapi/index.ts:40-41 | a body `{data: "not-an-array"}` is rejected as invalid data |

## Left out

- The network call itself (`fetch`, `response.ok`, `response.statusText`, `response.json()`) is not modelled. The response is a parameter, and a body that is not JSON becomes the error `UndecodableBody`.
- `new URL(path, baseUrl)` is not modelled. The request keeps the base URL and the path apart. The model does not capture:
  - that an absolute path replaces any path part of `api_url`;
  - the effect of a content type containing `?` or `#`;
  - the trailing `?` of the content path, which only starts an empty query;
  - percent-encoding and serialisation of the parameters.
- Zod's runtime behaviour is not modelled. The translator builds shapes. `Validation.Accepts` is a plain reading of what those shapes accept, and ISO 8601 checking is an uninterpreted parameter.
- Numbers are integers. A fractional limit, or a JSON number that is not an integer, is not modelled.
- Text.IntToString and Query.LimitValue write every decimal digit of the limit. JavaScript's `String` uses exponent form from 10^21 on (`1e21` gives "1e+21"), and a number above 2^53 is not exact. Both are outside the integers the model writes out.
- Prototype-inherited entries of `schemaMap` are not modelled. A tag such as `constructor` or `toString` gives Unvalidated here. In the code it would call the inherited function.
- Schema.GenerateSchemaShape, Schema.ObjectTranslates and Records.PutEntries do not hold for a key `__proto__`, because the inherited `__proto__` setter is not modelled. `JSON.parse` makes `__proto__` an own member, and `Object.entries` lists it. But assigning `shape["__proto__"]` (lines 67 and 94) replaces the shape's prototype and adds no key. So for `{"__proto__": {"type": "string"}}` the code's schema has no member, while the model's has one.
- JsonValues.Entries of a string counts Unicode scalar values, because a character here is one. JavaScript indexes UTF-16 code units, so a string holding a character outside the Basic Multilingual Plane has one more index key per such character in the code than in the model.
- Only a JSON string `type` selects a table entry. JavaScript's coercion of other values to a property key is not modelled. For example, an array `["string"]` coerces to "string".
- Object member order is document order. JavaScript lists integer-like keys first, in ascending order. This changes the member order of a translated record. It also changes which error is reported when several properties or attributes fail. For the properties `{"name": {}, "0": {}}` the code reports the key "0" and the model reports "name".
- Schema.GenerateSchemaShape, Schema.ObjectTranslates and Schema.ObjectFirstInvalid require that a decoded object does not repeat a key. `JSON.parse` guarantees this by keeping the last value.
- JavaScript `TypeError`s are reduced to the member they concern. Their exact message text is not modelled.
- The async/Promise plumbing, the Astro loader, and the unused `store_slug` and `sync_interval` are not modelled.
