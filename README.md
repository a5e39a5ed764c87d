# Solr autocomplete controller, modelled in Dafny

This project models the decision and transformation layer of Vitro's
`SolrAutocompleteController`. That is the servlet behind the autocomplete
drop-down. It takes a search term and an optional entity type and builds a
Solr query from them. It sends the query to the search server and answers
with a JSON array of `{label, uri}` objects. Every way of not finding
anything gives the same answer: the empty array `[]`.

The model has these modules:

- `QueryBuilder` covers `getQuery`, `setQuery`, `setUntokenizedQuery` and
  `setTokenizedQuery`. `SolrQuery` is a small class that stands in for the
  library's query object; the controller fills it through setters.
  `BuildQuery` is the value the finished query holds. A query is refused when
  the term is missing or longer than 500 characters. The result window is
  start 0 and 1000 rows. In untokenized mode the query text is the
  lower-cased name field, a colon, the lower-cased term with its spaces
  escaped, and `*`. Tokenized mode is a stub and sets no text. A `type`
  parameter adds exactly one filter, `type:"<type>"`.
- `ResultMapper` covers the loop over the hits. A hit becomes
  `(first name, uri)`. A hit without a URI field, or without a non-empty
  `nameRaw` list, is skipped without affecting the others.
- `SearchResults` covers the `SearchResult` record, its `toMap` and its
  case-insensitive `compareTo` on the label.
- `Autocomplete` covers `doRequest` and the `doNo*` helpers. `Decide` is the
  linear decision, and `ResponseBody` collapses every failure to `[]`.
- `Wrappers`, `AsciiCase`, `TermNames` and `Requests` are helpers. They hold
  `Option`, ASCII case mapping, the index field names and the request
  parameters.

The search server is a parameter of the model, `solr: QuerySpec -> SearchReply`.
Its reply can be a thrown failure, a `null` response, a response with a
`null` hit list, or a hit list with its total count.

Nothing in the controller checks that a URI is non-empty: a URI field
holding the empty text is kept (see `ResultMapper.EmptyUriIsKept`).

Only spaces are escaped in untokenized mode; backslashes already in the term
are kept as they are. The term `a\ b` therefore gives `nameLowercase:a\\ b*`,
which the search server reads as an escaped backslash followed by a bare
space, so such a term is not matched as one literal (see
`QueryBuilder.BackslashBeforeSpaceExample`).

## Model

| member | source | states |
|---|---|---|
| `QueryBuilder.BuildQuery` | webapp/src/edu/cornell/mannlib/vitro/webapp/search/controller/SolrAutocompleteController.java:135-163 | no query exactly when the term is missing or longer than 500 characters (blank terms are accepted); an accepted query has start 0 and 1000 rows; it has the one filter `RDFTYPE:"<type>"` iff `type` is present, otherwise none; its text is unset iff `tokenize` is exactly `true`, otherwise the untokenized text of the term |
| `QueryBuilder.GetQuery` | webapp/src/edu/cornell/mannlib/vitro/webapp/search/controller/SolrAutocompleteController.java:135-163 | returns null exactly when `BuildQuery` rejects the term; otherwise returns a fresh query object that holds `BuildQuery`'s value |
| `QueryBuilder.SetQuery` | webapp/src/edu/cornell/mannlib/vitro/webapp/search/controller/SolrAutocompleteController.java:165-182 | chooses tokenized mode exactly when `tokenize` is `true`; only the query text can change |
| `QueryBuilder.SetUntokenizedQuery` | webapp/src/edu/cornell/mannlib/vitro/webapp/search/controller/SolrAutocompleteController.java:221-231 | sets the query text to the untokenized text of the term and leaves everything else as it was |
| `QueryBuilder.SetTokenizedQuery` | webapp/src/edu/cornell/mannlib/vitro/webapp/search/controller/SolrAutocompleteController.java:184-219 | leaves the query unchanged, whatever `stem` says |
| `QueryBuilder.StemIsIgnored` | webapp/src/edu/cornell/mannlib/vitro/webapp/search/controller/SolrAutocompleteController.java:184-188 | setting or removing `stem` never changes the built query |
| `QueryBuilder.EscapeSpaces` | webapp/src/edu/cornell/mannlib/vitro/webapp/search/controller/SolrAutocompleteController.java:227 | the escaped text is longer than the input by exactly its number of spaces (one backslash added per space), is empty only when the input is, and never starts with a space; what it keeps and rewrites is stated by `UnescapeEscape` and `EscapedHasNoBareSpace` |
| `QueryBuilder.UnescapeEscape` | webapp/src/edu/cornell/mannlib/vitro/webapp/search/controller/SolrAutocompleteController.java:227 | reading the escapes back gives the original text, so only spaces are rewritten and nothing is lost |
| `QueryBuilder.EscapedHasNoBareSpace` | webapp/src/edu/cornell/mannlib/vitro/webapp/search/controller/SolrAutocompleteController.java:225-227 | after escaping, every space has a backslash right before it |
| `QueryBuilder.UntokenizedTextShape` | webapp/src/edu/cornell/mannlib/vitro/webapp/search/controller/SolrAutocompleteController.java:221-229 | the untokenized text starts with exactly `NAME_LOWERCASE:`, ends with `*`, has a backslash right before every space, and its middle reads back as the lower-cased term |
| `QueryBuilder.UntokenizedTextInjective` | webapp/src/edu/cornell/mannlib/vitro/webapp/search/controller/SolrAutocompleteController.java:224-228 | two terms give the same query text iff they are equal once lower-cased |
| `AsciiCase.Lower` | webapp/src/edu/cornell/mannlib/vitro/webapp/search/controller/SolrAutocompleteController.java:224 | lower-casing keeps the length, leaves no upper-case ASCII letter, keeps every other character, and maps each upper-case letter to its lower-case one |
| `QueryBuilder.UntokenizedText` | webapp/src/edu/cornell/mannlib/vitro/webapp/search/controller/SolrAutocompleteController.java:224-228 | the text starts with `NAME_LOWERCASE:`, ends with `*`, and is longer than prefix, term and `*` together by exactly the number of spaces in the term |
| `QueryBuilder.BackslashBeforeSpaceExample` | webapp/src/edu/cornell/mannlib/vitro/webapp/search/controller/SolrAutocompleteController.java:227 | a backslash in the term is not escaped: `a\ b` gives `NAME_LOWERCASE:a\\ b*`, in which every space still has a backslash before it |
| `QueryBuilder.TypeFilter` | webapp/src/edu/cornell/mannlib/vitro/webapp/search/controller/SolrAutocompleteController.java:156 | the filter is the type field, a colon and a quote, then the `type` parameter unchanged, then a closing quote |
| `QueryBuilder.JaneDoeExample` | webapp/src/edu/cornell/mannlib/vitro/webapp/search/controller/SolrAutocompleteController.java:221-229 | the term `Jane Doe` gives `NAME_LOWERCASE:jane\ doe*` |
| `ResultMapper.Render` | webapp/src/edu/cornell/mannlib/vitro/webapp/search/controller/SolrAutocompleteController.java:105 | a single value's text is its own text; a list is written between `[` and `]`, a one-item list as `[item]` |
| `ResultMapper.UriOf` | webapp/src/edu/cornell/mannlib/vitro/webapp/search/controller/SolrAutocompleteController.java:105 | the URI is read exactly when the hit has a URI field, and for a single value it is that value's text |
| `ResultMapper.NameOf` | webapp/src/edu/cornell/mannlib/vitro/webapp/search/controller/SolrAutocompleteController.java:106-108 | the name is read exactly when the name field is present, is a list and is non-empty, and it is the list's first item |
| `ResultMapper.ToResult` | webapp/src/edu/cornell/mannlib/vitro/webapp/search/controller/SolrAutocompleteController.java:104-110 | a hit gives a result iff it has a URI field and a non-empty name list; the result is then (first name, URI text) |
| `ResultMapper.EmptyUriIsKept` | webapp/src/edu/cornell/mannlib/vitro/webapp/search/controller/SolrAutocompleteController.java:105-110 | a URI field holding the empty text still gives a result |
| `ResultMapper.MappedHits` | webapp/src/edu/cornell/mannlib/vitro/webapp/search/controller/SolrAutocompleteController.java:102-115 | the results are never more than the hits |
| `ResultMapper.KeptIndices` | webapp/src/edu/cornell/mannlib/vitro/webapp/search/controller/SolrAutocompleteController.java:102-115 | the kept positions are in range and strictly increasing; a position is kept iff its hit can be read |
| `ResultMapper.MappedHitsFollowKept` | webapp/src/edu/cornell/mannlib/vitro/webapp/search/controller/SolrAutocompleteController.java:102-115 | there is one result per readable hit, and the k-th result is the one the k-th readable hit gives, so order is preserved |
| `ResultMapper.MappedHitsAppend` | webapp/src/edu/cornell/mannlib/vitro/webapp/search/controller/SolrAutocompleteController.java:103-115 | mapping a batch is mapping its two parts and concatenating, so a hit never affects the results of the others |
| `ResultMapper.BadHitSkipped` | webapp/src/edu/cornell/mannlib/vitro/webapp/search/controller/SolrAutocompleteController.java:111-114 | an unreadable hit among others is dropped and the rest is mapped as if it were absent |
| `ResultMapper.AllReadableHitsKept` | webapp/src/edu/cornell/mannlib/vitro/webapp/search/controller/SolrAutocompleteController.java:102-115 | when every hit can be read, there are as many results as hits, position by position |
| `ResultMapper.MapHits` | webapp/src/edu/cornell/mannlib/vitro/webapp/search/controller/SolrAutocompleteController.java:102-115 | the loop with its per-hit catch computes exactly `MappedHits` of the hits |
| `SearchResults.SearchResult.ToMap` | webapp/src/edu/cornell/mannlib/vitro/webapp/search/controller/SolrAutocompleteController.java:274-279 | the map has exactly the keys `label` and `uri`, holding the label and the URI |
| `SearchResults.ToMapInjective` | webapp/src/edu/cornell/mannlib/vitro/webapp/search/controller/SolrAutocompleteController.java:274-279 | two results have the same map iff they are equal |
| `SearchResults.SearchResult.CompareTo` | webapp/src/edu/cornell/mannlib/vitro/webapp/search/controller/SolrAutocompleteController.java:281-287 | zero iff the labels are equal up to case; swapping the operands negates it |
| `SearchResults.CompareIgnoreCase` | webapp/src/edu/cornell/mannlib/vitro/webapp/search/controller/SolrAutocompleteController.java:286 | a string compares equal to itself, and a zero result means the lengths are equal |
| `SearchResults.CompareIgnoreCaseZero` | webapp/src/edu/cornell/mannlib/vitro/webapp/search/controller/SolrAutocompleteController.java:286 | `compareToIgnoreCase` is zero iff the case-folded strings are equal |
| `SearchResults.CompareIgnoreCaseAntisymmetric` | webapp/src/edu/cornell/mannlib/vitro/webapp/search/controller/SolrAutocompleteController.java:286 | `compareToIgnoreCase(a, b)` is minus `compareToIgnoreCase(b, a)` |
| `Autocomplete.DoNoSearchResults` | webapp/src/edu/cornell/mannlib/vitro/webapp/search/controller/SolrAutocompleteController.java:245-247 | writes the empty array |
| `Autocomplete.DoNoQuery` | webapp/src/edu/cornell/mannlib/vitro/webapp/search/controller/SolrAutocompleteController.java:233-237 | writes the empty array |
| `Autocomplete.DoSearchError` | webapp/src/edu/cornell/mannlib/vitro/webapp/search/controller/SolrAutocompleteController.java:239-243 | writes the empty array |
| `Autocomplete.WriteJsonArray` | webapp/src/edu/cornell/mannlib/vitro/webapp/search/controller/SolrAutocompleteController.java:123-126 | one object per result, in order, each with exactly `label` and `uri` holding that result's fields |
| `Autocomplete.DoRequest` | webapp/src/edu/cornell/mannlib/vitro/webapp/search/controller/SolrAutocompleteController.java:62-133 | the body written is the body of the outcome `Decide` gives for the request and the server's reply |
| `Autocomplete.Decide` | webapp/src/edu/cornell/mannlib/vitro/webapp/search/controller/SolrAutocompleteController.java:66-100 | fails with "no query" exactly when the query is refused and with "search error" exactly when the server throws; when results are found, a response with a hit list whose count is at least 1 was returned, and there are no more results than hits |
| `Autocomplete.FoundExactlyWhen` | webapp/src/edu/cornell/mannlib/vitro/webapp/search/controller/SolrAutocompleteController.java:70-100 | results are found iff a query is built and the server returns a response with a hit list whose count is at least 1 |
| `Autocomplete.FailureWritesEmptyArray` | webapp/src/edu/cornell/mannlib/vitro/webapp/search/controller/SolrAutocompleteController.java:71-100 | for a request whose query is refused, or whose search throws, returns a null response, returns a null hit list or counts fewer than one hit, the outcome is a failure and the body is exactly `[]` |
| `Autocomplete.RejectedTermWritesEmptyArray` | webapp/src/edu/cornell/mannlib/vitro/webapp/search/controller/SolrAutocompleteController.java:137-145 | a missing term or one over 500 characters fails with "no query" and writes `[]`, whatever the server would answer |
| `Autocomplete.AcceptedTermIsSearched` | webapp/src/edu/cornell/mannlib/vitro/webapp/search/controller/SolrAutocompleteController.java:141-151 | a term of at most 500 characters, blank included, never fails with "no query" |
| `Autocomplete.FoundBodyShape` | webapp/src/edu/cornell/mannlib/vitro/webapp/search/controller/SolrAutocompleteController.java:102-127 | when results are found, the body has one `{label, uri}` object per readable hit, in hit order, and is never longer than the hit list |
| `Autocomplete.SingleHitExample` | webapp/src/edu/cornell/mannlib/vitro/webapp/search/controller/SolrAutocompleteController.java:102-127 | one hit with URI `http://x/1` and names `["Jane Doe"]` gives exactly `[{"label":"Jane Doe","uri":"http://x/1"}]` |

## Left out

- Servlet plumbing: `VitroRequest` is reduced to its parameter map. The response writer is replaced by the returned body. An `IOException` from the writer is not modelled.
- Authorization (`requiredActions`, `UseBasicAjaxControllers`) belongs to the framework, not this model.
- The search client: `SolrSetup.getSolrServer` and `solr.query` are the parameter `solr`. Any failure of either is its `Threw` reply.
- A failure of the hit loop that is not an `Exception` (a Java `Error`) is not modelled. Such a failure would reach the outer catch and write `[]`.
- ResultMapper.NameOf: a name list holds strings only. A list whose first element is `null` or not a string is not modelled.
- ResultMapper.Render: a scalar field value is given by its `toString` text. The model does not represent other Java types.
- AsciiCase.Lower: `toLowerCase` uses full, locale-dependent Unicode case mapping. The model maps only the ASCII letters.
- SearchResults.CompareIgnoreCase: `compareToIgnoreCase` folds full Unicode case, and the model folds only the ASCII letters. Java also walks and subtracts UTF-16 code units, while the model compares Unicode scalar values. For characters outside the Basic Multilingual Plane, both the sign and the size of the result can differ.
- QueryBuilder.BuildQuery: the 500-character bound counts Dafny characters. Java's `length()` counts UTF-16 code units, so the two differ for characters outside the Basic Multilingual Plane.
- TermNames: the field-name constants come from Entity2LuceneDoc.java, which is not part of this model. Their values are stand-ins, and the proofs use only that they are distinct and contain no space.
- JSON text: `JSONArray.toString`, `JSONObject.quote` and `getJsonLabel`/`getJsonUri` are encoding details. The body is modelled as a sequence of objects, and `[]` is the empty sequence.
- `HashMap` key order in `toMap` does not exist in the model: the object is a Dafny map.
- `getLabel` and `getUri` are the fields of the `SearchResult` datatype.
- `compareTo`'s `ClassCastException` for an argument that is not a `SearchResult` cannot arise: Dafny's types rule it out.
- The disabled parts of the source are not modelled: the analyzer and wildcard logic commented out in `setTokenizedQuery`, the `BooleanQuery` built there and never used, and the sort that is commented out after the hit loop.
- Logging is not modelled. That includes the blank-term message in `setQuery` and the debug text of the query.
- `serialVersionUID` and the unused `NORESULT_MSG` have no effect and are not modelled.
