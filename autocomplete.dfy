/**
 * The autocomplete endpoint, `doRequest` of SolrAutocompleteController: build
 * the query, ask the search server, map the hits, and write a JSON array.
 * Every way of not finding anything writes the same body, the empty array.
 */
module Autocomplete {

  import opened Wrappers
  import opened Requests
  import opened QueryBuilder
  import opened SearchResults
  import opened ResultMapper
  import TermNames

  /** The hit list of a response (`SolrDocumentList`): the total number found and the hits returned. */
  datatype DocList = DocList(numFound: int, hits: seq<Hit>)

  /** A response of the search server (`QueryResponse`); `results` is `None` where `getResults` is `null`. */
  datatype QueryResponse = QueryResponse(results: Option<DocList>)

  /** What asking the search server gives: it throws, or it returns a response that may be `null`. */
  datatype SearchReply = Threw | Returned(response: Option<QueryResponse>)

  /** Why nothing was found, one case per early exit of `doRequest`. */
  datatype Failure = NoQuery | SearchError | NullResponse | NullDocs | NoHits

  datatype Outcome = Found(results: seq<SearchResult>) | NotFound(failure: Failure)

  /** The decision `doRequest` makes, the search server given as the function from query to reply. */
  function Decide(req: Request, solr: QuerySpec -> SearchReply): (r: Outcome)
    ensures r == NotFound(NoQuery) <==> BuildQuery(req.Param(ParamQuery), req).None?
    ensures r == NotFound(SearchError) <==>
              BuildQuery(req.Param(ParamQuery), req).Some? && solr(BuildQuery(req.Param(ParamQuery), req).value).Threw?
    ensures var q := BuildQuery(req.Param(ParamQuery), req);
            r.Found? ==>
              && q.Some? && solr(q.value).Returned? && solr(q.value).response.Some?
              && solr(q.value).response.value.results.Some?
              && solr(q.value).response.value.results.value.numFound >= 1
              && |r.results| <= |solr(q.value).response.value.results.value.hits|
  {
    match BuildQuery(req.Param(ParamQuery), req)
    case None => NotFound(NoQuery)
    case Some(query) =>
      match solr(query)
      case Threw => NotFound(SearchError)
      case Returned(None) => NotFound(NullResponse)
      case Returned(Some(QueryResponse(None))) => NotFound(NullDocs)
      case Returned(Some(QueryResponse(Some(docs)))) =>
        if docs.numFound < 1 then NotFound(NoHits) else Found(MappedHits(docs.hits))
  }

  /** The JSON array of the results' maps, in result order. */
  function JsonArray(rs: seq<SearchResult>): seq<JsonObject>
  {
    seq(|rs|, i requires 0 <= i < |rs| => rs[i].ToMap())
  }

  /** The body written for an outcome: the results as a JSON array, or `[]` for every failure. */
  function ResponseBody(o: Outcome): seq<JsonObject>
  {
    match o
    case Found(rs) => JsonArray(rs)
    case NotFound(_) => []
  }

  /** `doNoSearchResults`: writes the empty array. */
  method DoNoSearchResults() returns (body: seq<JsonObject>)
    ensures body == []
  {
    body := [];
  }

  /** `doNoQuery`: the same empty array, since the client cannot take an error message. */
  method DoNoQuery() returns (body: seq<JsonObject>)
    ensures body == []
  {
    body := DoNoSearchResults();
  }

  /** `doSearchError`: the same empty array, since the client cannot take an error message. */
  method DoSearchError() returns (body: seq<JsonObject>)
    ensures body == []
  {
    body := DoNoSearchResults();
  }

  /** The second loop of `doRequest`: puts each result's map into the JSON array. */
  method WriteJsonArray(results: seq<SearchResult>) returns (jsonArray: seq<JsonObject>)
    ensures |jsonArray| == |results|
    ensures forall i :: 0 <= i < |results| ==>
                          jsonArray[i].Keys == {"label", "uri"} &&
                          jsonArray[i]["label"] == results[i].labelText && jsonArray[i]["uri"] == results[i].uri
    ensures jsonArray == JsonArray(results)
  {
    jsonArray := [];
    for i := 0 to |results|
      invariant |jsonArray| == i
      invariant forall j :: 0 <= j < i ==> jsonArray[j] == results[j].ToMap()
    {
      jsonArray := jsonArray + [results[i].ToMap()];
    }
  }

  /** `doRequest`: the body written for the request, given what the search server answers. */
  method DoRequest(req: Request, solr: QuerySpec -> SearchReply) returns (body: seq<JsonObject>)
    ensures body == ResponseBody(Decide(req, solr))
  {
    var qtxt := req.Param(ParamQuery);
    var query := GetQuery(qtxt, req);
    if query == null {
      body := DoNoQuery();
      return;
    }
    var reply := solr(query.Spec());
    if reply.Threw? {
      body := DoSearchError();
      return;
    }
    var queryResponse := reply.response;
    if queryResponse.None? {
      body := DoNoSearchResults();
      return;
    }
    var docs := queryResponse.value.results;
    if docs.None? {
      body := DoNoSearchResults();
      return;
    }
    var hitCount := docs.value.numFound;
    if hitCount < 1 {
      body := DoNoSearchResults();
      return;
    }
    var results := MapHits(docs.value.hits);
    body := WriteJsonArray(results);
  }

  // ---------------------------------------------------------------------
  // Properties of the endpoint
  // ---------------------------------------------------------------------

  /** Results are found exactly when a query is built and the server returns hits with a count of at least one. */
  lemma FoundExactlyWhen(req: Request, solr: QuerySpec -> SearchReply)
    ensures Decide(req, solr).Found? <==>
              && BuildQuery(req.Param(ParamQuery), req).Some?
              && var reply := solr(BuildQuery(req.Param(ParamQuery), req).value);
              && reply.Returned? && reply.response.Some? && reply.response.value.results.Some?
              && reply.response.value.results.value.numFound >= 1
  {
  }

  /**
   * Every failure writes exactly `[]`: no query, a thrown failure, a `null`
   * response, a `null` hit list, or a hit count below one.
   */
  lemma FailureWritesEmptyArray(req: Request, solr: QuerySpec -> SearchReply)
    requires var q := BuildQuery(req.Param(ParamQuery), req);
             || q.None?
             || solr(q.value).Threw?
             || solr(q.value) == Returned(None)
             || solr(q.value) == Returned(Some(QueryResponse(None)))
             || (solr(q.value).Returned? && solr(q.value).response.Some? && solr(q.value).response.value.results.Some? &&
                 solr(q.value).response.value.results.value.numFound < 1)
    ensures Decide(req, solr).NotFound?
    ensures ResponseBody(Decide(req, solr)) == []
  {
  }

  /** A missing term or one over 500 characters builds no query, and the body is `[]`, whatever the server would say. */
  lemma RejectedTermWritesEmptyArray(req: Request, solr: QuerySpec -> SearchReply)
    requires req.Param(ParamQuery).None? || |req.Param(ParamQuery).value| > MaxQueryLength
    ensures Decide(req, solr) == NotFound(NoQuery)
    ensures ResponseBody(Decide(req, solr)) == []
  {
  }

  /** A present term of at most 500 characters, blank or not, is searched for. */
  lemma AcceptedTermIsSearched(req: Request, solr: QuerySpec -> SearchReply)
    requires req.Param(ParamQuery).Some? && |req.Param(ParamQuery).value| <= MaxQueryLength
    ensures Decide(req, solr) != NotFound(NoQuery)
  {
  }

  /**
   * When results are found, the body holds one `{label, uri}` object per
   * readable hit, in hit order, and is never longer than the hit list.
   */
  lemma {:induction false} FoundBodyShape(req: Request, solr: QuerySpec -> SearchReply)
    requires Decide(req, solr).Found?
    ensures var docs := solr(BuildQuery(req.Param(ParamQuery), req).value).response.value.results.value;
            var body := ResponseBody(Decide(req, solr));
            && |body| == |KeptIndices(docs.hits)| <= |docs.hits|
            && forall k :: 0 <= k < |body| ==>
                             ToResult(docs.hits[KeptIndices(docs.hits)[k]]) == Some(SearchResult(body[k]["label"], body[k]["uri"]))
  {
    var docs := solr(BuildQuery(req.Param(ParamQuery), req).value).response.value.results.value;
    MappedHitsFollowKept(docs.hits);
  }

  /** One hit with a URI and the name list `["Jane Doe"]` gives exactly one object with that label and URI. */
  lemma SingleHitExample(req: Request, solr: QuerySpec -> SearchReply)
    requires BuildQuery(req.Param(ParamQuery), req).Some?
    requires solr(BuildQuery(req.Param(ParamQuery), req).value) ==
             Returned(Some(QueryResponse(Some(DocList(1, [Hit(map[TermNames.Uri := Scalar("http://x/1"),
                                                                     TermNames.NameRaw := Multi(["Jane Doe"])])])))))
    ensures ResponseBody(Decide(req, solr)) == [map["label" := "Jane Doe", "uri" := "http://x/1"]]
  {
  }
}
