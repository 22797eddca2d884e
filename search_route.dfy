/** Text search (src/app/api/search/route.ts): validate the query parameters
    and assemble the Places API request body. Sending the request and relaying
    its response are outside the model. */
module SearchRoute {

  import opened Wrappers
  import opened Strings
  import opened Seqs

  /** `[query, location].filter(Boolean).join(" ")`. */
  function TextQuery(query: string, location: string): string {
    Join(Filter([query, location], NonEmpty), " ")
  }

  /** Both parts joined by one space when both are present, otherwise the
      present one alone: never a stray separator. */
  lemma TextQueryCases(query: string, location: string)
    ensures query != "" && location != "" ==> TextQuery(query, location) == query + " " + location
    ensures query != "" && location == "" ==> TextQuery(query, location) == query
    ensures query == "" ==> TextQuery(query, location) == location
  {
    FilterSnoc([query], location, NonEmpty);
    FilterSnoc([], query, NonEmpty);
    assert [query, location] == [query] + [location];
    assert [query] == [] + [query];
    if query != "" && location != "" {
      JoinSnoc([query], location, " ");
    }
  }

  /** The route's validation: some parameter is present and non-empty. */
  predicate Accepts(q: Option<string>, location: Option<string>, pageToken: Option<string>) {
    Truthy(q) || Truthy(location) || Truthy(pageToken)
  }

  /** The request body sent to the Places text search. */
  datatype SearchBody = SearchBody(textQuery: string, languageCode: string, pageSize: int, pageToken: Option<string>)

  /** `GET /api/search` up to the Places call. Each parameter is `None` when
      absent; absence and the empty string are treated alike. */
  method BuildSearchRequest(q: Option<string>, location: Option<string>, pageToken: Option<string>)
    returns (r: Result<SearchBody, HttpError>)
    ensures r.Failure? <==> !Truthy(q) && !Truthy(location) && !Truthy(pageToken)
    ensures r.Success? <==> Accepts(q, location, pageToken)
    ensures r.Failure? ==> r.error == HttpError(400, "Query or location required")
    ensures r.Success? ==>
      r.value.textQuery == TextQuery(OrEmpty(q), OrEmpty(location)) &&
      r.value.languageCode == "et" && r.value.pageSize == 20 &&
      (r.value.pageToken.Some? <==> Truthy(pageToken)) &&
      (r.value.pageToken.Some? ==> r.value.pageToken == pageToken)
    ensures !Truthy(q) && !Truthy(location) && Truthy(pageToken) ==> r.Success? && r.value.textQuery == ""
  {
    var query := OrEmpty(q);
    var loc := OrEmpty(location);
    var token := OrEmpty(pageToken);
    if query == "" && loc == "" && token == "" {
      return Failure(HttpError(400, "Query or location required"));
    }
    var textQuery := TextQuery(query, loc);
    TextQueryCases(query, loc);
    var body := SearchBody(textQuery, "et", 20, None);
    if token != "" {
      body := body.(pageToken := Some(token));
    }
    return Success(body);
  }
}
