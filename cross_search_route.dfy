/** Cross search (src/app/api/search/cross/route.ts): one Places text search
    per industry in a city, or per city for an industry, with the settled
    results merged into one list of places with distinct ids. The Places API
    call itself is outside the model and comes in as a function. */
module CrossSearchRoute {

  import opened Wrappers
  import opened Seqs
  import opened AllSettled
  import opened LeadTypes
  import opened Industries

  // ------------------------------------------------------------ searchPlaces

  /** What one Places API request gave: a response (its `ok` flag and the
      `places` field, absent when the API found nothing) or a thrown error. */
  datatype PlacesFetch = PlacesResponse(ok: bool, places: Option<seq<Place>>) | PlacesThrew

  /** `searchPlaces(textQuery)`: the response's places, or the empty list on a
      thrown error, a non-ok status or a missing `places` field. */
  function SearchPlacesResult(f: PlacesFetch): (places: seq<Place>)
    ensures f.PlacesThrew? || !f.ok || f.places.None? ==> places == []
    ensures f.PlacesResponse? && f.ok && f.places.Some? ==> places == f.places.value
  {
    match f
    case PlacesThrew => []
    case PlacesResponse(ok, ps) => if !ok then [] else ps.GetOr([])
  }

  // ------------------------------------------------------------ queries

  const ALL_INDUSTRIES_MODE := "all-industries"
  const ALL_LOCATIONS_MODE := "all-locations"

  function IndustryQueries(city: string): (qs: seq<string>)
    ensures |qs| == |INDUSTRIES|
    ensures forall i :: 0 <= i < |qs| ==> qs[i] == INDUSTRIES[i].searchTermEt + " " + city
  {
    seq(|INDUSTRIES|, i requires 0 <= i < |INDUSTRIES| => INDUSTRIES[i].searchTermEt + " " + city)
  }

  function CityQueries(industry: Industry): (qs: seq<string>)
    ensures |qs| == |ESTONIAN_CITIES|
    ensures forall i :: 0 <= i < |qs| ==> qs[i] == industry.searchTermEt + " " + ESTONIAN_CITIES[i].name
  {
    seq(|ESTONIAN_CITIES|, i requires 0 <= i < |ESTONIAN_CITIES| => industry.searchTermEt + " " + ESTONIAN_CITIES[i].name)
  }

  /** The dispatch of `GET`: the text queries to issue, in order, or the 400
      error. `mode` is `None` when the parameter is absent; `city` and
      `industryId` are the parameters with absence read as "". */
  function CrossQueries(mode: Option<string>, city: string, industryId: string): (r: Result<seq<string>, HttpError>)
    ensures mode == Some(ALL_INDUSTRIES_MODE) && city != "" ==>
      r.Success? && |r.value| == |INDUSTRIES| &&
      forall i :: 0 <= i < |INDUSTRIES| ==> r.value[i] == INDUSTRIES[i].searchTermEt + " " + city
    ensures mode == Some(ALL_LOCATIONS_MODE) && industryId != "" && IndustryById(industryId).None? ==>
      r == Failure(HttpError(400, "Unknown industry"))
    ensures mode == Some(ALL_LOCATIONS_MODE) && industryId != "" && IndustryById(industryId).Some? ==>
      r.Success? && |r.value| == |ESTONIAN_CITIES| &&
      forall i :: 0 <= i < |ESTONIAN_CITIES| ==>
        r.value[i] == IndustryById(industryId).value.searchTermEt + " " + ESTONIAN_CITIES[i].name
    ensures !(mode == Some(ALL_INDUSTRIES_MODE) && city != "") && !(mode == Some(ALL_LOCATIONS_MODE) && industryId != "") ==>
      r == Failure(HttpError(400, "mode must be all-industries or all-locations"))
  {
    if mode == Some(ALL_INDUSTRIES_MODE) && city != "" then
      Success(IndustryQueries(city))
    else if mode == Some(ALL_LOCATIONS_MODE) && industryId != "" then
      match IndustryById(industryId)
      case None => Failure(HttpError(400, "Unknown industry"))
      case Some(industry) => Success(CityQueries(industry))
    else
      Failure(HttpError(400, "mode must be all-industries or all-locations"))
  }

  /** Every all-industries query ends with the requested city as its last
      word. */
  lemma IndustryQueriesNameCity(city: string)
    ensures forall q :: q in IndustryQueries(city) ==> EndsWithWord(q, city)
  {
    var qs := IndustryQueries(city);
    forall q | q in qs ensures EndsWithWord(q, city) {
      var i :| 0 <= i < |qs| && qs[i] == q;
      assert q == (INDUSTRIES[i].searchTermEt + " ") + city;
      assert q[|q| - |city| - 1..] == " " + city;
    }
  }

  /** Every all-locations query starts with the industry's Estonian search
      term as its first word. */
  lemma CityQueriesNameIndustry(industry: Industry)
    ensures forall q :: q in CityQueries(industry) ==> StartsWithWord(q, industry.searchTermEt)
  {
    var qs := CityQueries(industry);
    var term := industry.searchTermEt;
    forall q | q in qs ensures StartsWithWord(q, term) {
      var i :| 0 <= i < |qs| && qs[i] == q;
      assert q == (term + " ") + ESTONIAN_CITIES[i].name;
      assert q[..|term| + 1] == term + " ";
    }
  }

  predicate EndsWithWord(q: string, word: string) {
    |word| + 1 <= |q| && q[|q| - |word| - 1..] == " " + word
  }

  predicate StartsWithWord(q: string, word: string) {
    |word| + 1 <= |q| && q[..|word| + 1] == word + " "
  }

  // ------------------------------------------------------------ merge

  function PlaceId(p: Place): string {
    p.id
  }

  /** The merge loop: walk the settled results in order, skip rejected ones,
      and push each place whose id is not yet in `seen`. Only a place's id
      matters here (the route types a place as an id with unknown other
      fields), so the place type is a parameter and `idOf` reads the id. */
  method MergeById<P(!new)>(results: seq<Settled<seq<P>>>, idOf: P -> string) returns (merged: seq<P>)
    ensures merged == DedupBy(MergeFulfilled(results), idOf)
    ensures DistinctKeys(merged, idOf)
    ensures KeysOf(merged, idOf) == KeysOf(MergeFulfilled(results), idOf)
  {
    var seen: set<string> := {};
    merged := [];
    ghost var consumed: seq<P> := [];
    var i := 0;
    while i < |results|
      invariant 0 <= i <= |results|
      invariant consumed == MergeFulfilled(results[..i])
      invariant merged == DedupBy(consumed, idOf)
      invariant seen == KeysOf(merged, idOf)
    {
      var r := results[i];
      MergeFulfilledPrefix(results, i);
      if r.Rejected? {
        i := i + 1;
        continue;
      }
      ghost var before := consumed;
      var places := r.value;
      var j := 0;
      while j < |places|
        invariant 0 <= j <= |places|
        invariant consumed == before + places[..j]
        invariant merged == DedupBy(consumed, idOf)
        invariant seen == KeysOf(merged, idOf)
      {
        var place := places[j];
        DedupByStep(consumed, place, idOf, merged, seen);
        if idOf(place) !in seen {
          seen := seen + {idOf(place)};
          merged := merged + [place];
        }
        consumed := consumed + [place];
        assert places[..j + 1] == places[..j] + [place];
        j := j + 1;
      }
      assert places[..j] == places;
      i := i + 1;
    }
    assert results[..i] == results;
    DedupByKeys(consumed, idOf);
  }

  /** Every id of a fulfilled result is in the merged list, and every merged
      place comes from a fulfilled result. */
  lemma MergedIds(results: seq<Settled<seq<Place>>>, p: Place)
    ensures (exists i :: 0 <= i < |results| && results[i].Fulfilled? && p in results[i].value)
      ==> p.id in KeysOf(DedupBy(MergeFulfilled(results), PlaceId), PlaceId)
    ensures p in DedupBy(MergeFulfilled(results), PlaceId)
      ==> exists i :: 0 <= i < |results| && results[i].Fulfilled? && p in results[i].value
  {
    var all := MergeFulfilled(results);
    DedupByKeys(all, PlaceId);
    MergeFulfilledMembers(results, p);
    if p in all {
      var k :| 0 <= k < |all| && all[k] == p;
      assert PlaceId(all[k]) in KeysOf(all, PlaceId);
    }
  }

  /** The merged list keeps, for every id, the first place with that id in
      result order and then position order, and lists them in that order. */
  lemma MergedFirstOccurrences(results: seq<Settled<seq<Place>>>)
    ensures var all := MergeFulfilled(results); var m := DedupBy(all, PlaceId);
      forall i :: 0 <= i < |m| ==> m[i].id in KeysOf(all, PlaceId) && m[i] == all[FirstKeyIndex(all, PlaceId, m[i].id)]
    ensures var all := MergeFulfilled(results); var m := DedupBy(all, PlaceId);
      forall i, j :: 0 <= i < j < |m| ==>
        m[i].id in KeysOf(all, PlaceId) && m[j].id in KeysOf(all, PlaceId) &&
        FirstKeyIndex(all, PlaceId, m[i].id) < FirstKeyIndex(all, PlaceId, m[j].id)
  {
    DedupByKeepsFirst(MergeFulfilled(results), PlaceId);
    DedupByOrdered(MergeFulfilled(results), PlaceId);
  }

  // ------------------------------------------------------------ GET

  /** The settled outcome of each query: `searchPlaces` catches every failure,
      so each outcome is fulfilled. */
  function SearchAll(queries: seq<string>, searchPlaces: string -> PlacesFetch): (rs: seq<Settled<seq<Place>>>)
    ensures |rs| == |queries|
    ensures forall i :: 0 <= i < |rs| ==> rs[i] == Fulfilled(SearchPlacesResult(searchPlaces(queries[i])))
  {
    seq(|queries|, i requires 0 <= i < |queries| => Fulfilled(SearchPlacesResult(searchPlaces(queries[i]))))
  }

  /** `GET /api/search/cross`: dispatch on the mode, issue the queries and
      merge their places by id. */
  method CrossSearch(mode: Option<string>, city: Option<string>, industryId: Option<string>,
                     searchPlaces: string -> PlacesFetch) returns (r: Result<seq<Place>, HttpError>)
    ensures var q := CrossQueries(mode, city.GetOr(""), industryId.GetOr(""));
      (r.Failure? <==> q.Failure?) &&
      (r.Failure? ==> r.error == q.error && r.error.status == 400) &&
      (r.Success? ==> r.value == DedupBy(MergeFulfilled(SearchAll(q.value, searchPlaces)), PlaceId))
    ensures r.Success? ==> DistinctKeys(r.value, PlaceId)
  {
    var q := CrossQueries(mode, city.GetOr(""), industryId.GetOr(""));
    if q.Failure? {
      return Failure(q.error);
    }
    var results := SearchAll(q.value, searchPlaces);
    var merged := MergeById(results, PlaceId);
    return Success(merged);
  }
}
