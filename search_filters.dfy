/** The search filter panel (src/components/search-filters.tsx): three filter
    fields updated by their change callbacks, and the decision `handleSearch`
    makes from them between a cross search, a normal search and nothing. */
module SearchFilters {

  import opened Wrappers
  import opened Strings
  import opened Industries
  import SearchRoute

  datatype CrossMode = AllIndustries | AllLocations

  /** What `onSearch` receives; an absent optional field is `None`, and a
      normal search's `crossMode: null` is `None` too. */
  datatype SearchParams = SearchParams(
    query: string,
    location: string,
    crossMode: Option<CrossMode>,
    industryId: Option<string>,
    cityName: Option<string>)

  /** What `onFilterChange` is told: the three filter values after a change. */
  datatype FilterChange = FilterChange(industry: string, city: string, freeText: string)

  /** `selectedCity?.name || ""`. */
  function CityName(cityId: string): string {
    match CityById(cityId)
    case Some(c) => c.name
    case None => ""
  }

  /** The normal search's query: the trimmed free text when it is not blank,
      else the selected industry's search term in the current language. */
  function NormalQuery(industry: string, freeText: string, locale: string): string {
    if !IsBlank(freeText) then Trim(freeText)
    else match IndustryById(industry)
      case Some(ind) => if locale == "et" then ind.searchTermEt else ind.searchTermEn
      case None => ""
  }

  /** The parameters `handleSearch` passes to `onSearch`, or `None` when it
      returns without searching. */
  function SearchDecision(industry: string, city: string, freeText: string, locale: string): Option<SearchParams> {
    if industry == "" && city != "" && IsBlank(freeText) then
      Some(SearchParams("", CityName(city), Some(AllIndustries), None, Some(CityName(city))))
    else if industry != "" && city == "" && IsBlank(freeText) then
      Some(SearchParams("", "", Some(AllLocations), Some(industry), None))
    else
      var query := NormalQuery(industry, freeText, locale);
      var location := CityName(city);
      if query == "" && location == "" then None
      else Some(SearchParams(query, location, None, None, None))
  }

  /** The filter panel's state. */
  class SearchFilterState {
    var industry: string
    var city: string
    var freeText: string

    /** The initial values default to "", the "all" choice. */
    constructor(initialIndustry: Option<string>, initialCity: Option<string>, initialFreeText: Option<string>)
      ensures industry == initialIndustry.GetOr("")
      ensures city == initialCity.GetOr("")
      ensures freeText == initialFreeText.GetOr("")
    {
      industry := initialIndustry.GetOr("");
      city := initialCity.GetOr("");
      freeText := initialFreeText.GetOr("");
    }

    /** `updateIndustry`: set the industry and report it with the other two. */
    method UpdateIndustry(v: string) returns (change: FilterChange)
      modifies this
      ensures industry == v && city == old(city) && freeText == old(freeText)
      ensures change == FilterChange(v, old(city), old(freeText))
    {
      industry := v;
      change := FilterChange(v, city, freeText);
    }

    /** `updateCity`: set the city and report it with the other two. */
    method UpdateCity(v: string) returns (change: FilterChange)
      modifies this
      ensures city == v && industry == old(industry) && freeText == old(freeText)
      ensures change == FilterChange(old(industry), v, old(freeText))
    {
      city := v;
      change := FilterChange(industry, v, freeText);
    }

    /** `updateFreeText`: set the free text and report it with the other two. */
    method UpdateFreeText(v: string) returns (change: FilterChange)
      modifies this
      ensures freeText == v && industry == old(industry) && city == old(city)
      ensures change == FilterChange(old(industry), old(city), v)
    {
      freeText := v;
      change := FilterChange(industry, city, v);
    }

    /** `handleSearch`: the two cross-search cases first, each returning
        early, then the normal search unless both its query and its location
        are empty. */
    method HandleSearch(locale: string) returns (r: Option<SearchParams>)
      ensures r == SearchDecision(industry, city, freeText, locale)
    {
      var industryId, cityId, text := industry, city, freeText;
      var selectedIndustry := IndustryById(industryId);
      var cityName := CityName(cityId);
      var blank := IsBlank(text);
      DecisionCases(industryId, cityId, text, locale);

      if industryId == "" && cityId != "" && blank {
        return Some(SearchParams("", cityName, Some(AllIndustries), None, Some(cityName)));
      }
      if industryId != "" && cityId == "" && blank {
        return Some(SearchParams("", "", Some(AllLocations), Some(industryId), None));
      }

      var query := "";
      if !blank {
        query := Trim(text);
      } else if selectedIndustry.Some? {
        query := if locale == "et" then selectedIndustry.value.searchTermEt else selectedIndustry.value.searchTermEn;
      }
      assert query == NormalQuery(industryId, text, locale);
      if query == "" && cityName == "" {
        return None;
      }
      return Some(SearchParams(query, cityName, None, None, None));
    }
  }

  // ------------------------------------------------------------ properties

  /** Proof scaffolding for `HandleSearch`: the decision unfolded branch by branch. */
  lemma DecisionCases(industry: string, city: string, freeText: string, locale: string)
    ensures industry == "" && city != "" && IsBlank(freeText) ==>
      SearchDecision(industry, city, freeText, locale) ==
        Some(SearchParams("", CityName(city), Some(AllIndustries), None, Some(CityName(city))))
    ensures industry != "" && city == "" && IsBlank(freeText) ==>
      SearchDecision(industry, city, freeText, locale) ==
        Some(SearchParams("", "", Some(AllLocations), Some(industry), None))
    ensures !(industry == "" && city != "" && IsBlank(freeText)) && !(industry != "" && city == "" && IsBlank(freeText)) ==>
      var query, location := NormalQuery(industry, freeText, locale), CityName(city);
      SearchDecision(industry, city, freeText, locale) ==
        if query == "" && location == "" then None else Some(SearchParams(query, location, None, None, None))
  {
  }

  /** No industry, a city and blank free text: a cross search over all
      industries in that city. */
  lemma CrossIndustriesCase(industry: string, city: string, freeText: string, locale: string)
    requires industry == "" && city != "" && IsBlank(freeText)
    ensures var r := SearchDecision(industry, city, freeText, locale);
      r.Some? && r.value.crossMode == Some(AllIndustries) && r.value.query == ""
      && r.value.location == CityName(city) && r.value.cityName == Some(CityName(city))
  {
  }

  /** An industry, no city and blank free text: a cross search for that
      industry over all cities. */
  lemma CrossLocationsCase(industry: string, city: string, freeText: string, locale: string)
    requires industry != "" && city == "" && IsBlank(freeText)
    ensures var r := SearchDecision(industry, city, freeText, locale);
      r.Some? && r.value.crossMode == Some(AllLocations) && r.value.query == ""
      && r.value.location == "" && r.value.industryId == Some(industry)
  {
  }

  /** Free text that is not blank always gives a normal search for the
      trimmed text, whatever the industry. */
  lemma FreeTextTakesPriority(industry: string, city: string, freeText: string, locale: string)
    requires !IsBlank(freeText)
    ensures var r := SearchDecision(industry, city, freeText, locale);
      r.Some? && r.value.crossMode.None? && r.value.query == Trim(freeText)
      && r.value.query != "" && !IsWhitespace(r.value.query[0])
      && r.value.location == CityName(city)
  {
  }

  /** With blank free text, a known industry and a city, the query is the
      industry's search term in the locale's language. */
  lemma IndustryTermByLocale(industry: string, city: string, freeText: string, locale: string)
    requires IsBlank(freeText) && IndustryById(industry).Some? && city != ""
    ensures var r := SearchDecision(industry, city, freeText, locale);
      var ind := IndustryById(industry).value;
      r.Some? && r.value.crossMode.None?
      && r.value.query == (if locale == "et" then ind.searchTermEt else ind.searchTermEn)
  {
  }

  /** `onSearch` is not called exactly when neither cross case applies and
      the normal search would have neither a query nor a location. */
  lemma NoSearchIff(industry: string, city: string, freeText: string, locale: string)
    ensures SearchDecision(industry, city, freeText, locale).None? <==>
      !(industry == "" && city != "" && IsBlank(freeText)) &&
      !(industry != "" && city == "" && IsBlank(freeText)) &&
      NormalQuery(industry, freeText, locale) == "" && CityName(city) == ""
  {
  }

  /** Outside the two cross cases, a search that is made carries no cross mode
      and has a non-empty query or location, so the text-search route's
      validation accepts it. */
  lemma NormalSearchAccepted(industry: string, city: string, freeText: string, locale: string)
    requires !(industry == "" && city != "" && IsBlank(freeText))
    requires !(industry != "" && city == "" && IsBlank(freeText))
    ensures var r := SearchDecision(industry, city, freeText, locale);
      r.Some? ==> r.value.crossMode.None? && (r.value.query != "" || r.value.location != "")
    ensures var r := SearchDecision(industry, city, freeText, locale);
      r.Some? ==> SearchRoute.Accepts(Some(r.value.query), Some(r.value.location), None)
  {
  }
}
