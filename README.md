# lead-radar, modelled in Dafny

lead-radar finds small Estonian businesses in Google Places that are worth
contacting. It scores each business as a sales lead, harvests contact emails
from its website, and fans one search out over every industry or every city.
It also filters, saves and exports leads as CSV.

This project models the decision logic of that system and proves what it
promises:

- **Lead score** (`Scoring`). The five-factor lead score, computed step by
  step as the source does, and the Hot/Warm/Cold presentation.
- **Email harvesting** (`ScrapeEmails`, and the older variant in
  `EnrichRoute`). Candidate URLs, junk filtering, the path-order merge of
  per-page results, de-duplication and caps.
- **Bulk enrichment** (`EnrichRoute`). Request validation, batch selection
  and result collection.
- **Cross search** (`CrossSearchRoute`). Mode dispatch, one query per
  industry or city, and the `seen`-set merge loop that keeps one place per id.
- **Search panel** (`SearchFilters`). Its state and the decision
  `handleSearch` makes.
- **Text-search request** (`SearchRoute`). Validation and assembly of the
  request.
- **CSV export** (`LeadsExportRoute`). The serialiser, with a field reader
  that proves the quoting round-trips.
- **Lead card and navigation bar** (`LeadCard`, `Navbar`). Their string
  helpers.

Shared modules:

- `Wrappers`: `Option`, `Result`, HTTP errors.
- `Strings`: JavaScript string operations over `seq<char>`.
- `Seqs`: `slice`/`filter` and first-occurrence de-duplication.
- `AllSettled`: `Promise.allSettled` outcomes, as a sequence in input order.
- `LeadTypes`: the place record.
- `Industries`: the industry and city tables.

Everything that talks to the outside world is a parameter:

- a fetched page is its outcome plus the email pattern's matches;
- a Places search is its response;
- the PageSpeed audit is a function from URL to optional result;
- a parsed URL is its optional origin.

## Where the code departs from its own comments and intent

- **Maximum total.** The comment at src/lib/scoring.ts:20 announces web
  presence as worth up to 25 points, but the code gives 0 or 15 and no other
  value, so the total never exceeds 90. `ScoreBounds` proves the bound and
  `MaximalScoreReached` shows that 90 is attained.
- **Empty enrichment request.** src/app/api/enrich/route.ts:54 answers an
  empty or missing `places` array with a 400 error; a non-empty request whose
  places have no website gets `enriched: []`.
- **Social links and copyright year.** The scan for these lives in
  src/app/api/lead/[placeId]/route.ts:25-60, outside the modelled files; that
  route is not part of this model.
- **Email column.** The export reads an `emails` field of each saved lead,
  but the `saved_leads` table in src/db/schema.ts declares no such column.
  Rows read from that table would always export the Email column as `""`.
  The model takes the emails as an optional field of the row, as the export
  code reads it.

## Model

| member | source | states |
|---|---|---|
| Scoring.PhotoPoints | src/lib/scoring.ts:29-37 | 10 points for 1–2 photos, 5 for 3–5, 0 for none or 6 and more, each as an if-and-only-if |
| Scoring.TARGET_TYPES | src/lib/scoring.ts:3-9 | the 25 target trades; TypeLabelsAreTargetTypes relates them to the card labels and MaximalScoreReached uses one of them |
| Scoring.RatingPoints | src/lib/scoring.ts:63-68 | 15 points exactly for a rating in [3.0, 4.2], 5 exactly for one in (0, 3.0), 0 otherwise |
| Scoring.ReviewCountPoints | src/lib/scoring.ts:71-76 | 10 points exactly for 1–15 reviews, 5 exactly for 16–30, 0 otherwise |
| Scoring.ProfileCompleteness | src/lib/scoring.ts:29-52 | photo points plus the three 5-point gaps always stay within 0..25 |
| Scoring.ReviewHealth | src/lib/scoring.ts:56-79 | within 0..25, and 0 whenever the review count is 0 or missing |
| Scoring.WebPresence | src/lib/scoring.ts:20-24 | 15 for a truthy website, else 0; ScoreBounds states that no other value occurs |
| Scoring.Contactability | src/lib/scoring.ts:82-90 | 5 for a phone plus 10 for a website; ClampsInactive states the 15 cap never binds |
| Scoring.ServiceFit | src/lib/scoring.ts:93-102 | 5 for a pure service-area business plus 5 for a target trade; ClampsInactive states the 10 cap never binds |
| Scoring.LeadScore | src/lib/scoring.ts:104-113 | the breakdown of the five factors and their sum, the reference that CalculateLeadScore is proved equal to; ScoreBounds and MaximalScoreReached bound it |
| Scoring.CalculateLeadScore | src/lib/scoring.ts:13-114 | the five accumulators, each clamped with `Math.min`, produce exactly the factor-wise breakdown; the total is their sum and lies in 0..90 |
| Scoring.ClampsInactive | src/lib/scoring.ts:52-102 | none of the four `Math.min` clamps changes its argument |
| Scoring.ScoreBounds | src/lib/scoring.ts:20-24 | web presence is 0 or 15, never the commented 25, so the total is within 0..90 |
| Scoring.MaximalScoreReached | src/lib/scoring.ts:104-113 | some place scores exactly 90 |
| Scoring.ProfileCapReached | src/lib/scoring.ts:29-52 | one photo, no hours, no summary and a phone reach the cap of 25 |
| Scoring.ReviewGate | src/lib/scoring.ts:59-77 | without reviews the factor is 0 whatever the rating; with reviews it is rating points plus count points |
| Scoring.TierOf | src/lib/scoring.ts:116-132 | Hot iff score ≥ 60, Warm iff 30 ≤ score < 60, Cold iff score < 30 |
| Scoring.TierColor | src/lib/scoring.ts:116-120 | the text colour classes "text-green-600", "text-amber-600" and "text-slate-400"; PresentationAgrees states that colour, background and label always name one tier |
| Scoring.TierBgColor | src/lib/scoring.ts:122-126 | the background classes "bg-green-50 border-green-200", "bg-amber-50 border-amber-200" and "bg-slate-50 border-slate-200"; PresentationAgrees ties them to the label |
| Scoring.TierLabel | src/lib/scoring.ts:128-132 | the labels "Hot", "Warm" and "Cold"; PresentationAgrees ties them to the colours |
| Scoring.ScoreColor | src/lib/scoring.ts:116-120 | `getScoreColor` is the text colour of the score's tier |
| Scoring.ScoreBgColor | src/lib/scoring.ts:122-126 | `getScoreBgColor` is the background of the score's tier |
| Scoring.ScoreLabel | src/lib/scoring.ts:128-132 | `getScoreLabel` is the name of the score's tier |
| Scoring.TierMonotone | src/lib/scoring.ts:116-132 | a higher score never falls in a lower tier |
| Scoring.PresentationAgrees | src/lib/scoring.ts:116-132 | label, text colour and background always name the same tier |
| Industries.FindIndustry | src/components/search-filters.tsx:54 | the result is the first table entry with that id, and it is absent iff no entry has that id |
| Industries.FindCity | src/components/search-filters.tsx:55 | the result is the first table entry with that id, and it is absent iff no entry has that id |
| Industries.IndustryById | src/app/api/search/cross/route.ts:81 | a found industry has the requested, non-empty id and non-empty search terms in both languages |
| Industries.CityById | src/components/search-filters.tsx:55 | a found city has the requested, non-empty id and a non-empty name |
| Industries.INDUSTRIES | src/data/industries.ts:9-24 | the fourteen industries in declaration order; IndustryQueries states that the all-industries queries follow this order, and SearchTermsNonEmpty and IndustryIdsNonEmpty state facts of the table |
| Industries.ESTONIAN_CITIES | src/data/industries.ts:26-42 | the fifteen cities in declaration order; CityQueries states that the all-locations queries follow this order, and CityNamesNonEmpty states every name is non-empty |
| Industries.SearchTermsNonEmpty | src/data/industries.ts:9-24 | every industry has non-empty Estonian and English search terms |
| Industries.CityNamesNonEmpty | src/data/industries.ts:26-42 | every city has a non-empty id and name |
| Industries.IndustryIdsNonEmpty | src/data/industries.ts:9-24 | no industry has the empty id of the "all" choice |
| ScrapeEmails.JunkIgnoresCase | src/lib/scrape-emails.ts:37-39 | the junk test gives the same answer for an address and its lower-cased form |
| ScrapeEmails.CONTACT_PATHS | src/lib/scrape-emails.ts:2-12 | the homepage and eight contact paths; CandidateUrls states the URLs built from them |
| ScrapeEmails.JUNK_PATTERNS | src/lib/scrape-emails.ts:14-19 | the seventeen junk substrings; EnrichJunkIsJunk and the JunkTestsDiffer lemmas compare them with the enrich route's test |
| ScrapeEmails.IsJunk | src/lib/scrape-emails.ts:38 | an address is junk when its lower-cased form contains a junk pattern; JunkIgnoresCase and EnrichJunkIsJunk state its properties |
| ScrapeEmails.FetchPageEmails | src/lib/scrape-emails.ts:21-43 | nothing from a thrown or non-ok fetch; otherwise the non-junk matches in order, and an address is returned iff it is such a match |
| ScrapeEmails.CandidateUrls | src/lib/scrape-emails.ts:52 | nine URLs, the bare origin first, URL i being the origin plus contact path i |
| ScrapeEmails.PageResults | src/lib/scrape-emails.ts:53-55 | one fulfilled outcome per URL, in URL order |
| ScrapeEmails.ScrapeEmails | src/lib/scrape-emails.ts:45-69 | the push loop yields the de-duplicated, 10-capped path-order merge; nothing for an unparsable URL; at most 10 distinct non-junk addresses, each found on some candidate page that answered ok |
| ScrapeEmails.ScrapedEmails | src/lib/scrape-emails.ts:45-69 | the reference result the ScrapeEmails loop is proved equal to; ScrapedFrom and ScrapedKeepsAll state what it contains |
| ScrapeEmails.ScrapedFrom | src/lib/scrape-emails.ts:57-65 | every returned address is a non-junk match of some candidate page that answered ok |
| ScrapeEmails.ScrapedKeepsAll | src/lib/scrape-emails.ts:57-65 | an address found on some candidate page is returned unless ten addresses fill the list |
| EnrichRoute.EnrichEmails | src/app/api/enrich/route.ts:24-42 | nothing from a thrown or non-ok fetch; at most 5 distinct addresses, each a non-junk match of the page |
| EnrichRoute.IsEnrichJunk | src/app/api/enrich/route.ts:37 | the case-sensitive junk test; EnrichJunkIsJunk, JunkTestsDifferOnCase and JunkTestsDifferOnDomain compare it with the library's |
| EnrichRoute.EnrichEmailsFilterFirst | src/app/api/enrich/route.ts:36-38 | de-duplicating then filtering equals filtering then de-duplicating, so the result is the first five distinct non-junk matches |
| EnrichRoute.EnrichEmailsComplete | src/app/api/enrich/route.ts:36-38 | a non-junk match is returned unless five addresses fill the list |
| EnrichRoute.EnrichJunkIsJunk | src/app/api/enrich/route.ts:37 | everything the enrich route's case-sensitive test rejects, the library's case-insensitive test rejects too |
| EnrichRoute.JunkTestsDifferOnCase | src/app/api/enrich/route.ts:37 | "info@acme.PNG" is junk to the library but not to the enrich route |
| EnrichRoute.JunkTestsDifferOnDomain | src/app/api/enrich/route.ts:37 | "user@example.com" is junk to the library but not to the enrich route |
| EnrichRoute.Batch | src/app/api/enrich/route.ts:59 | at most 10 requests, each one of the input with a non-empty website |
| EnrichRoute.BatchComplete | src/app/api/enrich/route.ts:59 | a request with a website is in the batch unless ten others fill it |
| EnrichRoute.BatchOrder | src/app/api/enrich/route.ts:59 | the batch is a prefix of the requests with a website, in input order; all-website inputs of at most ten are kept whole |
| EnrichRoute.EnrichPost | src/app/api/enrich/route.ts:50-80 | 400 "places array required" iff `places` is missing or empty; otherwise one entry per batch request, in batch order, with its place id, audit and emails |
| EnrichRoute.EnrichOne | src/app/api/enrich/route.ts:62-72 | one batch entry: its place id, the audit of its website and the emails of its page; EnrichPost states the entries in order |
| EnrichRoute.NoWebsiteNoEntries | src/app/api/enrich/route.ts:54-79 | a non-empty request with no website succeeds with no entries |
| AllSettled.FulfilledValuesAll | src/app/api/enrich/route.ts:75-77 | when every outcome is fulfilled, nothing is dropped and the order is kept |
| AllSettled.FulfilledValues | src/app/api/enrich/route.ts:75-77 | never more values than outcomes; FulfilledValuesAll states that an all-fulfilled input is kept whole and in order |
| AllSettled.MergeFulfilled | src/lib/scrape-emails.ts:57-62 | the concatenation of the fulfilled lists in order; MergeFulfilledSnoc, MergeFulfilledPrefix and MergeFulfilledMembers state its properties |
| AllSettled.MergeFulfilledSnoc | src/lib/scrape-emails.ts:58-62 | one more outcome appends its list if fulfilled and nothing if rejected |
| AllSettled.MergeFulfilledPrefix | src/app/api/search/cross/route.ts:67-68 | the merge of a longer prefix adds exactly the next outcome's list, or nothing for a rejected one |
| AllSettled.MergeFulfilledMembers | src/lib/scrape-emails.ts:58-62 | an element is in the merge iff it is in some fulfilled outcome |
| CrossSearchRoute.SearchPlacesResult | src/app/api/search/cross/route.ts:33-50 | the response's places, or none on a throw, a non-ok status or a missing `places` field |
| CrossSearchRoute.IndustryQueries | src/app/api/search/cross/route.ts:62 | one query per industry, in table order: its Estonian term, a space, the city |
| CrossSearchRoute.CityQueries | src/app/api/search/cross/route.ts:87 | one query per city, in table order: the industry's Estonian term, a space, the city name |
| CrossSearchRoute.CrossQueries | src/app/api/search/cross/route.ts:54-105 | the all-industries queries for a non-empty city; "Unknown industry" or the all-locations queries for a non-empty industry id; otherwise the 400 mode error |
| CrossSearchRoute.ALL_INDUSTRIES_MODE | src/app/api/search/cross/route.ts:60 | the mode text "all-industries"; CrossQueries states the queries it selects |
| CrossSearchRoute.ALL_LOCATIONS_MODE | src/app/api/search/cross/route.ts:80 | the mode text "all-locations"; CrossQueries states the queries it selects |
| CrossSearchRoute.IndustryQueriesNameCity | src/app/api/search/cross/route.ts:62 | every all-industries query ends with the city as a separate word |
| CrossSearchRoute.CityQueriesNameIndustry | src/app/api/search/cross/route.ts:87 | every all-locations query starts with the industry's term as a separate word |
| CrossSearchRoute.MergeById | src/app/api/search/cross/route.ts:65-75 | the nested loop with `seen` and `continue` yields the first-occurrence de-duplication by id of the fulfilled results, with distinct ids and the same set of ids |
| CrossSearchRoute.MergedIds | src/app/api/search/cross/route.ts:90-100 | every place of a fulfilled result has its id in the merge, and every merged place comes from a fulfilled result |
| CrossSearchRoute.MergedFirstOccurrences | src/app/api/search/cross/route.ts:67-74 | every merged place is the first place with its id, and merged places are ordered by those first positions |
| CrossSearchRoute.SearchAll | src/app/api/search/cross/route.ts:63 | one fulfilled outcome per query, in query order |
| CrossSearchRoute.CrossSearch | src/app/api/search/cross/route.ts:54-106 | fails with the dispatch's 400 error exactly when the dispatch fails; otherwise the id-merge of the query results, with distinct ids |
| SearchRoute.TextQueryCases | src/app/api/search/route.ts:38 | query and location joined by one space when both are present, else the present one alone |
| SearchRoute.TextQuery | src/app/api/search/route.ts:38 | `[query, location].filter(Boolean).join(" ")`; TextQueryCases states its three cases |
| SearchRoute.BuildSearchRequest | src/app/api/search/route.ts:28-50 | 400 "Query or location required" iff all three parameters are empty; otherwise the text query, "et", 20, and the page token iff it is non-empty; a token alone gives an empty text query |
| SearchRoute.Accepts | src/app/api/search/route.ts:34-36 | the route's validation; BuildSearchRequest succeeds iff it holds, and NormalSearchAccepted shows the panel's normal searches meet it |
| SearchFilters.SearchFilterState.constructor | src/components/search-filters.tsx:32-38 | the three fields start at the initial values, "" when absent |
| SearchFilters.SearchFilterState.UpdateIndustry | src/components/search-filters.tsx:40-43 | sets the industry, keeps the other fields, and reports the new value with the other two |
| SearchFilters.SearchFilterState.UpdateCity | src/components/search-filters.tsx:44-47 | sets the city, keeps the other fields, and reports the new value with the other two |
| SearchFilters.SearchFilterState.UpdateFreeText | src/components/search-filters.tsx:48-51 | sets the free text, keeps the other fields, and reports the new value with the other two |
| SearchFilters.SearchFilterState.HandleSearch | src/components/search-filters.tsx:53-92 | the early-return code computes the three-way search decision on the current fields |
| SearchFilters.SearchDecision | src/components/search-filters.tsx:53-92 | the reference decision HandleSearch is proved equal to; the case lemmas below state its outcomes |
| SearchFilters.CityName | src/components/search-filters.tsx:87 | `selectedCity?.name \|\| ""` for the chosen city id; CrossIndustriesCase states it is the city sent with an all-industries search |
| SearchFilters.NormalQuery | src/components/search-filters.tsx:79-86 | the trimmed free text, else the selected industry's term for the locale, else ""; FreeTextTakesPriority and IndustryTermByLocale state its cases |
| SearchFilters.CrossIndustriesCase | src/components/search-filters.tsx:58-65 | no industry, a city and blank text: all-industries cross search with the city's name as location and city name |
| SearchFilters.CrossLocationsCase | src/components/search-filters.tsx:69-76 | an industry, no city and blank text: all-locations cross search with the industry id and empty query and location |
| SearchFilters.FreeTextTakesPriority | src/components/search-filters.tsx:80-82 | non-blank text gives a normal search whose query is the trimmed text |
| SearchFilters.IndustryTermByLocale | src/components/search-filters.tsx:83-85 | blank text, a known industry and a city: the query is the Estonian term for locale "et", else the English one |
| SearchFilters.NoSearchIff | src/components/search-filters.tsx:89 | nothing is searched iff neither cross case applies and both query and location are empty |
| SearchFilters.NormalSearchAccepted | src/components/search-filters.tsx:79-91 | when neither cross case applies, any search made has no cross mode and a non-empty query or location, so it meets the text-search route's validation |
| LeadsExportRoute.EscapeQuotes | src/app/api/leads/export/route.ts:22 | escaping never shortens a field |
| LeadsExportRoute.Quote | src/app/api/leads/export/route.ts:22 | a quoted field begins and ends with a double quote |
| LeadsExportRoute.EscapedRoundTrip | src/app/api/leads/export/route.ts:22 | after the opening quote, a CSV reader recovers the original value and stops right after the closing quote |
| LeadsExportRoute.QuoteRoundTrip | src/app/api/leads/export/route.ts:25 | reading a quoted field followed by anything but a quote gives back the value and the rest |
| LeadsExportRoute.CountFieldReadsBack | src/app/api/leads/export/route.ts:29-30 | a non-negative count field is all digits and reads back as the count, 0 when missing |
| LeadsExportRoute.CountField | src/app/api/leads/export/route.ts:29-30 | `n?.toString() \|\| "0"`; CountFieldReadsBack states it reads back as the count |
| LeadsExportRoute.SavedAtIsDate | src/app/api/leads/export/route.ts:32 | the date part of an ISO timestamp is its text before "T" |
| LeadsExportRoute.RowFields | src/app/api/leads/export/route.ts:21-33 | one field per header, eleven in all; a missing type, phone, website or rating gives an empty field; the last is the date part of the timestamp, free of "T" |
| LeadsExportRoute.QuotedFieldReadsBack | src/app/api/leads/export/route.ts:35 | a quoted field strictly inside a joined line reads back as its value, followed by "," and the later fields |
| LeadsExportRoute.AddressReadsBack | src/app/api/leads/export/route.ts:25 | after the first three fields, a reader gets the lead's address back, followed by "," |
| LeadsExportRoute.NotesReadsBack | src/app/api/leads/export/route.ts:31-32 | a reader gets the lead's notes back, followed by "," and the date field that ends the line |
| LeadsExportRoute.CountsReadBack | src/app/api/leads/export/route.ts:29-30 | the review and score fields are all digits and read back as the counts, 0 when missing |
| LeadsExportRoute.RowLines | src/app/api/leads/export/route.ts:35 | one line per lead, in input order |
| LeadsExportRoute.HEADERS | src/app/api/leads/export/route.ts:20 | the eleven column names; RowFields states one field per header |
| LeadsExportRoute.Csv | src/app/api/leads/export/route.ts:35 | the header line and the row lines joined by "\n"; CsvEmpty, CsvSnoc and CsvStartsWithHeader state its shape |
| LeadsExportRoute.HeaderLine | src/app/api/leads/export/route.ts:35 | `headers.join(",")`; CsvStartsWithHeader states every export starts with it |
| LeadsExportRoute.RowLine | src/app/api/leads/export/route.ts:35 | `r.join(",")` of a row's fields; NameReadsBack, AddressReadsBack, NotesReadsBack and CountsReadBack read its fields back |
| LeadsExportRoute.CsvEmpty | src/app/api/leads/export/route.ts:35 | with no leads the export is the header line alone |
| LeadsExportRoute.CsvSnoc | src/app/api/leads/export/route.ts:35 | each further lead adds "\n" and its row line at the end |
| LeadsExportRoute.CsvStartsWithHeader | src/app/api/leads/export/route.ts:35 | the export always starts with the header line |
| LeadsExportRoute.NameReadsBack | src/app/api/leads/export/route.ts:21-22 | a reader of a row line gets the lead's name back as the first field, followed by "," |
| LeadCard.TypeLabelsAreTargetTypes | src/components/lead-card.tsx:22-38 | every labelled type is a target trade of the scoring |
| LeadCard.TypeLabelsNonEmpty | src/components/lead-card.tsx:22-38 | every label is non-empty and the empty type has none |
| LeadCard.TYPE_LABELS | src/components/lead-card.tsx:22-38 | the fifteen Estonian type labels; TypeLabelsAreTargetTypes and TypeLabelsNonEmpty state their properties |
| LeadCard.TypeBadge | src/components/lead-card.tsx:51 | the label of a known type, else the provider's display name, else the raw type |
| LeadCard.TypeBadgeShownIff | src/components/lead-card.tsx:51 | the badge is non-empty iff the place has a primary type or a display name for it |
| LeadCard.KnownTypeUsesLabel | src/components/lead-card.tsx:51 | a known type shows its label whatever display name is sent |
| LeadCard.Initial | src/components/lead-card.tsx:52 | one character: "?" for a missing or empty name, else the upper-cased first character |
| LeadCard.InitialOfLowerCaseName | src/components/lead-card.tsx:52 | a lower-case first letter becomes its upper-case letter, which lower-cases back |
| LeadCard.InitialNotLowerCase | src/components/lead-card.tsx:52 | the initial is never a lower-case letter |
| LeadCard.AtMostOneSaving | src/components/lead-card.tsx:50 | among places with distinct ids at most one card shows a save in flight, and none when no save runs |
| LeadCard.IsSaving | src/components/lead-card.tsx:50 | `savingId === place.id`; AtMostOneSaving states at most one card is saving |
| LeadCard.StripScheme | src/components/lead-card.tsx:140 | the displayed address is a suffix of the original, and an address without a scheme is kept whole |
| LeadCard.StripTrailingSlash | src/components/lead-card.tsx:140 | exactly one "/" is removed when the address ends in "/", and otherwise the address is unchanged |
| LeadCard.StripSchemeOf | src/components/lead-card.tsx:140 | after "http://" or "https://", a following "www." is removed too, and nothing else |
| LeadCard.WebsiteDisplay | src/components/lead-card.tsx:140 | scheme and "www." stripped, then one trailing slash; WebsiteDisplayOfAddress, WebsiteDisplayNoScheme and OneSlashRemoved state what it shows |
| LeadCard.WebsiteDisplayOfAddress | src/components/lead-card.tsx:140 | either scheme, an optional "www." and an optional trailing "/" around a host and path display as the bare host and path |
| LeadCard.WebsiteDisplayNoScheme | src/components/lead-card.tsx:140 | an address without a scheme is shown with only its trailing "/" removed |
| LeadCard.OneSlashRemoved | src/components/lead-card.tsx:140 | only one trailing slash is removed |
| LeadCard.PerformanceColor | src/components/lead-card.tsx:152 | green iff performance ≥ 50 |
| LeadCard.EnrichmentDisplay | src/components/lead-card.tsx:148-164 | no row without enrichment data; the score, with green iff ≥ 50, iff an audit is present; the first email iff the list is non-empty; "No email" iff the list is present and empty |
| LeadCard.EmailOrNote | src/components/lead-card.tsx:155-162 | the first email and "No email" never show together, and one of them shows iff the list is present |
| Navbar.CleanPath | src/components/navbar.tsx:14 | a leading "/et" or "/en" is removed, anything else is kept, and an empty result becomes "/" |
| Navbar.IsSearch | src/components/navbar.tsx:15 | the clean path is "/"; SearchPagesExactly states exactly which paths qualify |
| Navbar.IsDashboard | src/components/navbar.tsx:16 | the clean path is "/dashboard"; DashboardPagesExactly states exactly which paths qualify |
| Navbar.LocalePrefixIgnored | src/components/navbar.tsx:14 | a path and its "/et" or "/en"-prefixed form give the same clean path, for a path that does not itself start with "/et" or "/en" |
| Navbar.PrefixRemovedOnce | src/components/navbar.tsx:14 | only one prefix is removed: "/en/etc" gives "/etc", while "/etc" gives "c" |
| Navbar.SearchPages | src/components/navbar.tsx:15 | examples: the six root spellings are the search page |
| Navbar.DashboardPages | src/components/navbar.tsx:16 | examples: "/dashboard" with either locale or none is the dashboard, and not the search page |
| Navbar.SearchPagesExactly | src/components/navbar.tsx:14-15 | a path is the search page iff it is "", "/", "/et", "/en", "/et/" or "/en/" |
| Navbar.DashboardPagesExactly | src/components/navbar.tsx:14-16 | a path is the dashboard iff it is "/dashboard", "/et/dashboard" or "/en/dashboard" |
| Navbar.RawPrefixMatch | src/components/navbar.tsx:14 | the prefix is matched as raw characters: "/english" gives "glish" |
| Seqs.Take | src/lib/scrape-emails.ts:65 | `slice(0, n)` has length min(length, n) and is a prefix |
| Seqs.Filter | src/app/api/enrich/route.ts:59 | `filter` in order; FilterMembers, FilterSnoc and FilterAll state its properties |
| Seqs.FilterMembers | src/app/api/enrich/route.ts:59 | an element survives `filter` iff it occurs and satisfies the predicate |
| Seqs.FilterAll | src/app/api/enrich/route.ts:59 | a filter every element passes changes nothing |
| Seqs.DedupByKeys | src/app/api/search/cross/route.ts:65-75 | de-duplication by key has distinct keys, the input's keys, and only input elements |
| Seqs.DedupBy | src/app/api/search/cross/route.ts:65-75 | first-occurrence de-duplication by key; DedupByKeys, DedupByKeepsFirst and DedupByOrdered state its properties |
| Seqs.DedupByStep | src/app/api/search/cross/route.ts:70-73 | one `seen` check and push extends the de-duplication of the prefix by one element and keeps `seen` equal to its keys |
| Seqs.DedupByKeepsFirst | src/app/api/search/cross/route.ts:67-74 | each kept element is the first input element with its key |
| Seqs.DedupByOrdered | src/app/api/search/cross/route.ts:67-74 | kept elements are ordered by their keys' first positions |
| Seqs.Dedup | src/lib/scrape-emails.ts:65 | `[...new Set(s)]` has no duplicates and the same members as `s` |
| Seqs.DedupIsDedupById | src/lib/scrape-emails.ts:65 | value de-duplication is de-duplication keyed by the value, so it keeps first occurrences in order |
| Seqs.DedupFilterCommute | src/app/api/enrich/route.ts:36-38 | de-duplicating then filtering equals filtering then de-duplicating |
| Strings.ToLowerIdempotent | src/lib/scrape-emails.ts:38 | lower-casing twice is lower-casing once |
| Strings.ContainsToLower | src/lib/scrape-emails.ts:38 | a substring stays a substring after both are lower-cased |
| Strings.Trim | src/components/search-filters.tsx:58 | `trim()` cuts the text into a whitespace-only head, the result and a whitespace-only tail; the result is empty iff the text is all whitespace, and otherwise neither starts nor ends with whitespace |
| Strings.BeforeFirst | src/app/api/leads/export/route.ts:32 | `split(c)[0]` is a prefix free of `c`, ended by `c` when shorter than the text |
| Strings.NatToStringRoundTrip | src/app/api/leads/export/route.ts:29 | the decimal text of a count reads back as the count |
| Strings.JoinSnoc | src/app/api/leads/export/route.ts:35 | joining one more part appends the separator and the part |
| Strings.JoinAppend | src/app/api/leads/export/route.ts:35 | joining two non-empty runs of parts puts one separator between their joins |

## Left out

- Network I/O: `fetch`, timeouts, user agents and redirects. Pages, Places responses and PageSpeed results are parameters.
- Concurrency: `Promise.allSettled` and `Promise.all` are sequences of outcomes in input order. Completion order does not matter to the code.
- The email regular expression: each page comes with the sequence of its matches. The enrich route's `decodeURIComponent` of the page text happens before matching, so it is covered by taking the matches as given.
- URL parsing: `new URL(websiteUrl).origin` is an optional origin, absent when parsing throws. The favicon host in the lead card is left out, being rendering only.
- `fetchPageSpeed`: floating-point rounding of an external response. The audit is a parameter.
- The text-search route after the request body is built: the Places call, relaying its response or error status, and the 500 path.
- The export's authentication (401 path), its database query and `Date.toISOString`. The export takes the leads as rows in query order, with the timestamp already rendered as text.
- The database layer and the other routes: saving and deleting leads, the photo proxy, the middleware, the layout and the language switcher.
- Rendering: JSX, CSS classes, the DOM `onError` handler, and React's asynchronous `setState`. `SearchFilterState`'s setters assign at once.
- `request.json()` failures and uncaught exceptions of the enrich route. A body without a `places` array is `None` and gets the 400. A JSON body `null` throws at the destructuring of src/app/api/enrich/route.ts:51, and a `null` entry in `places` throws at `p.websiteUri` on line 59; both end in a 500 from the framework, which the model does not distinguish.
- The search panel's two absent-field spellings: `crossMode: null` and an omitted `crossMode` are both `None`. So are omitted `industryId` and `cityName`.
- Case mapping is ASCII-only, and strings are sequences of Unicode scalar values rather than UTF-16 code units. `toLowerCase`/`toUpperCase` of non-ASCII letters is not modelled, and `name[0]` in the lead card is a whole character, where JavaScript would give half of a surrogate pair for a name starting outside the Basic Multilingual Plane. LeadCard.Initial's one-character result rests on both choices. The junk tests are not affected: the email patterns of src/lib/scrape-emails.ts:34 and src/app/api/enrich/route.ts:34 match ASCII characters only, so every address they test is ASCII and ASCII lower-casing is exact for it.
- JavaScript prototype keys: a `primaryType` such as "constructor" would find an inherited member of `TYPE_LABELS`. The model's map has only the fifteen entries.
- The theme ranges in src/lib/brand.ts (70/40) are unused by the scoring code, which uses 60/30. brand.ts is not part of this model.
- Ratings are exact reals. Floating-point behaviour at 3.0 and 4.2 is not modelled.
- LeadsExportRoute.RowFields: field 1 is the `"; "`-join of the emails inside quotes without escaping, as in the code. Nothing is proved about reading it back, because an email containing a quote would break the field.
