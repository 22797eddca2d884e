/** Bulk enrichment (src/app/api/enrich/route.ts): for up to ten places with a
    website, a PageSpeed audit and a single-page email scan. The page fetch and
    the PageSpeed call are outside the model and come in as functions. */
module EnrichRoute {

  import opened Wrappers
  import opened Strings
  import opened Seqs
  import opened AllSettled
  import opened LeadTypes
  import ScrapeEmails

  // ------------------------------------------------------------ email scan

  /** The older junk test: a case-sensitive suffix or substring match. */
  predicate IsEnrichJunk(e: string) {
    EndsWith(e, ".png") || EndsWith(e, ".jpg") || EndsWith(e, ".svg")
    || Contains(e, "wixpress") || Contains(e, "sentry")
  }

  function NotEnrichJunk(e: string): bool {
    !IsEnrichJunk(e)
  }

  /** `scrapeEmails(url)` of the enrich route: de-duplicate the matches, drop
      junk, keep five; a failed or non-ok fetch gives no emails. */
  function EnrichEmails(page: ScrapeEmails.PageFetch): (emails: seq<string>)
    ensures page.Threw? || !page.ok ==> emails == []
    ensures |emails| <= 5 && NoDuplicates(emails)
    ensures forall e :: e in emails ==> page.Responded? && page.ok && e in page.matches && !IsEnrichJunk(e)
  {
    match page
    case Threw => []
    case Responded(ok, matches) =>
      if !ok then []
      else
        var kept := Filter(Dedup(matches), NotEnrichJunk);
        FilterMembers(Dedup(matches), NotEnrichJunk);
        DedupFilterCommute(matches, NotEnrichJunk);
        assert NoDuplicates(kept);
        Take(kept, 5)
  }

  /** De-duplicating before filtering, as the route does, gives the same list
      as filtering first: the five emails are the first five distinct non-junk
      matches. */
  lemma EnrichEmailsFilterFirst(ok: bool, matches: seq<string>)
    requires ok
    ensures EnrichEmails(ScrapeEmails.Responded(ok, matches)) == Take(Dedup(Filter(matches, NotEnrichJunk)), 5)
  {
    DedupFilterCommute(matches, NotEnrichJunk);
  }

  /** A distinct non-junk match is dropped only when five others fill the list. */
  lemma EnrichEmailsComplete(matches: seq<string>, e: string)
    requires e in matches && !IsEnrichJunk(e)
    ensures e in EnrichEmails(ScrapeEmails.Responded(true, matches))
      || |EnrichEmails(ScrapeEmails.Responded(true, matches))| == 5
  {
    var kept := Filter(Dedup(matches), NotEnrichJunk);
    FilterMembers(Dedup(matches), NotEnrichJunk);
    assert e in kept;
    if |kept| <= 5 {
      assert Take(kept, 5) == kept;
    }
  }

  /** Whatever the enrich route calls junk, the library scan calls junk too. */
  lemma EnrichJunkIsJunk(e: string)
    requires IsEnrichJunk(e)
    ensures ScrapeEmails.IsJunk(e)
  {
    if EndsWith(e, ".png") || EndsWith(e, ".jpg") || EndsWith(e, ".svg") {
      ImageSuffixIsJunk(e);
    } else {
      VendorIsJunk(e);
    }
  }

  lemma ImageSuffixIsJunk(e: string)
    requires EndsWith(e, ".png") || EndsWith(e, ".jpg") || EndsWith(e, ".svg")
    ensures ScrapeEmails.IsJunk(e)
  {
    if EndsWith(e, ".png") {
      SuffixIsJunk(e, ".png");
    } else if EndsWith(e, ".jpg") {
      SuffixIsJunk(e, ".jpg");
    } else {
      SuffixIsJunk(e, ".svg");
    }
  }

  lemma VendorIsJunk(e: string)
    requires Contains(e, "wixpress") || Contains(e, "sentry")
    ensures ScrapeEmails.IsJunk(e)
  {
    if Contains(e, "wixpress") {
      PatternIsJunk(e, "wixpress");
    } else {
      PatternIsJunk(e, "sentry");
    }
  }

  lemma SuffixIsJunk(e: string, p: string)
    requires p in ScrapeEmails.JUNK_PATTERNS && IsLowerCase(p)
    requires EndsWith(e, p)
    ensures ScrapeEmails.IsJunk(e)
  {
    EndsWithContains(e, p);
    PatternIsJunk(e, p);
  }

  /** Containing a lower-case junk pattern makes an address junk for the
      library scan, whatever the address's case. */
  lemma PatternIsJunk(e: string, p: string)
    requires p in ScrapeEmails.JUNK_PATTERNS && IsLowerCase(p)
    requires Contains(e, p)
    ensures ScrapeEmails.IsJunk(e)
  {
    ContainsToLower(e, p);
    LowerCaseUnchanged(p);
  }

  /** The converse fails: the library's test ignores case, so an upper-case
      image suffix is junk there and not here. */
  lemma JunkTestsDifferOnCase()
    ensures ScrapeEmails.IsJunk("info@acme.PNG") && !IsEnrichJunk("info@acme.PNG")
  {
    var e := "info@acme.PNG";
    UpperSuffixIsJunk();
    assert !EndsWith(e, ".png") && !EndsWith(e, ".jpg") && !EndsWith(e, ".svg");
    NotEnrichJunkWithout(e, 'w', 's');
  }

  /** The library's test also rejects placeholder domains; this one does not. */
  lemma JunkTestsDifferOnDomain()
    ensures ScrapeEmails.IsJunk("user@example.com") && !IsEnrichJunk("user@example.com")
  {
    var e := "user@example.com";
    PlaceholderIsJunk();
    assert !EndsWith(e, ".png") && !EndsWith(e, ".jpg") && !EndsWith(e, ".svg");
    NotEnrichJunkWithout(e, 'w', 'y');
  }

  lemma UpperSuffixIsJunk()
    ensures ScrapeEmails.IsJunk("info@acme.PNG")
  {
    var e := "info@acme.PNG";
    assert ToLower(e) == "info@acme.png";
    ContainsAt(ToLower(e), ".png", 9);
    assert ".png" in ScrapeEmails.JUNK_PATTERNS;
  }

  lemma PlaceholderIsJunk()
    ensures ScrapeEmails.IsJunk("user@example.com")
  {
    var e := "user@example.com";
    assert ToLower(e) == e;
    ContainsAt(ToLower(e), "example.com", 5);
    assert "example.com" in ScrapeEmails.JUNK_PATTERNS;
  }

  /** An address without the three image suffixes that lacks a letter of
      "wixpress" and a letter of "sentry" passes the enrich route's test. */
  lemma NotEnrichJunkWithout(e: string, w: char, s: char)
    requires !EndsWith(e, ".png") && !EndsWith(e, ".jpg") && !EndsWith(e, ".svg")
    requires w in "wixpress" && w !in e
    requires s in "sentry" && s !in e
    ensures !IsEnrichJunk(e)
  {
    MissingCharNotContained(e, "wixpress", w);
    MissingCharNotContained(e, "sentry", s);
  }

  lemma MissingCharNotContained(s: string, sub: string, c: char)
    requires c in sub && c !in s
    ensures !Contains(s, sub)
  {
    if Contains(s, sub) {
      ContainsChars(s, sub, c);
    }
  }

  // ------------------------------------------------------------ POST

  /** One entry of the request's `places` array; `websiteUri` may be absent. */
  datatype EnrichRequest = EnrichRequest(placeId: string, websiteUri: Option<string>)

  /** One entry of the response's `enriched` array. */
  datatype Enriched = Enriched(placeId: string, pageSpeed: Option<PageSpeedResult>, emails: seq<string>)

  function HasWebsite(p: EnrichRequest): bool {
    Truthy(p.websiteUri)
  }

  /** `places.filter(p => p.websiteUri).slice(0, 10)`. */
  function Batch(places: seq<EnrichRequest>): (batch: seq<EnrichRequest>)
    ensures |batch| <= 10
    ensures forall p :: p in batch ==> p in places && Truthy(p.websiteUri)
  {
    FilterMembers(places, HasWebsite);
    Take(Filter(places, HasWebsite), 10)
  }

  /** Places with a website are left out of the batch only past the tenth. */
  lemma BatchComplete(places: seq<EnrichRequest>, p: EnrichRequest)
    requires p in places && Truthy(p.websiteUri)
    ensures p in Batch(places) || |Batch(places)| == 10
  {
    var f := Filter(places, HasWebsite);
    FilterMembers(places, HasWebsite);
    if |f| <= 10 {
      assert Take(f, 10) == f;
    }
  }

  /** The batch keeps input order: it is a prefix of the places with a
      website, and when every place has one and there are at most ten it is
      the whole input. */
  lemma BatchOrder(places: seq<EnrichRequest>)
    ensures Batch(places) == Filter(places, HasWebsite)[..|Batch(places)|]
    ensures (forall i :: 0 <= i < |places| ==> Truthy(places[i].websiteUri)) && |places| <= 10
      ==> Batch(places) == places
  {
    if (forall i :: 0 <= i < |places| ==> Truthy(places[i].websiteUri)) && |places| <= 10 {
      FilterAll(places, HasWebsite);
    }
  }

  /** The work each batch entry does; it never rejects, as both calls catch
      their own failures. */
  function EnrichOne(p: EnrichRequest, pageSpeed: string -> Option<PageSpeedResult>,
                     fetchPage: string -> ScrapeEmails.PageFetch): Enriched
  {
    var url := OrEmpty(p.websiteUri);
    Enriched(p.placeId, pageSpeed(url), EnrichEmails(fetchPage(url)))
  }

  /** `POST /api/enrich`. `places` is `None` when the body has no `places`
      array. */
  function EnrichPost(places: Option<seq<EnrichRequest>>, pageSpeed: string -> Option<PageSpeedResult>,
                      fetchPage: string -> ScrapeEmails.PageFetch): (r: Result<seq<Enriched>, HttpError>)
    ensures r.Failure? <==> places.None? || |places.value| == 0
    ensures r.Failure? ==> r.error == HttpError(400, "places array required")
    ensures r.Success? ==>
      var batch := Batch(places.value);
      |r.value| == |batch| &&
      forall i :: 0 <= i < |batch| ==>
        r.value[i].placeId == batch[i].placeId &&
        r.value[i].pageSpeed == pageSpeed(batch[i].websiteUri.value) &&
        r.value[i].emails == EnrichEmails(fetchPage(batch[i].websiteUri.value))
  {
    if places.None? || |places.value| == 0 then
      Failure(HttpError(400, "places array required"))
    else
      var batch := Batch(places.value);
      var results := seq(|batch|, i requires 0 <= i < |batch| => Fulfilled(EnrichOne(batch[i], pageSpeed, fetchPage)));
      FulfilledValuesAll(results);
      Success(FulfilledValues(results))
  }

  /** A request whose places all lack a website succeeds with no entries. */
  lemma NoWebsiteNoEntries(places: seq<EnrichRequest>, pageSpeed: string -> Option<PageSpeedResult>,
                           fetchPage: string -> ScrapeEmails.PageFetch)
    requires |places| > 0
    requires forall i :: 0 <= i < |places| ==> !Truthy(places[i].websiteUri)
    ensures EnrichPost(Some(places), pageSpeed, fetchPage) == Success([])
  {
    FilterMembers(places, HasWebsite);
  }
}
