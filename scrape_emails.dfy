/** Email harvesting for one website (src/lib/scrape-emails.ts): the homepage
    and eight contact-page variants are fetched, junk addresses are dropped,
    and the per-page lists are merged in path order, de-duplicated and capped.
    Fetching a page and matching the email pattern are outside the model: a
    page is given as its fetch outcome with the pattern's matches. */
module ScrapeEmails {

  import opened Wrappers
  import opened Strings
  import opened Seqs
  import opened AllSettled

  /** Homepage first, then Estonian and English contact/about paths. */
  const CONTACT_PATHS: seq<string> := [
    "", "/kontakt", "/kontaktid", "/contact", "/contact-us", "/meist", "/about", "/about-us", "/info"
  ]

  /** Substrings that mark an address as an asset name, vendor noise or a
      placeholder/infrastructure domain. */
  const JUNK_PATTERNS: seq<string> := [
    ".png", ".jpg", ".svg", ".webp", ".gif", ".css", ".js",
    "wixpress", "sentry", "example.com", "email.com",
    "wordpress.org", "w3.org", "schema.org", "googleapis.com",
    "gravatar.com", "creativecommons.org"
  ]

  /** What fetching one page gave: a response (its `ok` flag and the email
      pattern's matches in its text, in order) or a thrown error (network
      failure, timeout). */
  datatype PageFetch = Responded(ok: bool, matches: seq<string>) | Threw

  /** An address is junk when its lower-cased form contains a junk pattern. */
  predicate IsJunk(email: string) {
    exists p :: p in JUNK_PATTERNS && Contains(ToLower(email), p)
  }

  function NotJunk(email: string): bool {
    !IsJunk(email)
  }

  /** The junk test ignores letter case. */
  lemma JunkIgnoresCase(email: string)
    ensures IsJunk(ToLower(email)) <==> IsJunk(email)
  {
    ToLowerIdempotent(email);
  }

  /** `fetchPageEmails`: the non-junk matches of a page that answered ok, in
      order; nothing from a failed or non-ok fetch. */
  function FetchPageEmails(page: PageFetch): (emails: seq<string>)
    ensures page.Threw? || !page.ok ==> emails == []
    ensures page.Responded? && page.ok ==> emails == Filter(page.matches, NotJunk)
    ensures forall e :: e in emails <==> page.Responded? && page.ok && e in page.matches && !IsJunk(e)
  {
    match page
    case Threw => []
    case Responded(ok, matches) =>
      FilterMembers(matches, NotJunk);
      if !ok then [] else Filter(matches, NotJunk)
  }

  /** `CONTACT_PATHS.map(path => origin + path)`. */
  function CandidateUrls(origin: string): (urls: seq<string>)
    ensures |urls| == |CONTACT_PATHS| == 9
    ensures urls[0] == origin
    ensures forall i :: 0 <= i < |urls| ==> urls[i] == origin + CONTACT_PATHS[i]
  {
    seq(|CONTACT_PATHS|, i requires 0 <= i < |CONTACT_PATHS| => origin + CONTACT_PATHS[i])
  }

  /** The settled results of fetching every candidate page. The page function
      never rejects: every failure is caught and becomes an empty list. */
  function PageResults(urls: seq<string>, fetchPage: string -> PageFetch): (rs: seq<Settled<seq<string>>>)
    ensures |rs| == |urls|
    ensures forall i :: 0 <= i < |urls| ==> rs[i] == Fulfilled(FetchPageEmails(fetchPage(urls[i])))
  {
    seq(|urls|, i requires 0 <= i < |urls| => Fulfilled(FetchPageEmails(fetchPage(urls[i]))))
  }

  /** The emails `scrapeEmails(websiteUrl)` returns, where `origin` is the
      URL's origin, or `None` when the URL does not parse. */
  function ScrapedEmails(origin: Option<string>, fetchPage: string -> PageFetch): seq<string> {
    match origin
    case None => []
    case Some(o) => Take(Dedup(MergeFulfilled(PageResults(CandidateUrls(o), fetchPage))), 10)
  }

  /** `scrapeEmails`: fetch all candidate pages, append each fulfilled page's
      list to `allEmails` in path order, then de-duplicate and keep ten. */
  method ScrapeEmails(origin: Option<string>, fetchPage: string -> PageFetch) returns (emails: seq<string>)
    ensures emails == ScrapedEmails(origin, fetchPage)
    ensures origin.None? ==> emails == []
    ensures |emails| <= 10 && NoDuplicates(emails)
    ensures forall e :: e in emails ==> !IsJunk(e)
    ensures forall e :: e in emails ==>
      exists i :: 0 <= i < |CONTACT_PATHS| && FetchesEmail(fetchPage(origin.value + CONTACT_PATHS[i]), e)
  {
    if origin.None? {
      return [];
    }
    var urls := CandidateUrls(origin.value);
    var results := PageResults(urls, fetchPage);

    var allEmails: seq<string> := [];
    var i := 0;
    while i < |results|
      invariant 0 <= i <= |results|
      invariant allEmails == MergeFulfilled(results[..i])
    {
      var result := results[i];
      MergeFulfilledSnoc(results[..i], result);
      assert results[..i + 1] == results[..i] + [result];
      if result.Fulfilled? {
        allEmails := allEmails + result.value;
      }
      i := i + 1;
    }
    assert results[..|results|] == results;

    emails := Take(Dedup(allEmails), 10);
    ScrapedFrom(origin.value, fetchPage);
  }

  /** A page answered ok and the address is one of its non-junk matches. */
  predicate FetchesEmail(page: PageFetch, e: string) {
    page.Responded? && page.ok && e in page.matches && !IsJunk(e)
  }

  /** Every address the scan returns is a non-junk match of some candidate
      page that answered ok. */
  lemma ScrapedFrom(origin: string, fetchPage: string -> PageFetch)
    ensures forall e :: e in ScrapedEmails(Some(origin), fetchPage) ==>
      !IsJunk(e) && exists i :: 0 <= i < |CONTACT_PATHS| && FetchesEmail(fetchPage(origin + CONTACT_PATHS[i]), e)
  {
    var urls := CandidateUrls(origin);
    var rs := PageResults(urls, fetchPage);
    var merged := MergeFulfilled(rs);
    forall e | e in ScrapedEmails(Some(origin), fetchPage)
      ensures !IsJunk(e) && exists i :: 0 <= i < |CONTACT_PATHS| && FetchesEmail(fetchPage(origin + CONTACT_PATHS[i]), e)
    {
      assert e in Dedup(merged);
      MergeFulfilledMembers(rs, e);
      var i :| 0 <= i < |rs| && rs[i].Fulfilled? && e in rs[i].value;
      assert FetchesEmail(fetchPage(urls[i]), e);
    }
  }

  /** Every distinct address the pages yield is returned, unless ten
      addresses that first occur earlier fill the list. */
  lemma ScrapedKeepsAll(origin: string, fetchPage: string -> PageFetch, e: string)
    requires exists i :: 0 <= i < |CONTACT_PATHS| && FetchesEmail(fetchPage(origin + CONTACT_PATHS[i]), e)
    ensures e in ScrapedEmails(Some(origin), fetchPage) || |ScrapedEmails(Some(origin), fetchPage)| == 10
  {
    var urls := CandidateUrls(origin);
    var rs := PageResults(urls, fetchPage);
    var i :| 0 <= i < |CONTACT_PATHS| && FetchesEmail(fetchPage(origin + CONTACT_PATHS[i]), e);
    assert e in rs[i].value;
    MergeFulfilledMembers(rs, e);
    var d := Dedup(MergeFulfilled(rs));
    assert e in d;
    if |d| <= 10 {
      assert Take(d, 10) == d;
    }
  }
}
