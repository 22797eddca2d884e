/** The values a lead card derives from a place before rendering
    (src/components/lead-card.tsx): the type badge, the initial shown when
    there is no favicon, whether a save is in flight, the shortened website
    address and what is shown of the enrichment data. */
module LeadCard {

  import opened Wrappers
  import opened Strings
  import opened LeadTypes
  import Scoring

  /** Estonian labels for the trades the card knows by name. */
  const TYPE_LABELS: map<string, string> := map[
    "general_contractor" := "Ehitus",
    "electrician" := "Elektrik",
    "plumber" := "Torumees",
    "car_repair" := "Autoteenindus",
    "beauty_salon" := "Ilusalong",
    "hair_care" := "Juuksur",
    "dentist" := "Hambaravi",
    "accounting" := "Raamatupidamine",
    "lawyer" := "Advokaat",
    "real_estate_agency" := "Kinnisvara",
    "veterinary_care" := "Veterinaaria",
    "cleaning_service" := "Koristus",
    "moving_company" := "Kolimine",
    "locksmith" := "Lukksepp",
    "spa" := "Spa"
  ]

  /** Every labelled type is one of the target trades of the scoring. */
  lemma TypeLabelsAreTargetTypes()
    ensures forall k :: k in TYPE_LABELS ==> k in Scoring.TARGET_TYPES
  {
    var t := Scoring.TARGET_TYPES;
    assert t[0] == "general_contractor" && t[1] == "electrician" && t[2] == "plumber";
    assert t[5] == "moving_company" && t[6] == "locksmith" && t[8] == "accounting";
    assert t[9] == "lawyer" && t[10] == "real_estate_agency" && t[12] == "car_repair";
    assert t[14] == "veterinary_care" && t[15] == "dentist" && t[17] == "beauty_salon";
    assert t[18] == "hair_care" && t[19] == "spa" && t[24] == "cleaning_service";
  }

  /** Every label is a non-empty word, and the empty type has no label. */
  lemma TypeLabelsNonEmpty()
    ensures forall k :: k in TYPE_LABELS ==> TYPE_LABELS[k] != ""
    ensures "" !in TYPE_LABELS
  {
  }

  // ------------------------------------------------------------ type badge

  function DisplayText(o: Option<LocalizedText>): string {
    match o
    case None => ""
    case Some(t) => t.text
  }

  /** `TYPE_LABELS[primaryType || ""] || primaryTypeDisplayName?.text ||
      primaryType || ""`: the Estonian label of a known type, else the
      provider's display name of the type, else the raw type. */
  function TypeBadge(place: Place): (badge: string)
    ensures OrEmpty(place.primaryType) in TYPE_LABELS ==> badge == TYPE_LABELS[OrEmpty(place.primaryType)]
    ensures OrEmpty(place.primaryType) !in TYPE_LABELS && DisplayText(place.primaryTypeDisplayName) != "" ==>
      badge == DisplayText(place.primaryTypeDisplayName)
    ensures OrEmpty(place.primaryType) !in TYPE_LABELS && DisplayText(place.primaryTypeDisplayName) == "" ==>
      badge == OrEmpty(place.primaryType)
  {
    var key := OrEmpty(place.primaryType);
    var known := if key in TYPE_LABELS then TYPE_LABELS[key] else "";
    if known != "" then known
    else if DisplayText(place.primaryTypeDisplayName) != "" then DisplayText(place.primaryTypeDisplayName)
    else key
  }

  /** The badge is shown (non-empty) exactly when the place has a primary
      type or a display name for it. */
  lemma TypeBadgeShownIff(place: Place)
    ensures TypeBadge(place) != "" <==>
      OrEmpty(place.primaryType) != "" || DisplayText(place.primaryTypeDisplayName) != ""
  {
    TypeLabelsNonEmpty();
  }

  /** A known type is always shown by its Estonian label, whatever display
      name the provider sent. */
  lemma KnownTypeUsesLabel(place: Place, displayName: Option<LocalizedText>)
    requires OrEmpty(place.primaryType) in TYPE_LABELS
    ensures TypeBadge(place.(primaryTypeDisplayName := displayName)) == TypeBadge(place)
  {
  }

  // ------------------------------------------------------------ initial

  /** `(displayName?.text || "?")[0].toUpperCase()`. */
  function Initial(place: Place): (r: string)
    ensures |r| == 1
    ensures DisplayText(place.displayName) == "" ==> r == "?"
    ensures DisplayText(place.displayName) != "" ==> r[0] == UpperChar(DisplayText(place.displayName)[0])
  {
    var name := DisplayText(place.displayName);
    var shown := if name != "" then name else "?";
    [UpperChar(shown[0])]
  }

  /** A name starting with a lower-case letter gets that letter in upper case,
      and lower-casing the initial gives the letter back. */
  lemma InitialOfLowerCaseName(place: Place)
    requires DisplayText(place.displayName) != ""
    requires 'a' <= DisplayText(place.displayName)[0] <= 'z'
    ensures 'A' <= Initial(place)[0] <= 'Z'
    ensures LowerChar(Initial(place)[0]) == DisplayText(place.displayName)[0]
  {
  }

  /** The initial never is a lower-case letter. */
  lemma InitialNotLowerCase(place: Place)
    ensures !('a' <= Initial(place)[0] <= 'z')
  {
  }

  // ------------------------------------------------------------ saving

  /** `savingId === place.id`. */
  predicate IsSaving(savingId: Option<string>, place: Place) {
    savingId == Some(place.id)
  }

  /** Among cards of places with distinct ids, at most one shows a save in
      flight, and none does when no save is running. */
  lemma AtMostOneSaving(savingId: Option<string>, places: seq<Place>)
    requires forall i, j :: 0 <= i < j < |places| ==> places[i].id != places[j].id
    ensures forall i, j ::
      0 <= i < |places| && 0 <= j < |places| && IsSaving(savingId, places[i]) && IsSaving(savingId, places[j]) ==> i == j
    ensures savingId.None? ==> forall i :: 0 <= i < |places| ==> !IsSaving(savingId, places[i])
  {
  }

  // ------------------------------------------------------------ website

  /** `replace(/^https?:\/\/(www\.)?/, "")`: a leading scheme is removed
      together with a `www.` right after it. */
  function StripScheme(uri: string): (r: string)
    ensures |r| <= |uri| && r == uri[|uri| - |r|..]
    ensures !StartsWith(uri, "http://") && !StartsWith(uri, "https://") ==> r == uri
  {
    var rest :=
      if StartsWith(uri, "https://") then uri[8..]
      else if StartsWith(uri, "http://") then uri[7..]
      else uri;
    if rest != uri && StartsWith(rest, "www.") then rest[4..] else rest
  }

  /** `replace(/\/$/, "")`: one trailing slash is removed. */
  function StripTrailingSlash(s: string): (r: string)
    ensures EndsWith(s, "/") ==> r + "/" == s
    ensures !EndsWith(s, "/") ==> r == s
  {
    if EndsWith(s, "/") then s[..|s| - 1] else s
  }

  /** The website address as the card shows it. */
  function WebsiteDisplay(uri: string): string {
    StripTrailingSlash(StripScheme(uri))
  }

  /** A host and path written with either scheme, with or without `www.`
      and with or without one trailing slash, is shown as the bare host and
      path. */
  lemma WebsiteDisplayOfAddress(scheme: string, www: string, h: string, slash: string)
    requires scheme == "http://" || scheme == "https://"
    requires www == "" || www == "www."
    requires slash == "" || slash == "/"
    requires www == "www." || !StartsWith(h, "www.")
    requires !EndsWith(h, "/")
    ensures WebsiteDisplay(scheme + www + h + slash) == h
  {
    assert scheme + www + h + slash == scheme + (www + (h + slash));
    StripSchemeOf(scheme, www + (h + slash));
    if www == "www." {
      assert StartsWith(www + (h + slash), "www.") by { assert (www + (h + slash))[..4] == www; }
      assert (www + (h + slash))[4..] == h + slash;
    } else {
      assert www + (h + slash) == h + slash;
      NoWwwAfterSlash(h, slash);
    }
    assert StripScheme(scheme + www + h + slash) == h + slash;
    StripSlashOf(h, slash);
  }

  /** The scheme is removed, then a `www.` right after it. */
  lemma StripSchemeOf(scheme: string, rest: string)
    requires scheme == "http://" || scheme == "https://"
    ensures StripScheme(scheme + rest) == if StartsWith(rest, "www.") then rest[4..] else rest
  {
    var uri := scheme + rest;
    assert uri[..|scheme|] == scheme;
    if scheme == "https://" {
      assert uri[8..] == rest;
    } else {
      assert uri[4] == ':';
      assert uri[7..] == rest;
    }
  }

  lemma NoWwwAfterSlash(h: string, slash: string)
    requires slash == "" || slash == "/"
    requires !StartsWith(h, "www.") && !EndsWith(h, "/")
    ensures !StartsWith(h + slash, "www.")
  {
    if |h| >= 4 {
      assert (h + slash)[..4] == h[..4];
    } else if |h + slash| == 4 {
      assert (h + slash)[3] == '/';
    }
  }

  lemma StripSlashOf(h: string, slash: string)
    requires slash == "" || slash == "/"
    requires !EndsWith(h, "/")
    ensures StripTrailingSlash(h + slash) == h
  {
    if slash == "/" {
      assert (h + slash)[|h|..] == "/";
      assert (h + slash)[..|h|] == h;
    } else {
      assert h + slash == h;
    }
  }

  /** An address without a scheme loses only its trailing slash, if any. */
  lemma WebsiteDisplayNoScheme(uri: string)
    requires !StartsWith(uri, "http://") && !StartsWith(uri, "https://")
    ensures WebsiteDisplay(uri) == StripTrailingSlash(uri)
  {
  }

  /** Only one trailing slash is removed. */
  lemma OneSlashRemoved()
    ensures WebsiteDisplay("https://example.com//") == "example.com/"
  {
    assert "https://example.com//" == "https://" + "example.com//";
    StripSchemeOf("https://", "example.com//");
    assert !StartsWith("example.com//", "www.") by { assert "example.com//"[0] == 'e'; }
    assert EndsWith("example.com//", "/") by { assert "example.com//"[12..] == "/"; }
    assert "example.com//"[..12] == "example.com/";
  }

  // ------------------------------------------------------------ enrichment

  datatype Color = Green | Red

  /** Enrichment data handed to the card. */
  datatype Enrichment = Enrichment(pageSpeed: Option<PageSpeedResult>, emails: Option<seq<string>>)

  /** What the enrichment row shows: the performance score with its colour,
      the first email, and the "No email" note. */
  datatype EnrichmentRow = EnrichmentRow(performance: Option<(int, Color)>, email: Option<string>, noEmail: bool)

  function PerformanceColor(performance: int): (c: Color)
    ensures c == Green <==> performance >= 50
  {
    if performance >= 50 then Green else Red
  }

  /** The enrichment row of the card, absent without enrichment data. */
  function EnrichmentDisplay(e: Option<Enrichment>): (row: Option<EnrichmentRow>)
    ensures row.None? <==> e.None?
    ensures row.Some? ==> (row.value.performance.Some? <==> e.value.pageSpeed.Some?)
    ensures row.Some? && row.value.performance.Some? ==>
      row.value.performance.value.0 == e.value.pageSpeed.value.performance &&
      (row.value.performance.value.1 == Green <==> e.value.pageSpeed.value.performance >= 50)
    ensures row.Some? ==> (row.value.email.Some? <==> e.value.emails.Some? && |e.value.emails.value| > 0)
    ensures row.Some? && row.value.email.Some? ==> row.value.email.value == e.value.emails.value[0]
    ensures row.Some? ==> (row.value.noEmail <==> e.value.emails == Some([]))
  {
    match e
    case None => None
    case Some(en) =>
      var perf := match en.pageSpeed
        case None => None
        case Some(ps) => Some((ps.performance, PerformanceColor(ps.performance)));
      var emails := en.emails.GetOr([]);
      Some(EnrichmentRow(
        perf,
        if en.emails.Some? && |emails| > 0 then Some(emails[0]) else None,
        en.emails.Some? && |emails| == 0))
  }

  /** The first email and the "No email" note are never shown together, and
      when the emails are known one of them is shown. */
  lemma EmailOrNote(e: Enrichment)
    ensures var row := EnrichmentDisplay(Some(e)).value;
      !(row.email.Some? && row.noEmail) &&
      (e.emails.Some? ==> row.email.Some? || row.noEmail) &&
      (e.emails.None? ==> row.email.None? && !row.noEmail)
  {
  }
}
