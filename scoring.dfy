/** The lead scoring engine (src/lib/scoring.ts): five additive factors over a
    business record whose fields may be absent, and the Hot/Warm/Cold
    presentation of the total. */
module Scoring {

  import opened Wrappers
  import opened Strings
  import opened LeadTypes

  /** Place types that count as a good service-business fit. */
  const TARGET_TYPES: seq<string> := [
    "general_contractor", "electrician", "plumber", "roofing_contractor",
    "painter", "moving_company", "locksmith", "hvac_contractor",
    "accounting", "lawyer", "real_estate_agency", "insurance_agency",
    "car_repair", "car_wash", "veterinary_care", "dentist",
    "physiotherapist", "beauty_salon", "hair_care", "spa",
    "laundry", "storage", "travel_agency", "pet_store",
    "cleaning_service"
  ]

  // ---------------------------------------------------------------- inputs

  /** `place.photos?.length ?? 0`. */
  function PhotoCount(place: Place): nat {
    match place.photos
    case Some(ps) => |ps|
    case None => 0
  }

  /** `place.rating ?? 0`. */
  function Rating(place: Place): real {
    place.rating.GetOr(0.0)
  }

  /** `place.userRatingCount ?? 0`. */
  function ReviewCount(place: Place): int {
    place.userRatingCount.GetOr(0)
  }

  predicate HasWebsite(place: Place) {
    Truthy(place.websiteUri)
  }

  predicate HasPhone(place: Place) {
    Truthy(place.nationalPhoneNumber)
  }

  /** `types.some(t => TARGET_TYPES.includes(t))`. */
  predicate SomeTargetType(types: seq<string>) {
    exists t :: t in types && t in TARGET_TYPES
  }

  /** The primary type, or any listed type, is a target trade. */
  predicate IsTargetBusiness(place: Place) {
    OrEmpty(place.primaryType) in TARGET_TYPES || SomeTargetType(place.types.GetOr([]))
  }

  // ---------------------------------------------------------------- factors

  /** Points for the number of photos: an inverted curve that favours sparse
      but existing profiles. */
  function PhotoPoints(photoCount: nat): (pts: int)
    ensures pts == 0 <==> photoCount == 0 || photoCount >= 6
    ensures 1 <= photoCount <= 2 <==> pts == 10
    ensures 3 <= photoCount <= 5 <==> pts == 5
  {
    if photoCount == 0 then 0
    else if photoCount <= 2 then 10
    else if photoCount <= 5 then 5
    else 0
  }

  /** Points for the rating once the business has reviews: the 3.0..4.2 sweet
      spot, or a low but non-zero rating. */
  function RatingPoints(rating: real): (pts: int)
    ensures pts == 15 <==> 3.0 <= rating <= 4.2
    ensures pts == 5 <==> 0.0 < rating < 3.0
    ensures pts == 0 <==> rating <= 0.0 || rating > 4.2
  {
    if 3.0 <= rating <= 4.2 then 15 else if 0.0 < rating < 3.0 then 5 else 0
  }

  /** Points for the number of reviews: fewer reviews, more opportunity. */
  function ReviewCountPoints(count: int): (pts: int)
    ensures pts == 10 <==> 1 <= count <= 15
    ensures pts == 5 <==> 16 <= count <= 30
    ensures pts == 0 <==> count < 1 || count > 30
  {
    if 1 <= count <= 15 then 10 else if 16 <= count <= 30 then 5 else 0
  }

  /** 15 points for any website; the source's comment promises up to 25. */
  function WebPresence(place: Place): int {
    if HasWebsite(place) then 15 else 0
  }

  /** The photo bucket, plus 5 each for missing opening hours, a missing
      editorial summary, and a phone number on a profile with at most 3 photos. */
  function ProfileCompleteness(place: Place): (pts: int)
    ensures 0 <= pts <= 25
  {
    PhotoPoints(PhotoCount(place))
    + (if place.regularOpeningHours.None? then 5 else 0)
    + (if place.editorialSummary.None? then 5 else 0)
    + (if HasPhone(place) && PhotoCount(place) <= 3 then 5 else 0)
  }

  /** Zero for a business without reviews, whatever its rating; otherwise the
      rating points plus the review-count points. */
  function ReviewHealth(place: Place): (pts: int)
    ensures 0 <= pts <= 25
    ensures ReviewCount(place) == 0 ==> pts == 0
  {
    if ReviewCount(place) == 0 then 0
    else RatingPoints(Rating(place)) + ReviewCountPoints(ReviewCount(place))
  }

  /** 5 for a phone, 10 for a website. */
  function Contactability(place: Place): int {
    (if HasPhone(place) then 5 else 0) + (if HasWebsite(place) then 10 else 0)
  }

  /** 5 for a pure service-area business, 5 for a target trade. */
  function ServiceFit(place: Place): int {
    (if place.pureServiceAreaBusiness == Some(true) then 5 else 0) + (if IsTargetBusiness(place) then 5 else 0)
  }

  /** The breakdown the engine must produce: each factor, and their sum. */
  function LeadScore(place: Place): LeadScoreBreakdown {
    var w, p, r, c, s := WebPresence(place), ProfileCompleteness(place), ReviewHealth(place),
                         Contactability(place), ServiceFit(place);
    LeadScoreBreakdown(w, p, r, c, s, w + p + r + c + s)
  }

  function Min(a: int, b: int): int {
    if a < b then a else b
  }

  /** `calculateLeadScore`: five accumulators updated factor by factor, each
      then clamped with `Math.min` to the factor's stated maximum. */
  method CalculateLeadScore(place: Place) returns (score: LeadScoreBreakdown)
    ensures score == LeadScore(place)
    ensures score.total == score.webPresence + score.profileCompleteness + score.reviewHealth
                           + score.contactability + score.serviceFit
    ensures 0 <= score.total <= 90
  {
    var webPresence := 0;
    var profileCompleteness := 0;
    var reviewHealth := 0;
    var contactability := 0;
    var serviceFit := 0;

    // Factor 1: web presence
    if Truthy(place.websiteUri) {
      webPresence := 15;
    }

    assert webPresence == WebPresence(place);

    // Factor 2: profile completeness
    var photoCount := PhotoCount(place);
    if photoCount == 0 {
      profileCompleteness := profileCompleteness + 0;
    } else if photoCount <= 2 {
      profileCompleteness := profileCompleteness + 10;
    } else if photoCount <= 5 {
      profileCompleteness := profileCompleteness + 5;
    }
    if place.regularOpeningHours.None? {
      profileCompleteness := profileCompleteness + 5;
    }
    if place.editorialSummary.None? {
      profileCompleteness := profileCompleteness + 5;
    }
    if Truthy(place.nationalPhoneNumber) && photoCount <= 3 {
      profileCompleteness := profileCompleteness + 5;
    }
    assert profileCompleteness == ProfileCompleteness(place);
    profileCompleteness := Min(profileCompleteness, 25);
    assert profileCompleteness == ProfileCompleteness(place);

    // Factor 3: review health
    var rating := place.rating.GetOr(0.0);
    var reviewCount := place.userRatingCount.GetOr(0);
    if reviewCount == 0 {
      reviewHealth := 0;
    } else {
      if rating >= 3.0 && rating <= 4.2 {
        reviewHealth := reviewHealth + 15;
      } else if rating < 3.0 && rating > 0.0 {
        reviewHealth := reviewHealth + 5;
      }
      if reviewCount >= 1 && reviewCount <= 15 {
        reviewHealth := reviewHealth + 10;
      } else if reviewCount >= 16 && reviewCount <= 30 {
        reviewHealth := reviewHealth + 5;
      }
    }
    assert reviewHealth == ReviewHealth(place);
    reviewHealth := Min(reviewHealth, 25);
    assert reviewHealth == ReviewHealth(place);

    // Factor 4: contactability
    if Truthy(place.nationalPhoneNumber) {
      contactability := contactability + 5;
    }
    if Truthy(place.websiteUri) {
      contactability := contactability + 10;
    }
    assert contactability == Contactability(place);
    contactability := Min(contactability, 15);
    assert contactability == Contactability(place);

    // Factor 5: service fit
    if place.pureServiceAreaBusiness == Some(true) {
      serviceFit := serviceFit + 5;
    }
    var types := place.types.GetOr([]);
    var primaryType := OrEmpty(place.primaryType);
    if primaryType in TARGET_TYPES || SomeTargetType(types) {
      serviceFit := serviceFit + 5;
    }
    assert serviceFit == ServiceFit(place);
    serviceFit := Min(serviceFit, 10);
    assert serviceFit == ServiceFit(place);

    var total := webPresence + profileCompleteness + reviewHealth + contactability + serviceFit;
    score := LeadScoreBreakdown(webPresence, profileCompleteness, reviewHealth, contactability, serviceFit, total);
    assert score == LeadScore(place);
    ScoreBounds(place);
  }

  // ---------------------------------------------------------------- properties

  /** None of the four `Math.min` clamps ever changes its argument: the raw
      factor maxima are exactly the caps. */
  lemma ClampsInactive(place: Place)
    ensures Min(ProfileCompleteness(place), 25) == ProfileCompleteness(place)
    ensures Min(ReviewHealth(place), 25) == ReviewHealth(place)
    ensures Min(Contactability(place), 15) == Contactability(place)
    ensures Min(ServiceFit(place), 10) == ServiceFit(place)
  {
  }

  /** Web presence is 0 or 15, never the 25 its comment announces, so the
      total never exceeds 90. */
  lemma ScoreBounds(place: Place)
    ensures LeadScore(place).webPresence in {0, 15}
    ensures 0 <= LeadScore(place).total <= 90
  {
  }

  /** Bound 90 is reached: a business with a website and phone, one photo, no
      hours or summary, a 4.0 rating over 5 reviews, a pure service-area
      plumber. */
  lemma MaximalScoreReached()
    ensures exists place :: LeadScore(place).total == 90
  {
    var place := Place("p", None, "", Some("555"), Some("https://a.ee"), Some(4.0), Some(5),
                       None, Some("plumber"), None, Some(true), None, Some([Photo("ph", 1, 1)]), None);
    assert TARGET_TYPES[2] == "plumber";
    assert IsTargetBusiness(place);
    assert WebPresence(place) == 15;
    assert ProfileCompleteness(place) == 25;
    assert ReviewHealth(place) == 25;
    assert Contactability(place) == 15;
    assert ServiceFit(place) == 10;
    assert LeadScore(place).total == 90;
  }

  /** Profile completeness reaches its cap of 25 with one photo, no hours, no
      summary and a phone: 10 + 5 + 5 + 5. */
  lemma ProfileCapReached(place: Place)
    requires PhotoCount(place) == 1 && place.regularOpeningHours.None? && place.editorialSummary.None?
    requires HasPhone(place)
    ensures ProfileCompleteness(place) == 25
  {
  }

  /** With reviews present the review factor is the sum of the rating and
      count points; without them it is 0 whatever the rating says. */
  lemma ReviewGate(place: Place, otherRating: Option<real>)
    ensures ReviewHealth(place.(rating := otherRating)) == 0 <== ReviewCount(place) == 0
    ensures ReviewCount(place) != 0 ==>
      ReviewHealth(place) == RatingPoints(Rating(place)) + ReviewCountPoints(ReviewCount(place))
  {
  }

  // ---------------------------------------------------------------- presentation

  datatype Tier = Hot | Warm | Cold

  /** The bucket a total falls in; both boundaries belong to the higher tier. */
  function TierOf(score: int): (t: Tier)
    ensures t == Hot <==> score >= 60
    ensures t == Warm <==> 30 <= score < 60
    ensures t == Cold <==> score < 30
  {
    if score >= 60 then Hot else if score >= 30 then Warm else Cold
  }

  function TierColor(t: Tier): string {
    match t
    case Hot => "text-green-600"
    case Warm => "text-amber-600"
    case Cold => "text-slate-400"
  }

  function TierBgColor(t: Tier): string {
    match t
    case Hot => "bg-green-50 border-green-200"
    case Warm => "bg-amber-50 border-amber-200"
    case Cold => "bg-slate-50 border-slate-200"
  }

  function TierLabel(t: Tier): string {
    match t
    case Hot => "Hot"
    case Warm => "Warm"
    case Cold => "Cold"
  }

  /** `getScoreColor`. */
  function ScoreColor(score: int): (r: string)
    ensures r == TierColor(TierOf(score))
  {
    if score >= 60 then "text-green-600"
    else if score >= 30 then "text-amber-600"
    else "text-slate-400"
  }

  /** `getScoreBgColor`. */
  function ScoreBgColor(score: int): (r: string)
    ensures r == TierBgColor(TierOf(score))
  {
    if score >= 60 then "bg-green-50 border-green-200"
    else if score >= 30 then "bg-amber-50 border-amber-200"
    else "bg-slate-50 border-slate-200"
  }

  /** `getScoreLabel`. */
  function ScoreLabel(score: int): (r: string)
    ensures r == TierLabel(TierOf(score))
  {
    if score >= 60 then "Hot"
    else if score >= 30 then "Warm"
    else "Cold"
  }

  function TierRank(t: Tier): nat {
    match t
    case Cold => 0
    case Warm => 1
    case Hot => 2
  }

  /** A higher score never lands in a lower tier. */
  lemma TierMonotone(a: int, b: int)
    requires a <= b
    ensures TierRank(TierOf(a)) <= TierRank(TierOf(b))
  {
  }

  /** The three presentation functions agree: the label, the text colour and
      the background always name the same tier. */
  lemma PresentationAgrees(score: int)
    ensures ScoreLabel(score) == "Hot" <==> ScoreColor(score) == "text-green-600"
    ensures ScoreLabel(score) == "Warm" <==> ScoreBgColor(score) == "bg-amber-50 border-amber-200"
    ensures ScoreLabel(score) == "Cold" <==> ScoreColor(score) == "text-slate-400"
    ensures ScoreLabel(score) == "Hot" <==> ScoreBgColor(score) == "bg-green-50 border-green-200"
    ensures ScoreLabel(score) == "Warm" <==> ScoreColor(score) == "text-amber-600"
    ensures ScoreLabel(score) == "Cold" <==> ScoreBgColor(score) == "bg-slate-50 border-slate-200"
  {
  }
}
