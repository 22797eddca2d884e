/** The business record returned by the place-search provider, reduced to the
    fields the modelled code reads (src/types/lead.ts). Optional fields of the
    record are `Option`s; objects whose contents the code never inspects are
    kept only as far as their presence matters. */
module LeadTypes {

  import opened Wrappers

  datatype LocalizedText = LocalizedText(text: string, languageCode: string)

  datatype Photo = Photo(name: string, widthPx: int, heightPx: int)

  datatype OpeningHours = OpeningHours(openNow: Option<bool>, weekdayDescriptions: seq<string>)

  datatype Place = Place(
    id: string,
    displayName: Option<LocalizedText>,
    formattedAddress: string,
    nationalPhoneNumber: Option<string>,
    websiteUri: Option<string>,
    rating: Option<real>,
    userRatingCount: Option<int>,
    types: Option<seq<string>>,
    primaryType: Option<string>,
    primaryTypeDisplayName: Option<LocalizedText>,
    pureServiceAreaBusiness: Option<bool>,
    regularOpeningHours: Option<OpeningHours>,
    photos: Option<seq<Photo>>,
    editorialSummary: Option<LocalizedText>)

  /** The five factor scores of a lead and their sum. */
  datatype LeadScoreBreakdown = LeadScoreBreakdown(
    webPresence: int,
    profileCompleteness: int,
    reviewHealth: int,
    contactability: int,
    serviceFit: int,
    total: int)

  /** Category scores of a speed audit, each already scaled to 0..100. */
  datatype PageSpeedResult = PageSpeedResult(performance: int, seo: int, accessibility: int, bestPractices: int)
}
