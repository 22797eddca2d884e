/** The fixed tables of industries and cities offered in the search filters
    and used to build cross-search queries (src/data/industries.ts). */
module Industries {

  import opened Wrappers

  datatype Industry = Industry(id: string, labelEt: string, labelEn: string, searchTermEt: string, searchTermEn: string)

  datatype City = City(id: string, name: string)

  const INDUSTRIES: seq<Industry> := [
    Industry("construction", "Ehitus / Remont", "Construction / Renovation", "ehitusfirma", "construction company"),
    Industry("cleaning", "Puhastusteenused", "Cleaning Services", "puhastusfirma", "cleaning company"),
    Industry("accounting", "Raamatupidamine", "Accounting", "raamatupidamine", "accounting firm"),
    Industry("auto_repair", "Autoteenindus", "Auto Repair", "autoteenindus", "auto repair"),
    Industry("beauty", "Ilusalong / Spa", "Beauty / Wellness", "ilusalong", "beauty salon"),
    Industry("dental", "Hambaravi", "Dental / Medical", "hambaravi", "dental clinic"),
    Industry("real_estate", "Kinnisvarabüroo", "Real Estate", "kinnisvarabüroo", "real estate agency"),
    Industry("legal", "Õigusteenused", "Legal Services", "advokaadibüroo", "law firm"),
    Industry("logistics", "Logistika / Transport", "Logistics / Transport", "veoteenus", "transport company"),
    Industry("property_mgmt", "Kinnisvara haldus", "Property Management", "kinnisvara haldus", "property management"),
    Industry("security", "Turvateenused", "Security Services", "turvafirma", "security company"),
    Industry("it_services", "IT teenused", "IT Services", "IT teenused", "IT services"),
    Industry("pet_services", "Loomateenused", "Pet Services", "loomakliinik", "veterinary clinic"),
    Industry("printing", "Trükiteenused", "Printing / Signs", "trükikoda", "printing company")
  ]

  const ESTONIAN_CITIES: seq<City> := [
    City("tallinn", "Tallinn"),
    City("tartu", "Tartu"),
    City("parnu", "Pärnu"),
    City("narva", "Narva"),
    City("kohtla_jarve", "Kohtla-Järve"),
    City("viljandi", "Viljandi"),
    City("rakvere", "Rakvere"),
    City("maardu", "Maardu"),
    City("kuressaare", "Kuressaare"),
    City("haapsalu", "Haapsalu"),
    City("johvi", "Jõhvi"),
    City("paide", "Paide"),
    City("keila", "Keila"),
    City("valga", "Valga"),
    City("voru", "Võru")
  ]

  /** `INDUSTRIES.find(i => i.id === id)`: the first industry with that id. */
  function FindIndustry(table: seq<Industry>, id: string): (r: Option<Industry>)
    ensures r.Some? ==> r.value in table && r.value.id == id
    ensures r.None? <==> forall i :: 0 <= i < |table| ==> table[i].id != id
    ensures r.Some? ==> exists k :: 0 <= k < |table| && table[k] == r.value && forall j :: 0 <= j < k ==> table[j].id != id
    decreases |table|
  {
    if |table| == 0 then None
    else if table[0].id == id then Some(table[0])
    else
      var r := FindIndustry(table[1..], id);
      assert forall j :: 1 <= j < |table| ==> table[j] == table[1..][j - 1];
      r
  }

  /** `ESTONIAN_CITIES.find(c => c.id === id)`: the first city with that id. */
  function FindCity(table: seq<City>, id: string): (r: Option<City>)
    ensures r.Some? ==> r.value in table && r.value.id == id
    ensures r.None? <==> forall i :: 0 <= i < |table| ==> table[i].id != id
    ensures r.Some? ==> exists k :: 0 <= k < |table| && table[k] == r.value && forall j :: 0 <= j < k ==> table[j].id != id
    decreases |table|
  {
    if |table| == 0 then None
    else if table[0].id == id then Some(table[0])
    else
      var r := FindCity(table[1..], id);
      assert forall j :: 1 <= j < |table| ==> table[j] == table[1..][j - 1];
      r
  }

  function IndustryById(id: string): (r: Option<Industry>)
    ensures r.Some? ==> r.value.id == id && id != ""
    ensures r.Some? ==> r.value.searchTermEt != "" && r.value.searchTermEn != ""
  {
    var r := FindIndustry(INDUSTRIES, id);
    SearchTermsNonEmpty();
    IndustryIdsNonEmpty();
    r
  }

  function CityById(id: string): (r: Option<City>)
    ensures r.Some? ==> r.value.id == id && id != "" && r.value.name != ""
  {
    var r := FindCity(ESTONIAN_CITIES, id);
    CityNamesNonEmpty();
    r
  }

  /** Every industry has non-empty search terms in both languages. */
  lemma SearchTermsNonEmpty()
    ensures forall i :: 0 <= i < |INDUSTRIES| ==> INDUSTRIES[i].searchTermEt != "" && INDUSTRIES[i].searchTermEn != ""
  {
  }

  /** Every city has a non-empty id and name. */
  lemma CityNamesNonEmpty()
    ensures forall i :: 0 <= i < |ESTONIAN_CITIES| ==> ESTONIAN_CITIES[i].id != "" && ESTONIAN_CITIES[i].name != ""
  {
  }

  /** Every industry has a non-empty id, so "" (the "all" choice) is never
      an industry. */
  lemma IndustryIdsNonEmpty()
    ensures forall i :: 0 <= i < |INDUSTRIES| ==> INDUSTRIES[i].id != ""
  {
  }
}
