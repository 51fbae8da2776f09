/**
 * The cities page: the API-to-display transform, the distinct countries, search and
 * country filter, the country badge colour, the statistics and the add/edit/delete requests.
 */
module Cities {
  import opened Optional
  import Text
  import Listing

  /** A city as the API returns it; `payer` is its country. */
  datatype ApiCity = ApiCity(id: string, name: string, payer: string)

  /** A city as the table shows it. */
  datatype DisplayCity = DisplayCity(id: string, nom: string, pays: string)

  /** `transformApiCity`: a renaming of the three fields. */
  function TransformApiCity(c: ApiCity): (d: DisplayCity)
    ensures d.id == c.id && d.nom == c.name && d.pays == c.payer
  {
    DisplayCity(c.id, c.name, c.payer)
  }

  /** The body the page sends when it creates or updates a city. */
  datatype CityPayload = CityPayload(name: string, payer: string)

  datatype Request = AddCity(payload: CityPayload) | UpdateCity(id: string, payload: CityPayload) | DeleteCity(id: string)

  function Pays(c: DisplayCity): string {
    c.pays
  }

  predicate NoDuplicates(s: seq<string>) {
    forall i, j :: 0 <= i < j < |s| ==> s[i] != s[j]
  }

  /** The position of the first occurrence of `x` in `s`. */
  function FirstIndex(s: seq<string>, x: string): (k: nat)
    requires x in s
    ensures k < |s| && s[k] == x
    ensures forall j :: 0 <= j < k ==> s[j] != x
    decreases |s|
  {
    if s[0] == x then 0 else 1 + FirstIndex(s[1..], x)
  }

  /**
   * `[...new Set(s)]` after `seen` has been inserted: the elements of `s` not yet seen,
   * each once, in the order of their first occurrence.
   */
  function Distinct(s: seq<string>, seen: set<string>): (r: seq<string>)
    ensures Listing.IsSubseq(r, s)
    ensures NoDuplicates(r)
    ensures forall i :: 0 <= i < |r| ==> r[i] !in seen
    ensures forall x :: x in r <==> x in s && x !in seen
    ensures forall i, j :: 0 <= i < j < |r| ==> FirstIndex(s, r[i]) < FirstIndex(s, r[j])
    decreases |s|
  {
    if s == [] then []
    else if s[0] in seen then
      var rest := Distinct(s[1..], seen);
      FirstIndexShift(s, rest);
      rest
    else
      var rest := Distinct(s[1..], seen + {s[0]});
      FirstIndexShift(s, rest);
      var r := [s[0]] + rest;
      assert r[1..] == rest;
      forall i, j | 0 <= i < j < |r| ensures FirstIndex(s, r[i]) < FirstIndex(s, r[j]) {
        assert r[j] == rest[j - 1];
        if i > 0 {
          assert r[i] == rest[i - 1];
        }
      }
      r
  }

  /** Past the head, first occurrences shift by one. */
  lemma FirstIndexShift(s: seq<string>, r: seq<string>)
    requires |s| > 0
    requires forall i :: 0 <= i < |r| ==> r[i] in s[1..] && r[i] != s[0]
    ensures forall i :: 0 <= i < |r| ==> r[i] in s && FirstIndex(s, r[i]) == 1 + FirstIndex(s[1..], r[i])
  {
  }

  /** `uniqueCountries`: every country of the list, once, in order of first appearance. */
  function UniqueCountries(cities: seq<DisplayCity>): (u: seq<string>)
    ensures NoDuplicates(u)
    ensures forall x :: x in u <==> exists i :: 0 <= i < |cities| && cities[i].pays == x
    ensures |u| <= |cities|
    ensures forall i :: 0 <= i < |u| ==> u[i] in Listing.Map(cities, Pays)
    ensures forall i, j :: 0 <= i < j < |u| ==>
      FirstIndex(Listing.Map(cities, Pays), u[i]) < FirstIndex(Listing.Map(cities, Pays), u[j])
  {
    var all := Listing.Map(cities, Pays);
    var u := Distinct(all, {});
    Listing.SubseqLength(u, all);
    CountriesOfCities(cities, u);
    u
  }

  /** A list holding exactly the mapped countries holds exactly the countries some city has. */
  lemma CountriesOfCities(cities: seq<DisplayCity>, u: seq<string>)
    requires forall x :: x in u <==> x in Listing.Map(cities, Pays)
    ensures forall x :: x in u <==> exists i :: 0 <= i < |cities| && cities[i].pays == x
  {
    var all := Listing.Map(cities, Pays);
    forall x ensures x in u <==> exists i :: 0 <= i < |cities| && cities[i].pays == x {
      if x in all {
        var k :| 0 <= k < |all| && all[k] == x;
        assert cities[k].pays == x;
      }
    }
  }

  /** The search box: case-insensitive over the name or the country. */
  predicate MatchesSearch(c: DisplayCity, term: string) {
    Text.Matches(c.nom, term) || Text.Matches(c.pays, term)
  }

  /** The country filter: `"all"`, or an exact match. */
  predicate MatchesCountry(c: DisplayCity, filter: string) {
    filter == "all" || c.pays == filter
  }

  predicate Keep(c: DisplayCity, term: string, filter: string) {
    MatchesSearch(c, term) && MatchesCountry(c, filter)
  }

  /** `filteredCities`: the cities passing the search and the country filter, in order. */
  function FilteredCities(cities: seq<DisplayCity>, term: string, filter: string): (r: seq<DisplayCity>)
    ensures Listing.IsSubseq(r, cities)
    ensures forall i :: 0 <= i < |r| ==> MatchesSearch(r[i], term) && (filter == "all" || r[i].pays == filter)
    ensures forall i :: 0 <= i < |cities| && MatchesSearch(cities[i], term) && (filter == "all" || cities[i].pays == filter) ==>
      cities[i] in r
    ensures forall c :: multiset(r)[c] == if Keep(c, term, filter) then multiset(cities)[c] else 0
  {
    Listing.Filter(cities, c => Keep(c, term, filter))
  }

  /** No search term and the `"all"` filter show every city. */
  lemma FilteredCitiesIdentity(cities: seq<DisplayCity>)
    ensures FilteredCities(cities, "", "all") == cities
  {
    forall i | 0 <= i < |cities| ensures Keep(cities[i], "", "all") {
      Text.MatchesEmpty(cities[i].nom);
    }
    Listing.FilterAll(cities, c => Keep(c, "", "all"));
  }

  const Palette: seq<string> := [
    "bg-blue-100 text-blue-800",
    "bg-green-100 text-green-800",
    "bg-purple-100 text-purple-800",
    "bg-orange-100 text-orange-800",
    "bg-pink-100 text-pink-800"]

  /** `charCodeAt`: the first UTF-16 code unit of a character, the high surrogate above the BMP. */
  function CodeUnit(c: char): (u: int)
    ensures 0 <= u < 0x1_0000
    ensures c as int < 0x1_0000 ==> u == c as int
    ensures c as int >= 0x1_0000 ==>
              (0xD800 <= u < 0xDC00 &&
               (u - 0xD800) * 0x400 + 0x1_0000 <= c as int < (u - 0xD800 + 1) * 0x400 + 0x1_0000)
  {
    if c as int < 0x1_0000 then c as int else 0xD800 + (c as int - 0x1_0000) / 0x400
  }

  /**
   * `getCountryColor`: the palette entry picked by the first code unit modulo 5. An empty
   * country yields `NaN` as index in the page, hence no class at all.
   */
  function CountryColor(pays: string): (c: Option<string>)
    ensures c.None? <==> pays == ""
    ensures c.Some? ==> c.value in Palette
    ensures c.Some? ==> c.value == Palette[CodeUnit(pays[0]) % |Palette|]
  {
    if pays == "" then None else Some(Palette[CodeUnit(pays[0]) % |Palette|])
  }

  /** Countries starting with the same character share a colour. */
  lemma SameInitialSameColor(a: string, b: string)
    requires a != "" && b != "" && a[0] == b[0]
    ensures CountryColor(a) == CountryColor(b)
  {
  }

  /** `citiesData.filter(city => city.pays === country).length`. */
  function CountryCount(cities: seq<DisplayCity>, country: string): nat
    decreases |cities|
  {
    if cities == [] then 0
    else (if cities[0].pays == country then 1 else 0) + CountryCount(cities[1..], country)
  }

  /**
   * The `reduce` over the distinct countries, from index `i` on, holding the index `best` of
   * the running winner: a later country replaces it unless the winner's count is strictly larger.
   */
  function ReduceFrom(cities: seq<DisplayCity>, u: seq<string>, best: nat, i: nat): (k: nat)
    requires best < i <= |u|
    requires forall j :: 0 <= j < i ==> CountryCount(cities, u[j]) <= CountryCount(cities, u[best])
    requires forall j :: best < j < i ==> CountryCount(cities, u[j]) < CountryCount(cities, u[best])
    ensures best <= k < |u|
    ensures forall j :: 0 <= j < |u| ==> CountryCount(cities, u[j]) <= CountryCount(cities, u[k])
    ensures forall j :: k < j < |u| ==> CountryCount(cities, u[j]) < CountryCount(cities, u[k])
    decreases |u| - i
  {
    if i == |u| then best
    else if CountryCount(cities, u[best]) > CountryCount(cities, u[i]) then ReduceFrom(cities, u, best, i + 1)
    else ReduceFrom(cities, u, i, i + 1)
  }

  /** `CountryCount` is the length of the filtered list. */
  lemma {:induction false} CountryCountIsFilterLength(cities: seq<DisplayCity>, country: string)
    ensures CountryCount(cities, country) == Listing.Count(cities, (c: DisplayCity) => c.pays == country)
    decreases |cities|
  {
    if cities != [] {
      CountryCountIsFilterLength(cities[1..], country);
    }
  }

  const NotAvailable: string := "N/A"

  /**
   * `mostCommonCountry`: among the distinct countries, one with the largest count, the
   * last such in order of first appearance; `"N/A"` when there is no city.
   */
  function MostCommonCountry(cities: seq<DisplayCity>): (m: string)
    ensures |cities| == 0 ==> m == NotAvailable
    ensures |cities| > 0 ==> exists i :: 0 <= i < |cities| && cities[i].pays == m
    ensures |cities| > 0 ==> forall i :: 0 <= i < |cities| ==> CountryCount(cities, cities[i].pays) <= CountryCount(cities, m)
    ensures |cities| > 0 ==>
      exists k :: 0 <= k < |UniqueCountries(cities)| && UniqueCountries(cities)[k] == m &&
        (forall j :: k < j < |UniqueCountries(cities)| ==>
           CountryCount(cities, UniqueCountries(cities)[j]) < CountryCount(cities, m))
  {
    var u := UniqueCountries(cities);
    if |cities| == 0 then NotAvailable
    else
      assert cities[0].pays in u;
      var k := ReduceFrom(cities, u, 0, 1);
      assert u[k] in u;
      forall i | 0 <= i < |cities| ensures CountryCount(cities, cities[i].pays) <= CountryCount(cities, u[k]) {
        assert cities[i].pays in u;
      }
      u[k]
  }

  /**
   * The tie rule in terms of the list itself: another country exactly as frequent as the
   * most common one first appears earlier in the list.
   */
  lemma {:induction false} MostCommonIsLastToAppear(cities: seq<DisplayCity>, i: nat)
    requires i < |cities|
    requires cities[i].pays != MostCommonCountry(cities)
    requires CountryCount(cities, cities[i].pays) == CountryCount(cities, MostCommonCountry(cities))
    ensures cities[i].pays in Listing.Map(cities, Pays) && MostCommonCountry(cities) in Listing.Map(cities, Pays)
    ensures FirstIndex(Listing.Map(cities, Pays), cities[i].pays) < FirstIndex(Listing.Map(cities, Pays), MostCommonCountry(cities))
  {
    var all := Listing.Map(cities, Pays);
    var u := UniqueCountries(cities);
    var k := MostCommonAt(cities);
    var a := CountryAt(cities, i);
    assert all[i] == cities[i].pays;
    assert a < k;
    assert FirstIndex(all, u[a]) < FirstIndex(all, u[k]);
  }

  /** Where a city's country sits among the distinct countries. */
  lemma CountryAt(cities: seq<DisplayCity>, i: nat) returns (a: nat)
    requires i < |cities|
    ensures a < |UniqueCountries(cities)| && UniqueCountries(cities)[a] == cities[i].pays
  {
    var u := UniqueCountries(cities);
    assert cities[i].pays in u;
    a :| 0 <= a < |u| && u[a] == cities[i].pays;
  }

  /** Where the most common country sits among the distinct countries. */
  lemma MostCommonAt(cities: seq<DisplayCity>) returns (k: nat)
    requires |cities| > 0
    ensures k < |UniqueCountries(cities)| && UniqueCountries(cities)[k] == MostCommonCountry(cities)
    ensures forall j :: k < j < |UniqueCountries(cities)| ==>
      CountryCount(cities, UniqueCountries(cities)[j]) < CountryCount(cities, MostCommonCountry(cities))
  {
    var u := UniqueCountries(cities);
    var m := MostCommonCountry(cities);
    k :| 0 <= k < |u| && u[k] == m && forall j :: k < j < |u| ==> CountryCount(cities, u[j]) < CountryCount(cities, m);
  }

  datatype CityStats = CityStats(total: nat, countries: nat, mostCommonCountry: string)

  /** The statistics cards. */
  function Stats(cities: seq<DisplayCity>): (st: CityStats)
    ensures st.total == |cities|
    ensures st.countries == |UniqueCountries(cities)| && st.countries <= st.total
    ensures st.mostCommonCountry == MostCommonCountry(cities)
  {
    CityStats(|cities|, |UniqueCountries(cities)|, MostCommonCountry(cities))
  }

  /** With no city in a country named "N/A", the card shows "N/A" exactly when the list is empty. */
  lemma {:induction false} NotAvailableIffNoCity(cities: seq<DisplayCity>)
    requires forall i :: 0 <= i < |cities| ==> cities[i].pays != NotAvailable
    ensures Stats(cities).mostCommonCountry == NotAvailable <==> |cities| == 0
  {
    if |cities| > 0 {
      var m := MostCommonCountry(cities);
      var i :| 0 <= i < |cities| && cities[i].pays == m;
    }
  }

  /** A city whose country is literally "N/A" makes the card ambiguous. */
  lemma NotAvailableCountryIsAmbiguous(id: string, nom: string)
    ensures Stats([DisplayCity(id, nom, NotAvailable)]).mostCommonCountry == NotAvailable
    ensures Stats([DisplayCity(id, nom, NotAvailable)]).total == 1
  {
    var cities := [DisplayCity(id, nom, NotAvailable)];
    var m := MostCommonCountry(cities);
    var i :| 0 <= i < |cities| && cities[i].pays == m;
  }

  /** The add form. */
  datatype NewCity = NewCity(nom: string, pays: string)

  /** `addCity`: nothing unless both the name and the country are filled in. */
  function HandleAddCity(n: NewCity): (r: Option<Request>)
    ensures r.None? <==> n.nom == "" || n.pays == ""
    ensures r.Some? ==> r.value == AddCity(CityPayload(n.nom, n.pays))
  {
    if n.nom == "" || n.pays == "" then None else Some(AddCity(CityPayload(n.nom, n.pays)))
  }

  /**
   * An added city, once the API echoes it back under some id, shows with the typed name and
   * country, and saving it unchanged sends the same payload as the add.
   */
  lemma AddedCityShowsAsTyped(n: NewCity, id: string)
    requires n.nom != "" && n.pays != ""
    ensures HandleAddCity(n).Some?
    ensures TransformApiCity(ApiCity(id, HandleAddCity(n).value.payload.name, HandleAddCity(n).value.payload.payer)) ==
      DisplayCity(id, n.nom, n.pays)
    ensures HandleSaveEdit(Some(DisplayCity(id, n.nom, n.pays))) == Some(UpdateCity(id, HandleAddCity(n).value.payload))
  {
  }

  /** `handleSaveEdit`: nothing without a city being edited, else its name and country. */
  function HandleSaveEdit(editing: Option<DisplayCity>): (r: Option<Request>)
    ensures r.None? <==> editing.None?
    ensures r.Some? ==> r.value == UpdateCity(editing.value.id, CityPayload(editing.value.nom, editing.value.pays))
  {
    match editing
    case None => None
    case Some(c) => Some(UpdateCity(c.id, CityPayload(c.nom, c.pays)))
  }

  /** Saving an untouched city sends back exactly the fields the API gave. */
  lemma SaveEditRoundTrip(c: ApiCity)
    ensures HandleSaveEdit(Some(TransformApiCity(c))) == Some(UpdateCity(c.id, CityPayload(c.name, c.payer)))
  {
  }

  /** The modals: the city being viewed and the one being edited. */
  datatype View = View(viewing: Option<DisplayCity>, editing: Option<DisplayCity>)

  /**
   * `handleCityAction`: "view" and "edit" open their modal on the city; "delete" asks for
   * confirmation (the answer is a parameter) and then requests the deletion.
   */
  function HandleCityAction(v: View, action: string, c: DisplayCity, confirmed: bool): (out: (View, Option<Request>))
    ensures action == "view" ==> out == (v.(viewing := Some(c)), None)
    ensures action == "edit" ==> out == (v.(editing := Some(c)), None)
    ensures out.0 == v || action in {"view", "edit"}
    ensures out.1.Some? <==> action == "delete" && confirmed
    ensures out.1.Some? ==> out.1.value == DeleteCity(c.id)
  {
    match action
    case "view" => (v.(viewing := Some(c)), None)
    case "edit" => (v.(editing := Some(c)), None)
    case "delete" => (v, if confirmed then Some(DeleteCity(c.id)) else None)
    case _ => (v, None)
  }

  /** Editing then saving updates the chosen city with its own fields. */
  lemma EditThenSave(v: View, c: DisplayCity)
    ensures HandleSaveEdit(HandleCityAction(v, "edit", c, false).0.editing) ==
      Some(UpdateCity(c.id, CityPayload(c.nom, c.pays)))
  {
  }
}
