/**
 * The country table (`countryData`) built by `loadCountries` from the
 * records of the country directory: records without capital coordinates are
 * dropped, each kept record is stored under its common name, and a later record
 * with the same name replaces an earlier one. When the directory cannot be
 * fetched the table is a one-entry fallback.
 */
module Countries {
  import opened Wrappers
  import opened JsText
  import opened Flag

  /**
   * One record of the directory, already parsed.
   * - latlng: `capitalInfo.latlng`; None when `capitalInfo` or `latlng` is absent.
   * - subregion: "" stands for an absent subregion (both are falsy).
   * - population: None when absent.
   * - languages: the values of the `languages` object in property order;
   *   None when the object is absent.
   */
  datatype RawCountry = RawCountry(
    commonName: string,
    cca2: seq<CodeUnit>,
    latlng: Option<seq<real>>,
    region: string,
    subregion: string,
    population: Option<int>,
    languages: Option<seq<string>>)

  datatype Position = Position(lat: real, lon: real)

  /** One value of `countryData`. */
  datatype CountryInfo = CountryInfo(
    position: Position,
    name: string,
    description: string,
    culture: string,
    monuments: seq<string>,
    population: string,
    langues: string)

  /**
   * A JavaScript object keyed by country name: its entries, and its keys in
   * insertion order (the order `Object.keys` and `Object.entries` list them in).
   */
  datatype Table = Table(keys: seq<string>, entries: map<string, CountryInfo>)

  /** The keys are listed once each, and are exactly the keys of the entries. */
  predicate Valid(t: Table)
  {
    && (forall i, j :: 0 <= i < j < |t.keys| ==> t.keys[i] != t.keys[j])
    && t.entries.Keys == set k | k in t.keys
  }

  const Empty: Table := Table([], map[])

  /** Assignment `countryData[key] = info`. */
  function Put(t: Table, key: string, info: CountryInfo): (r: Table)
    requires Valid(t)
    ensures Valid(r)
    ensures r.entries == t.entries[key := info]
    ensures key in t.entries ==> r.keys == t.keys
    ensures key !in t.entries ==> r.keys == t.keys + [key]
  {
    if key in t.entries then Table(t.keys, t.entries[key := info])
    else Table(t.keys + [key], t.entries[key := info])
  }

  /** `country.capitalInfo?.latlng?.[i] || null`: a missing or zero coordinate is null. */
  function Coordinate(latlng: Option<seq<real>>, i: nat): (r: Option<real>)
    ensures r.Some? <==> latlng.Some? && i < |latlng.value| && latlng.value[i] != 0.0
    ensures r.Some? ==> r.value == latlng.value[i]
  {
    match latlng
    case None => None
    case Some(v) => if i < |v| && v[i] != 0.0 then Some(v[i]) else None
  }

  predicate HasCapitalCoordinates(raw: RawCountry)
  {
    Coordinate(raw.latlng, 0).Some? && Coordinate(raw.latlng, 1).Some?
  }

  /** The languages joined with ", ", or "Multiple" when the record has none. */
  function LanguagesText(languages: Option<seq<string>>): (r: string)
    ensures languages.None? ==> r == "Multiple"
    ensures languages == Some([]) ==> r == ""
    ensures languages.Some? && languages.value != [] ==>
      && |r| == TotalLength(languages.value) + 2 * (|languages.value| - 1)
      && |languages.value[0]| <= |r|
      && r[..|languages.value[0]|] == languages.value[0]
  {
    match languages
    case None => "Multiple"
    case Some(values) => Join(values, ", ")
  }

  const DescriptionLead: string := "A vibrant nation in "
  const DescriptionTail: string := " known for its rich cultural heritage and diverse landscapes."

  function DescriptionText(region: string, subregion: string): (r: string)
    ensures |DescriptionLead| + |region| + |DescriptionTail| <= |r|
    ensures r[..|DescriptionLead|] == DescriptionLead
    ensures r[|r| - |DescriptionTail|..] == DescriptionTail
    ensures subregion == "" ==> r == DescriptionLead + region + DescriptionTail
    ensures subregion != "" ==> r == DescriptionLead + region + " (" + subregion + ")" + DescriptionTail
  {
    DescriptionLead + region + (if subregion != "" then " (" + subregion + ")" else "") + DescriptionTail
  }

  /** `population ? population.toLocaleString() : 'N/A'`; `localize` is `toLocaleString`. */
  function PopulationText(population: Option<int>, localize: int -> string): (r: string)
    ensures population.None? || population.value == 0 ==> r == "N/A"
    ensures population.Some? && population.value != 0 ==> r == localize(population.value)
  {
    match population
    case None => "N/A"
    case Some(n) => if n != 0 then localize(n) else "N/A"
  }

  const Placeholders: seq<string> := ["National Monument", "Historical Site", "Cultural Landmark"]

  /** The value stored for one record, or None when the record is skipped. */
  function MakeCountry(raw: RawCountry, localize: int -> string): (r: Option<CountryInfo>)
    ensures r.Some? <==> HasCapitalCoordinates(raw)
    ensures r.Some? ==>
      && r.value.culture == r.value.langues == LanguagesText(raw.languages)
      && r.value.monuments == Placeholders
      && r.value.position.lat != 0.0 && r.value.position.lon != 0.0
      && r.value.name == FlagEmoji(raw.cca2) + " " + raw.commonName
    ensures r.Some? ==>
      && raw.latlng.Some? && |raw.latlng.value| >= 2
      && r.value.position == Position(raw.latlng.value[0], raw.latlng.value[1])
    ensures r.Some? ==> r.value.description == DescriptionText(raw.region, raw.subregion)
    ensures r.Some? && raw.population.Some? && raw.population.value != 0 ==>
      r.value.population == localize(raw.population.value)
    ensures r.Some? && (raw.population.None? || raw.population.value == 0) ==> r.value.population == "N/A"
  {
    var flagEmoji := FlagEmoji(raw.cca2);
    var lat := Coordinate(raw.latlng, 0);
    var lon := Coordinate(raw.latlng, 1);
    if lat.None? || lon.None? then None
    else
      var langs := LanguagesText(raw.languages);
      Some(CountryInfo(
        Position(lat.value, lon.value),
        flagEmoji + " " + raw.commonName,
        DescriptionText(raw.region, raw.subregion),
        langs,
        Placeholders,
        PopulationText(raw.population, localize),
        langs))
  }

  /** One step of the `forEach`: the table after handling one record. */
  function AddCountry(t: Table, raw: RawCountry, localize: int -> string): (r: Table)
    requires Valid(t)
    ensures Valid(r)
  {
    match MakeCountry(raw, localize)
    case None => t
    case Some(info) => Put(t, raw.commonName, info)
  }

  /** The table `loadCountries` builds from a parsed record list: a left fold. */
  function BuildTable(data: seq<RawCountry>, localize: int -> string): (t: Table)
    ensures Valid(t)
    decreases |data|
  {
    if data == [] then Empty
    else AddCountry(BuildTable(data[..|data| - 1], localize), data[|data| - 1], localize)
  }

  /** The one record of the fallback table. */
  const FranceInfo: CountryInfo := CountryInfo(
    Position(46.2276, 2.2137),
    "🇫🇷 France",
    "Pays de la gastronomie et de l'art de vivre, la France séduit par sa diversité culturelle.",
    "Gastronomie, mode, littérature",
    ["Tour Eiffel", "Louvre", "Versailles"],
    "67 millions",
    "Français")

  /** The table used when the directory cannot be fetched or parsed. */
  function Fallback(): (t: Table)
    ensures Valid(t)
    ensures t.keys == ["France"] && t.entries.Keys == {"France"}
    ensures t.entries["France"].culture != t.entries["France"].langues
  {
    Table(["France"], map["France" := FranceInfo])
  }

  /**
   * `loadCountries`: `response` is the parsed directory, or None when the
   * fetch or the parse failed.
   */
  method LoadCountries(response: Option<seq<RawCountry>>, localize: int -> string) returns (countryData: Table)
    ensures Valid(countryData)
    ensures response.None? ==> countryData == Fallback()
    ensures response.Some? ==> countryData == BuildTable(response.value, localize)
  {
    match response
    case None =>
      countryData := Fallback();
      FallbackShape();
    case Some(data) =>
      countryData := AddCountries(data, localize);
  }

  /** The `forEach` of `loadCountries`, filling `countryData` record by record. */
  method AddCountries(data: seq<RawCountry>, localize: int -> string) returns (countryData: Table)
    ensures countryData == BuildTable(data, localize)
  {
    var keys: seq<string> := [];
    var entries: map<string, CountryInfo> := map[];
    for i := 0 to |data|
      invariant Table(keys, entries) == BuildTable(data[..i], localize)
    {
      var country := data[i];
      var info := MakeCountry(country, localize);
      if info.Some? {
        if country.commonName !in entries {
          keys := keys + [country.commonName];
        }
        entries := entries[country.commonName := info.value];
      }
      BuildTableSnoc(data, i, localize);
    }
    assert data[..|data|] == data;
    countryData := Table(keys, entries);
  }

  lemma BuildTableSnoc(data: seq<RawCountry>, i: nat, localize: int -> string)
    requires i < |data|
    ensures BuildTable(data[..i + 1], localize) == AddCountry(BuildTable(data[..i], localize), data[i], localize)
  {
    assert data[..i + 1][..i] == data[..i];
  }

  /** The fallback holds one well-formed entry whose flag is the one `getFlagEmoji` gives for "FR". */
  lemma FallbackShape()
    ensures Valid(Fallback())
    ensures Fallback().keys == ["France"]
    ensures Fallback().entries["France"].name == FlagEmoji([70, 82]) + " France"
  {
    FlagOfFrance();
  }

  /** A name is in the table exactly when some record with that name has capital coordinates. */
  lemma {:induction false} BuildTableKeys(data: seq<RawCountry>, localize: int -> string, k: string)
    ensures k in BuildTable(data, localize).entries <==>
      exists i :: 0 <= i < |data| && HasCapitalCoordinates(data[i]) && data[i].commonName == k
    decreases |data|
  {
    if data != [] {
      var init := data[..|data| - 1];
      BuildTableKeys(init, localize, k);
      if k in BuildTable(init, localize).entries {
        var i :| 0 <= i < |init| && HasCapitalCoordinates(init[i]) && init[i].commonName == k;
        assert data[i] == init[i];
      }
      if i :| 0 <= i < |data| && HasCapitalCoordinates(data[i]) && data[i].commonName == k {
        if i < |init| {
          assert init[i] == data[i];
        }
      }
    }
  }

  /**
   * Later records overwrite earlier ones: the stored value for a name is the
   * one made from the last record with that name that has coordinates.
   */
  lemma {:induction false} BuildTableLastWins(data: seq<RawCountry>, localize: int -> string, j: nat)
    requires j < |data| && HasCapitalCoordinates(data[j])
    requires forall i :: j < i < |data| && HasCapitalCoordinates(data[i]) ==> data[i].commonName != data[j].commonName
    ensures data[j].commonName in BuildTable(data, localize).entries
    ensures BuildTable(data, localize).entries[data[j].commonName] == MakeCountry(data[j], localize).value
    decreases |data|
  {
    if j < |data| - 1 {
      var init := data[..|data| - 1];
      assert init[j] == data[j];
      BuildTableLastWins(init, localize, j);
    }
  }

  /**
   * Every stored record has its capital coordinates, `culture` equal to
   * `langues`, and the three placeholder monuments.
   */
  lemma {:induction false} BuildTableRecords(data: seq<RawCountry>, localize: int -> string)
    ensures forall k :: k in BuildTable(data, localize).entries ==>
      var c := BuildTable(data, localize).entries[k];
      && c.culture == c.langues
      && c.monuments == Placeholders
      && c.position.lat != 0.0 && c.position.lon != 0.0
    decreases |data|
  {
    if data != [] {
      BuildTableRecords(data[..|data| - 1], localize);
    }
  }

  /** Names of the records that are kept, in input order (duplicates included). */
  function KeptNames(data: seq<RawCountry>): seq<string>
    decreases |data|
  {
    if data == [] then []
    else
      var rest := KeptNames(data[..|data| - 1]);
      if HasCapitalCoordinates(data[|data| - 1]) then rest + [data[|data| - 1].commonName] else rest
  }

  /** The first occurrence of each element, in order. */
  function FirstOccurrences(s: seq<string>): seq<string>
    decreases |s|
  {
    if s == [] then []
    else
      var rest := FirstOccurrences(s[..|s| - 1]);
      if s[|s| - 1] in rest then rest else rest + [s[|s| - 1]]
  }

  /**
   * Key order: the table lists each kept name once, at the place of its first
   * occurrence; overwriting a name does not move it.
   */
  lemma {:induction false} BuildTableOrder(data: seq<RawCountry>, localize: int -> string)
    ensures BuildTable(data, localize).keys == FirstOccurrences(KeptNames(data))
    decreases |data|
  {
    if data != [] {
      var init := data[..|data| - 1];
      BuildTableOrder(init, localize);
      var names := KeptNames(data);
      if HasCapitalCoordinates(data[|data| - 1]) {
        assert names[..|names| - 1] == KeptNames(init);
      }
    }
  }

  /**
   * `showCountryInfo`'s lookup: the panel shows the stored record for a known
   * key and keeps what it showed before for an unknown one.
   */
  function ShowCountryInfo(t: Table, key: string, shown: Option<CountryInfo>): (r: Option<CountryInfo>)
    ensures key in t.entries ==> r == Some(t.entries[key])
    ensures key !in t.entries ==> r == shown
  {
    if key in t.entries then Some(t.entries[key]) else shown
  }
}
