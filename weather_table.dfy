/**
 * The recommendation table of the daily weather report
 * (trip-planner-notifications/write_weather_report/app.py) and its wildcard
 * lookup, with the temperature, humidity and wind bands the lookup is keyed on.
 *
 * `RECOMMENDATIONS` is a dictionary whose insertion order decides which of
 * several matching keys wins; it is modelled by position: `KeyAt(j)` and
 * `TextAt(j)` are the key and the text of its `j`-th entry. The bands are the
 * fixed words `cold`..`hot`, `low`/`high` and `calm`/`breezy`/`high`, so they
 * are enumerations here; the condition is the forecast's free-form
 * `weather[0].main` text and stays a string.
 */
module WeatherRecommendations {
  import opened Wrappers

  datatype TempBand = Cold | Cool | Mild | Warm | Hot
  datatype HumidityBand = LowHumidity | HighHumidity
  datatype WindBand = Calm | Breezy | HighWind

  /** The temperature part of a key: `any`, or one band. */
  datatype TempPart = AnyTemp | Temp(tempBand: TempBand)
  /** The humidity part of a key: `any`, or one band. */
  datatype HumidityPart = AnyHumidity | Humidity(humidityBand: HumidityBand)
  /** The wind part of a key: `any`, or one band. */
  datatype WindPart = AnyWind | Wind(windBand: WindBand)

  /** A table key: `condition|temp|humidity|wind`, or the fallback key `default`. */
  datatype Key =
    | Pattern(condition: string, temp: TempPart, humidity: HumidityPart, wind: WindPart)
    | DefaultKey

  /** The observed parts a key is matched against: `key_parts` of the handler. */
  datatype Observation = Observation(condition: string, temp: TempBand, humidity: HumidityBand, wind: WindBand)

  /** The number of entries of `RECOMMENDATIONS`, `default` included. */
  const TableSize: nat := 35

  /** The key of entry `j` of `RECOMMENDATIONS`, in insertion order; the last is `default`. */
  function KeyAt(j: nat): (key: Key)
    ensures key.DefaultKey? <==> j >= TableSize - 1
  {
    // Clear
    if j == 0 then Pattern("Clear", Temp(Cold), AnyHumidity, Wind(Calm))
    else if j == 1 then Pattern("Clear", Temp(Cold), AnyHumidity, Wind(Breezy))
    else if j == 2 then Pattern("Clear", Temp(Cool), AnyHumidity, Wind(Calm))
    else if j == 3 then Pattern("Clear", Temp(Cool), AnyHumidity, Wind(Breezy))
    else if j == 4 then Pattern("Clear", Temp(Mild), AnyHumidity, Wind(Calm))
    else if j == 5 then Pattern("Clear", Temp(Mild), AnyHumidity, Wind(Breezy))
    else if j == 6 then Pattern("Clear", Temp(Warm), AnyHumidity, Wind(Calm))
    else if j == 7 then Pattern("Clear", Temp(Warm), AnyHumidity, Wind(Breezy))
    else if j == 8 then Pattern("Clear", Temp(Hot), Humidity(LowHumidity), Wind(Calm))
    else if j == 9 then Pattern("Clear", Temp(Hot), Humidity(HighHumidity), Wind(Calm))
    // Clouds
    else if j == 10 then Pattern("Clouds", Temp(Cold), AnyHumidity, Wind(Calm))
    else if j == 11 then Pattern("Clouds", Temp(Cold), AnyHumidity, Wind(Breezy))
    else if j == 12 then Pattern("Clouds", Temp(Cool), AnyHumidity, Wind(Calm))
    else if j == 13 then Pattern("Clouds", Temp(Cool), AnyHumidity, Wind(Breezy))
    else if j == 14 then Pattern("Clouds", Temp(Mild), AnyHumidity, Wind(Calm))
    else if j == 15 then Pattern("Clouds", Temp(Mild), AnyHumidity, Wind(Breezy))
    else if j == 16 then Pattern("Clouds", Temp(Warm), AnyHumidity, Wind(Calm))
    else if j == 17 then Pattern("Clouds", Temp(Warm), AnyHumidity, Wind(Breezy))
    else if j == 18 then Pattern("Clouds", Temp(Hot), AnyHumidity, Wind(Calm))
    else if j == 19 then Pattern("Clouds", Temp(Hot), AnyHumidity, Wind(Breezy))
    // Rain & co.
    else if j == 20 then Pattern("Rain", AnyTemp, AnyHumidity, AnyWind)
    else if j == 21 then Pattern("Drizzle", AnyTemp, AnyHumidity, AnyWind)
    else if j == 22 then Pattern("Thunderstorm", AnyTemp, AnyHumidity, AnyWind)
    // Snow
    else if j == 23 then Pattern("Snow", AnyTemp, AnyHumidity, AnyWind)
    // Atmosphere
    else if j == 24 then Pattern("Mist", AnyTemp, AnyHumidity, Wind(Calm))
    else if j == 25 then Pattern("Mist", AnyTemp, AnyHumidity, Wind(Breezy))
    else if j == 26 then Pattern("Fog", AnyTemp, AnyHumidity, AnyWind)
    else if j == 27 then Pattern("Haze", AnyTemp, AnyHumidity, AnyWind)
    else if j == 28 then Pattern("Smoke", AnyTemp, AnyHumidity, AnyWind)
    else if j == 29 then Pattern("Dust", AnyTemp, AnyHumidity, AnyWind)
    else if j == 30 then Pattern("Sand", AnyTemp, AnyHumidity, AnyWind)
    else if j == 31 then Pattern("Ash", AnyTemp, AnyHumidity, AnyWind)
    // Extreme
    else if j == 32 then Pattern("Squall", AnyTemp, AnyHumidity, Wind(HighWind))
    else if j == 33 then Pattern("Tornado", AnyTemp, AnyHumidity, AnyWind)
    // fallback
    else DefaultKey
  }

  /** The text of entry `j` of `RECOMMENDATIONS`. */
  function TextAt(j: nat): string {
    // Clear
    if j == 0 then "Insulated coat, scarf & hat. ❄️ Outdoor hike or golden‑hour photos."
    else if j == 1 then "Insulated coat, scarf & hat. Brisk walk—stay layered."
    else if j == 2 then "Light jacket & long sleeves. 🚶 City tour or café patio."
    else if j == 3 then "Light jacket & windbreaker. 🚶 Urban stroll."
    else if j == 4 then "T‑shirt + light pants. 🚴 Biking or picnic."
    else if j == 5 then "T‑shirt + light pants. ☀️ Al fresco brunch."
    else if j == 6 then "Shorts & breathable top + sunglasses. 🏖️ Beach or pool."
    else if j == 7 then "Shorts & breathable top. 🏖️ Beach stroll."
    else if j == 8 then "Tank top & shorts, sunhat, sunscreen. 🏊‍♀️ Swim or mall (AC breaks)."
    else if j == 9 then "Moisture‑wicking fabrics & sunhat. 🌳 Shaded park or museum."
    // Clouds
    else if j == 10 then "Warm coat & layers. ☕ Café or indoor museum."
    else if j == 11 then "Warm layers + wind‑proof jacket. 🏛️ Indoor museum, cozy café."
    else if j == 12 then "Light jacket & long sleeves. 🚶 City stroll."
    else if j == 13 then "Light layers & windbreaker. 🚶 Gallery visits."
    else if j == 14 then "Long‑sleeve top & trousers. ☕ Rooftop café or light hike."
    else if j == 15 then "Light sweater & trousers. ☕ Patio or park walk."
    else if j == 16 then "Long‑sleeve top & light pants. ☀️ Al fresco brunch."
    else if j == 17 then "Long‑sleeve + windbreaker. 🚴 Scenic bike ride."
    else if j == 18 then "Light layers & breathable fabrics. 🌤️ Gentle hike or city stroll."
    else if j == 19 then "Windbreaker & light pants. 🌤️ Breezy outdoor walking or outdoor café."
    // Rain & co.
    else if j == 20 then "Waterproof jacket, boots & umbrella. 🏞️ Waterfall tour or aquarium."
    else if j == 21 then "Light raincoat & water‑resistant shoes. 🛋️ Bookstore or indoor market."
    else if j == 22 then "Stay dry—avoid outdoor plans. 🎥 Cinema or spa."
    // Snow
    else if j == 23 then "Heavy coat, insulated boots, gloves & hat. ⛷️ Ski or snow‑shoe walk."
    // Atmosphere
    else if j == 24 then "Layers & high‑visibility jacket. 🚗 Drive carefully or brief stroll."
    else if j == 25 then "Layers & wind‑proof coat. 🚗 Short indoor visits."
    else if j == 26 then "Warm layers & reflective gear. 🚗 Stay cautious on drives."
    else if j == 27 then "Light mask & long sleeves. 🌬️ Indoor air‑conditioned spots."
    else if j == 28 then "Protective mask & long sleeves. 🌬️ Indoor AC, light activity."
    else if j == 29 then "Goggles & scarf over mouth. 🏜️ Quick outdoor stop, indoor visits."
    else if j == 30 then "Goggles & scarf. 🏜️ Short outdoor stop, indoor refuge."
    else if j == 31 then "Mask & long clothing. 🛖 Stay indoors if possible."
    // Extreme
    else if j == 32 then "Emergency gear—stay indoors. 🛑 Shelter in place."
    else if j == 33 then "Seek immediate shelter. 🚨 Follow local warnings."
    // fallback
    else "Dress comfortably and check a local weather app for last‑minute updates!"
  }

  /** `RECOMMENDATIONS['default']`. */
  const DefaultRecommendation: string := TextAt(34)

  /** Temperature band of the rounded daily maximum, in degrees Celsius. */
  function TempBandOf(tmax: int): (band: TempBand)
    ensures band == Cold <==> tmax <= 10
    ensures band == Hot <==> tmax > 30
    ensures band == Mild <==> 20 < tmax <= 25
  {
    if tmax <= 10 then Cold
    else if tmax <= 20 then Cool
    else if tmax <= 25 then Mild
    else if tmax <= 30 then Warm
    else Hot
  }

  /** Humidity band of the rounded average humidity, in percent. */
  function HumidityBandOf(havg: int): (band: HumidityBand)
    ensures band == HighHumidity <==> havg >= 60
  {
    if havg >= 60 then HighHumidity else LowHumidity
  }

  /** Wind band of the average wind speed (m/s, rounded to a tenth). */
  function WindBandOf(wavg: real): (band: WindBand)
    ensures band == Calm <==> wavg <= 5.0
    ensures band == HighWind <==> wavg > 10.0
  {
    if wavg <= 5.0 then Calm else if wavg <= 10.0 then Breezy else HighWind
  }

  function TempRank(b: TempBand): nat {
    match b
    case Cold => 0
    case Cool => 1
    case Mild => 2
    case Warm => 3
    case Hot => 4
  }

  function WindRank(b: WindBand): nat {
    match b
    case Calm => 0
    case Breezy => 1
    case HighWind => 2
  }

  /** A higher maximum never gives a colder band, and the band changes only across 10, 20, 25 or 30 degrees. */
  lemma TempBandMonotone(a: int, b: int)
    requires a <= b
    ensures TempRank(TempBandOf(a)) <= TempRank(TempBandOf(b))
    ensures TempBandOf(a) != TempBandOf(b) ==> (a <= 10 < b) || (a <= 20 < b) || (a <= 25 < b) || (a <= 30 < b)
  {
  }

  /** A stronger wind never gives a calmer band, and the band changes only across 5 or 10 m/s. */
  lemma WindBandMonotone(a: real, b: real)
    requires a <= b
    ensures WindRank(WindBandOf(a)) <= WindRank(WindBandOf(b))
    ensures WindBandOf(a) != WindBandOf(b) ==> (a <= 5.0 < b) || (a <= 10.0 < b)
  {
  }

  /** Every part of the key is the observed one or `any`; the `default` key never matches. */
  predicate Matches(key: Key, obs: Observation) {
    && key.Pattern?
    && (key.condition == obs.condition || key.condition == "any")
    && (key.temp.AnyTemp? || key.temp.tempBand == obs.temp)
    && (key.humidity.AnyHumidity? || key.humidity.humidityBand == obs.humidity)
    && (key.wind.AnyWind? || key.wind.windBand == obs.wind)
  }

  /** The first position from `j` up to `size`, whose key matches. */
  function FirstMatchFrom(keys: nat -> Key, size: nat, j: nat, obs: Observation): (r: Option<nat>)
    ensures r.Some? ==> j <= r.value < size && Matches(keys(r.value), obs)
    decreases size - j
  {
    if j >= size then None
    else if Matches(keys(j), obs) then Some(j)
    else FirstMatchFrom(keys, size, j + 1, obs)
  }

  /** The position of the first table entry whose key matches. */
  function Lookup(obs: Observation): (r: Option<nat>)
    ensures r.Some? ==> r.value < TableSize - 1 && Matches(KeyAt(r.value), obs)
  {
    FirstMatchFrom(KeyAt, TableSize, 0, obs)
  }

  /** No key of the table matches, so the lookup falls back on `default`. */
  predicate UsesDefault(obs: Observation) {
    Lookup(obs).None?
  }

  /** The wildcard lookup: the text of the first entry whose key matches, else the `default` text. */
  function Recommend(obs: Observation): (text: string)
    ensures exists k :: 0 <= k < TableSize && TextAt(k) == text
    ensures UsesDefault(obs) ==> text == DefaultRecommendation
  {
    match Lookup(obs)
    case Some(k) => TextAt(k)
    case None => DefaultRecommendation
  }

  /** `FirstMatchFrom` finds the matching position before which, from `j` on, no key matches. */
  lemma {:induction false} FirstMatchAt(keys: nat -> Key, size: nat, j: nat, obs: Observation, k: nat)
    requires j <= k < size && Matches(keys(k), obs)
    requires forall i :: j <= i < k ==> !Matches(keys(i), obs)
    ensures FirstMatchFrom(keys, size, j, obs) == Some(k)
    decreases k - j
  {
    if j < k {
      FirstMatchAt(keys, size, j + 1, obs, k);
    }
  }

  /** `FirstMatchFrom` finds nothing when no key from `j` on matches. */
  lemma {:induction false} NoMatchFrom(keys: nat -> Key, size: nat, j: nat, obs: Observation)
    requires forall i :: j <= i < size ==> !Matches(keys(i), obs)
    ensures FirstMatchFrom(keys, size, j, obs) == None
    decreases size - j
  {
    if j < size {
      NoMatchFrom(keys, size, j + 1, obs);
    }
  }

  /** `FirstMatchFrom` finds a position when some key from `j` on matches. */
  lemma {:induction false} SomeMatchFrom(keys: nat -> Key, size: nat, j: nat, obs: Observation, k: nat)
    requires j <= k < size && Matches(keys(k), obs)
    ensures FirstMatchFrom(keys, size, j, obs).Some?
    decreases k - j
  {
    if j < k && !Matches(keys(j), obs) {
      SomeMatchFrom(keys, size, j + 1, obs, k);
    }
  }

  /** Two observations that match the same keys from `j` on find the same position. */
  lemma {:induction false} SameMatchesSameFirst(keys: nat -> Key, size: nat, j: nat, a: Observation, b: Observation)
    requires forall i :: j <= i < size ==> (Matches(keys(i), a) <==> Matches(keys(i), b))
    ensures FirstMatchFrom(keys, size, j, a) == FirstMatchFrom(keys, size, j, b)
    decreases size - j
  {
    if j < size {
      SameMatchesSameFirst(keys, size, j + 1, a, b);
    }
  }

  /** The conditions the table names. */
  const KnownConditions: set<string> :=
    {"Clear", "Clouds", "Rain", "Drizzle", "Thunderstorm", "Snow", "Mist", "Fog",
     "Haze", "Smoke", "Dust", "Sand", "Ash", "Squall", "Tornado"}

  /** The conditions whose only key is `<condition>|any|any|any`. */
  const BandFreeConditions: set<string> :=
    {"Rain", "Drizzle", "Thunderstorm", "Snow", "Fog", "Haze", "Smoke", "Dust", "Sand", "Ash", "Tornado"}

  /** The `default` key is the last entry, and every other key is a pattern. */
  lemma DefaultIsLast()
    ensures KeyAt(TableSize - 1) == DefaultKey
    ensures forall j :: 0 <= j < TableSize - 1 ==> KeyAt(j).Pattern?
  {
  }

  /** Observations that differ only in humidity get the same text, unless they are `Clear`, hot and calm. */
  lemma HumidityMattersOnlyForClearHotCalm(c: string, t: TempBand, w: WindBand, h1: HumidityBand, h2: HumidityBand)
    requires !(c == "Clear" && t == Hot && w == Calm)
    ensures Recommend(Observation(c, t, h1, w)) == Recommend(Observation(c, t, h2, w))
  {
    SameMatchesSameFirst(KeyAt, TableSize, 0, Observation(c, t, h1, w), Observation(c, t, h2, w));
  }

  /** Observations that differ only in temperature get the same text, unless they are `Clear` or `Clouds`. */
  lemma TempMattersOnlyForClearAndClouds(c: string, h: HumidityBand, w: WindBand, t1: TempBand, t2: TempBand)
    requires c != "Clear" && c != "Clouds"
    ensures Recommend(Observation(c, t1, h, w)) == Recommend(Observation(c, t2, h, w))
  {
    SameMatchesSameFirst(KeyAt, TableSize, 0, Observation(c, t1, h, w), Observation(c, t2, h, w));
  }

  /** Observations that differ only in wind get the same text, unless they are `Clear`, `Clouds`, `Mist` or `Squall`. */
  lemma WindMattersOnlyForFourConditions(c: string, t: TempBand, h: HumidityBand, w1: WindBand, w2: WindBand)
    requires c != "Clear" && c != "Clouds" && c != "Mist" && c != "Squall"
    ensures Recommend(Observation(c, t, h, w1)) == Recommend(Observation(c, t, h, w2))
  {
    SameMatchesSameFirst(KeyAt, TableSize, 0, Observation(c, t, h, w1), Observation(c, t, h, w2));
  }

  /** A condition the table does not name gets the `default` text, whatever the bands. */
  lemma UnknownConditionFallsBack(obs: Observation)
    requires obs.condition !in KnownConditions
    ensures UsesDefault(obs) && Recommend(obs) == DefaultRecommendation
  {
    NoMatchFrom(KeyAt, TableSize, 0, obs);
  }

  /** A condition whose only key is all wildcards finds that key, whatever the bands. */
  lemma BandFreeConditionHasEntry(obs: Observation)
    requires obs.condition in BandFreeConditions
    ensures !UsesDefault(obs)
  {
    var c := obs.condition;
    var k :=
      if c == "Rain" then 20 else if c == "Drizzle" then 21 else if c == "Thunderstorm" then 22
      else if c == "Snow" then 23 else if c == "Fog" then 26 else if c == "Haze" then 27
      else if c == "Smoke" then 28 else if c == "Dust" then 29 else if c == "Sand" then 30
      else if c == "Ash" then 31 else 33;
    SomeMatchFrom(KeyAt, TableSize, 0, obs, k);
  }

  /** A condition whose only key is all wildcards gets that key's text, whatever the bands. */
  lemma BandFreeConditionsIgnoreBands(obs: Observation)
    requires obs.condition in BandFreeConditions
    ensures Recommend(obs) == Recommend(Observation(obs.condition, Cold, LowHumidity, Calm))
    ensures !UsesDefault(obs)
  {
    var c := obs.condition;
    assert c != "Clear" && c != "Clouds" && c != "Mist" && c != "Squall";
    TempMattersOnlyForClearAndClouds(c, obs.humidity, obs.wind, obs.temp, Cold);
    HumidityMattersOnlyForClearHotCalm(c, Cold, obs.wind, obs.humidity, LowHumidity);
    WindMattersOnlyForFourConditions(c, Cold, LowHumidity, obs.wind, Calm);
    BandFreeConditionHasEntry(obs);
  }

  /** `Mist` is decided by the wind alone: calm and breezy have their own entries, a high wind falls back on `default`. */
  lemma MistFollowsWind(t: TempBand, h: HumidityBand, w: WindBand)
    ensures Lookup(Observation("Mist", t, h, w)) == if w == Calm then Some(24) else if w == Breezy then Some(25) else None
  {
    var obs := Observation("Mist", t, h, w);
    if w == Calm {
      FirstMatchAt(KeyAt, TableSize, 0, obs, 24);
    } else if w == Breezy {
      FirstMatchAt(KeyAt, TableSize, 0, obs, 25);
    } else {
      NoMatchFrom(KeyAt, TableSize, 0, obs);
    }
  }

  /** `Squall` has an entry only for a high wind; otherwise it falls back on `default`. */
  lemma SquallNeedsHighWind(t: TempBand, h: HumidityBand, w: WindBand)
    ensures Lookup(Observation("Squall", t, h, w)) == if w == HighWind then Some(32) else None
  {
    var obs := Observation("Squall", t, h, w);
    if w == HighWind {
      FirstMatchAt(KeyAt, TableSize, 0, obs, 32);
    } else {
      NoMatchFrom(KeyAt, TableSize, 0, obs);
    }
  }

  /** `Clear` and `Clouds` have no text for a high wind, and `Clear` none for a hot, breezy day. */
  lemma ClearAndCloudsGaps(obs: Observation)
    requires obs.condition == "Clear" || obs.condition == "Clouds"
    requires obs.wind == HighWind || (obs.condition == "Clear" && obs.temp == Hot && obs.wind == Breezy)
    ensures UsesDefault(obs) && Recommend(obs) == DefaultRecommendation
  {
    NoMatchFrom(KeyAt, TableSize, 0, obs);
  }

  /** Outside those gaps, `Clear` and `Clouds` have an entry for every band. */
  lemma ClearAndCloudsCovered(obs: Observation)
    requires obs.condition == "Clear" || obs.condition == "Clouds"
    requires obs.wind != HighWind && !(obs.condition == "Clear" && obs.temp == Hot && obs.wind == Breezy)
    ensures !UsesDefault(obs)
  {
    var base := if obs.condition == "Clear" then 0 else 10;
    var k :=
      if obs.condition == "Clear" && obs.temp == Hot then (if obs.humidity == LowHumidity then 8 else 9)
      else base + 2 * TempRank(obs.temp) + WindRank(obs.wind);
    SomeMatchFrom(KeyAt, TableSize, 0, obs, k);
  }
}
