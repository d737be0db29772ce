/** Forecast classification and alert text (App/weather_service.py).

    The forecast payload arrives already decoded: a `Forecast` holds the
    city's UTC offset (absent when the payload has no `city` or no
    `timezone`) and the list of timestamped samples. The clock is a
    parameter, in microseconds since the epoch, because the source compares
    whole-second sample times against a `datetime.now` that has sub-second
    precision. */
module WeatherService {
  import opened Wrappers
  import opened Text

  const Thunderstorm: string := "Thunderstorm"
  const Drizzle: string := "Drizzle"
  const Rain: string := "Rain"
  const Snow: string := "Snow"
  const Other: string := "Other"

  /** The four categories that `normalize_type` gives a bad weather code. */
  const BadCategories: set<string> := {Thunderstorm, Drizzle, Rain, Snow}

  const MicrosPerSecond: int := 1_000_000
  const SecondsPerHour: int := 3600
  const SecondsPerDay: int := 86400

  /** The default look-ahead of `collect_bad_weather_times`, in hours. */
  const DefaultHours: int := 24

  // ---------------------------------------------------------------------------
  // Weather codes

  function IsBadWeather(weatherId: int): (bad: bool)
    ensures bad <==> (200 <= weatherId < 400 || 500 <= weatherId < 700)
  {
    || (200 <= weatherId < 300)
    || (300 <= weatherId < 400)
    || (500 <= weatherId < 600)
    || (600 <= weatherId < 700)
  }

  function NormalizeType(weatherId: int): (t: string)
    ensures t == Other <==> !IsBadWeather(weatherId)
    ensures t in BadCategories <==> IsBadWeather(weatherId)
    ensures t == Thunderstorm <==> 200 <= weatherId < 300
    ensures t == Drizzle <==> 300 <= weatherId < 400
    ensures t == Rain <==> 500 <= weatherId < 600
    ensures t == Snow <==> 600 <= weatherId < 700
  {
    if 200 <= weatherId < 300 then Thunderstorm
    else if 300 <= weatherId < 400 then Drizzle
    else if 500 <= weatherId < 600 then Rain
    else if 600 <= weatherId < 700 then Snow
    else Other
  }

  // ---------------------------------------------------------------------------
  // Forecast payload

  /** One element of an entry's `weather` list; `id` absent is `None`. */
  datatype WeatherItem = WeatherItem(id: Option<int>)

  /** One element of the payload's `list`; `dt` absent is `None`, a missing
      `weather` list is the empty one. */
  datatype Entry = Entry(dt: Option<int>, weather: seq<WeatherItem>)

  datatype Forecast = Forecast(cityTimezone: Option<int>, list: seq<Entry>)

  /** Category name to the `HH:MM` local times at which it occurs. */
  type Events = map<string, seq<string>>

  /** An entry that ends the scan: it has a time, strictly after the limit. */
  predicate PastLimit(e: Entry, limitMicros: int) {
    e.dt.Some? && e.dt.value * MicrosPerSecond > limitMicros
  }

  /** The index of the entry at which the scan breaks, or the length of the
      list when it never breaks. */
  function HorizonEnd(entries: seq<Entry>, limitMicros: int): (n: nat)
    ensures n <= |entries|
    ensures forall j :: 0 <= j < n ==> !PastLimit(entries[j], limitMicros)
    ensures n < |entries| ==> PastLimit(entries[n], limitMicros)
  {
    if entries == [] || PastLimit(entries[0], limitMicros) then 0
    else 1 + HorizonEnd(entries[1..], limitMicros)
  }

  function Digit(d: int): (c: char)
    requires 0 <= d < 10
    ensures '0' <= c <= '9'
  {
    ('0' as int + d) as char
  }

  /** The number a two-character decimal numeral denotes. */
  function NumeralValue(s: string): int
    requires |s| == 2
  {
    (s[0] as int - '0' as int) * 10 + (s[1] as int - '0' as int)
  }

  predicate IsDecimalDigit(c: char) {
    '0' <= c <= '9'
  }

  /** `n` as two decimal digits, with a leading zero below 10
      (`TwoDigitsReadsBack`). */
  function TwoDigits(n: int): (s: string)
    requires 0 <= n < 100
    ensures |s| == 2
  {
    [Digit(n / 10), Digit(n % 10)]
  }

  /** The two digits read back as the number they render. */
  lemma TwoDigitsReadsBack(n: int)
    requires 0 <= n < 100
    ensures var s := TwoDigits(n);
            IsDecimalDigit(s[0]) && IsDecimalDigit(s[1]) && NumeralValue(s) == n
  {
  }

  /** The `%H:%M` rendering of a local time given in seconds since the epoch:
      two digits for the hour of the day, a colon, two digits for the minute
      of the hour (`HhmmReadsBack`). */
  function Hhmm(localSeconds: int): (s: string)
    ensures |s| == 5 && s[2] == ':'
  {
    var secondOfDay := localSeconds % SecondsPerDay;
    TwoDigits(secondOfDay / SecondsPerHour) + ":" + TwoDigits((secondOfDay % SecondsPerHour) / 60)
  }

  /** A whole number of days is a whole number of hours. */
  lemma SecondOfHourInDay(x: int)
    ensures (x % SecondsPerDay) % SecondsPerHour == x % SecondsPerHour
  {
    var q := x / SecondsPerDay;
    var r := x % SecondsPerDay;
    assert x == SecondsPerHour * (24 * q) + r;
  }

  /** The rendered time reads back as the hour of the local day and the
      minute of the hour. */
  lemma HhmmReadsBack(localSeconds: int)
    ensures var s := Hhmm(localSeconds);
            && IsDecimalDigit(s[0]) && IsDecimalDigit(s[1]) && IsDecimalDigit(s[3]) && IsDecimalDigit(s[4])
            && NumeralValue(s[..2]) == (localSeconds % SecondsPerDay) / SecondsPerHour
            && NumeralValue(s[3..]) == (localSeconds % SecondsPerHour) / 60
            && 0 <= NumeralValue(s[..2]) < 24 && 0 <= NumeralValue(s[3..]) < 60
  {
    var secondOfDay := localSeconds % SecondsPerDay;
    var hour := TwoDigits(secondOfDay / SecondsPerHour);
    var minute := TwoDigits((secondOfDay % SecondsPerHour) / 60);
    var s := Hhmm(localSeconds);
    assert s == hour + ":" + minute;
    assert s[..2] == hour && s[3..] == minute;
    TwoDigitsReadsBack(secondOfDay / SecondsPerHour);
    TwoDigitsReadsBack((secondOfDay % SecondsPerHour) / 60);
    SecondOfHourInDay(localSeconds);
  }

  // ---------------------------------------------------------------------------
  // Accumulating events, in the order the loops of the source visit the
  // payload (each function adds the last element of its list).

  function Get(events: Events, category: string): seq<string> {
    if category in events then events[category] else []
  }

  /** Records a time under a category unless that category already lists
      it; a new time goes at the end of the list. */
  function AddTime(events: Events, category: string, hhmm: string): Events {
    if hhmm in Get(events, category) then events
    else events[category := Get(events, category) + [hhmm]]
  }

  function AddItems(events: Events, items: seq<WeatherItem>, hhmm: string): Events {
    if items == [] then events
    else
      var before := AddItems(events, items[..|items| - 1], hhmm);
      var item := items[|items| - 1];
      if item.id.Some? && IsBadWeather(item.id.value)
      then AddTime(before, NormalizeType(item.id.value), hhmm)
      else before
  }

  function AddEntries(events: Events, entries: seq<Entry>, offset: int): Events {
    if entries == [] then events
    else
      var before := AddEntries(events, entries[..|entries| - 1], offset);
      var entry := entries[|entries| - 1];
      if entry.dt.None? then before
      else AddItems(before, entry.weather, Hhmm(entry.dt.value + offset))
  }

  function SortValues(events: Events): Events {
    map k | k in events :: SortStrings(events[k])
  }

  function Limit(nowMicros: int, hours: int): int {
    nowMicros + hours * SecondsPerHour * MicrosPerSecond
  }

  /** What `collect_bad_weather_times(forecast, hours)` returns when the clock
      reads `nowMicros`. */
  function BadWeatherTimes(forecast: Forecast, nowMicros: int, hours: int): Events {
    var entries := forecast.list;
    var horizon := entries[..HorizonEnd(entries, Limit(nowMicros, hours))];
    SortValues(AddEntries(map[], horizon, forecast.cityTimezone.GetOr(0)))
  }

  /** `collect_bad_weather_times`: the scan of the forecast, then the sort of
      each list. */
  method CollectBadWeatherTimes(forecast: Forecast, nowMicros: int, hours: int) returns (events: Events)
    ensures events == BadWeatherTimes(forecast, nowMicros, hours)
  {
    var limit := Limit(nowMicros, hours);
    var offset := if forecast.cityTimezone.Some? then forecast.cityTimezone.value else 0;
    events := ScanHorizon(forecast.list, limit, offset);
    events := SortEachList(events);
  }

  /** The loop of `collect_bad_weather_times` over the forecast entries: an
      entry without `dt` is passed over with `continue`, the first entry past
      the limit ends the scan with `break`, and every other entry has its
      bad-weather items appended to the lists of a `defaultdict` at its local
      time. */
  method ScanHorizon(entries: seq<Entry>, limit: int, offset: int) returns (events: Events)
    ensures events == AddEntries(map[], entries[..HorizonEnd(entries, limit)], offset)
  {
    events := map[];
    var i := 0;
    while i < |entries|
      invariant i <= HorizonEnd(entries, limit)
      invariant events == AddEntries(map[], entries[..i], offset)
    {
      var entry := entries[i];
      AddEntriesStep(entries, i, offset);
      if entry.dt.None? {
        i := i + 1;
        continue;
      }
      if PastLimit(entry, limit) {
        break;
      }
      events := AppendBadTimes(events, entry.weather, Hhmm(entry.dt.value + offset));
      i := i + 1;
    }
    assert i == HorizonEnd(entries, limit);
  }

  /** Scanning one more entry adds its items at its local time, or nothing
      when it has no `dt`. */
  lemma AddEntriesStep(entries: seq<Entry>, i: nat, offset: int)
    requires i < |entries|
    ensures AddEntries(map[], entries[..i + 1], offset)
            == if entries[i].dt.None? then AddEntries(map[], entries[..i], offset)
               else AddItems(AddEntries(map[], entries[..i], offset), entries[i].weather, Hhmm(entries[i].dt.value + offset))
  {
    assert entries[..i + 1][..i] == entries[..i];
  }

  /** Adding one more item records its category's time when the item is
      bad weather, and nothing otherwise. */
  lemma AddItemsStep(events: Events, items: seq<WeatherItem>, w: nat, hhmm: string)
    requires w < |items|
    ensures AddItems(events, items[..w + 1], hhmm)
            == if items[w].id.Some? && IsBadWeather(items[w].id.value)
               then AddTime(AddItems(events, items[..w], hhmm), NormalizeType(items[w].id.value), hhmm)
               else AddItems(events, items[..w], hhmm)
  {
    assert items[..w + 1][..w] == items[..w];
  }

  /** The inner loop of `collect_bad_weather_times` over one entry's weather
      items, all at local time `hhmm`. */
  method AppendBadTimes(events: Events, items: seq<WeatherItem>, hhmm: string) returns (updated: Events)
    ensures updated == AddItems(events, items, hhmm)
  {
    updated := events;
    var w := 0;
    while w < |items|
      invariant 0 <= w <= |items|
      invariant updated == AddItems(events, items[..w], hhmm)
    {
      var item := items[w];
      AddItemsStep(events, items, w, hhmm);
      if item.id.Some? && IsBadWeather(item.id.value) {
        var wtype := NormalizeType(item.id.value);
        var times := if wtype in updated then updated[wtype] else [];
        if hhmm !in times {
          updated := updated[wtype := times + [hhmm]];
        }
      }
      w := w + 1;
    }
    assert items[..w] == items;
  }

  /** Sorts the list of times of every category, one category at a time. */
  method SortEachList(events: Events) returns (sorted: Events)
    ensures sorted == SortValues(events)
  {
    sorted := events;
    var pending := events.Keys;
    while pending != {}
      invariant pending <= events.Keys
      invariant sorted.Keys == events.Keys
      invariant forall k :: k in sorted ==>
                  sorted[k] == if k in pending then events[k] else SortStrings(events[k])
      decreases pending
    {
      var k :| k in pending;
      sorted := sorted[k := SortStrings(sorted[k])];
      pending := pending - {k};
    }
    assert sorted == SortValues(events);
  }

  // ---------------------------------------------------------------------------
  // An independent description of the result: which categories occur at
  // which local times among the scanned entries.

  /** Some item of the list carries a code of `category`. */
  predicate HasCategory(items: seq<WeatherItem>, category: string) {
    exists w :: 0 <= w < |items| && items[w].id.Some? && IsBadWeather(items[w].id.value)
                && NormalizeType(items[w].id.value) == category
  }

  /** The local time of `e`, when it has a time and carries a code of
      `category`. */
  function EntryTimes(e: Entry, offset: int, category: string): set<string> {
    if e.dt.Some? && HasCategory(e.weather, category) then {Hhmm(e.dt.value + offset)} else {}
  }

  function CategoryTimes(entries: seq<Entry>, offset: int, category: string): set<string> {
    if entries == [] then {}
    else CategoryTimes(entries[..|entries| - 1], offset, category)
         + EntryTimes(entries[|entries| - 1], offset, category)
  }

  /** Every key is a bad category holding a non-empty list without repeats. */
  predicate WellFormed(events: Events) {
    forall k :: k in events ==> k in BadCategories && events[k] != [] && Distinct(events[k])
  }

  /** A category is carried by a list of items exactly when it is carried by
      all but the last item, or by the last one. */
  lemma HasCategorySnoc(items: seq<WeatherItem>)
    requires items != []
    ensures var prefix, item := items[..|items| - 1], items[|items| - 1];
            forall k :: HasCategory(items, k) <==>
                          (HasCategory(prefix, k) || (item.id.Some? && IsBadWeather(item.id.value)
                                                      && NormalizeType(item.id.value) == k))
  {
    var prefix, item := items[..|items| - 1], items[|items| - 1];
    assert forall w :: 0 <= w < |prefix| ==> prefix[w] == items[w];
    forall k | HasCategory(items, k)
      ensures HasCategory(prefix, k) || (item.id.Some? && IsBadWeather(item.id.value) && NormalizeType(item.id.value) == k)
    {
      var w :| 0 <= w < |items| && items[w].id.Some? && IsBadWeather(items[w].id.value)
               && NormalizeType(items[w].id.value) == k;
      assert w < |prefix| || items[w] == item;
    }
  }

  /** Recording a time under a bad category adds it to that category's set of
      times and to no other, and keeps the lists free of repeats. */
  lemma AddTimeSpec(events: Events, category: string, hhmm: string)
    requires WellFormed(events) && category in BadCategories
    ensures WellFormed(AddTime(events, category, hhmm))
    ensures forall k :: Elements(Get(AddTime(events, category, hhmm), k))
                        == Elements(Get(events, k)) + (if k == category then {hhmm} else {})
  {
    var cur := Get(events, category);
    if hhmm !in cur {
      var after := events[category := cur + [hhmm]];
      assert Elements(cur + [hhmm]) == Elements(cur) + {hhmm};
      assert Get(after, category) == cur + [hhmm];
      assert forall k :: k != category ==> Get(after, k) == Get(events, k);
    } else {
      assert hhmm in Elements(cur);
    }
  }

  lemma {:induction false} AddItemsSpec(events: Events, items: seq<WeatherItem>, hhmm: string)
    requires WellFormed(events)
    ensures WellFormed(AddItems(events, items, hhmm))
    ensures forall k :: Elements(Get(AddItems(events, items, hhmm), k))
                        == Elements(Get(events, k)) + (if HasCategory(items, k) then {hhmm} else {})
  {
    if items != [] {
      var prefix := items[..|items| - 1];
      var item := items[|items| - 1];
      AddItemsSpec(events, prefix, hhmm);
      HasCategorySnoc(items);
      if item.id.Some? && IsBadWeather(item.id.value) {
        AddTimeSpec(AddItems(events, prefix, hhmm), NormalizeType(item.id.value), hhmm);
      }
    }
  }


  lemma {:induction false} AddEntriesSpec(entries: seq<Entry>, offset: int)
    ensures WellFormed(AddEntries(map[], entries, offset))
    ensures forall k :: Elements(Get(AddEntries(map[], entries, offset), k))
                        == CategoryTimes(entries, offset, k)
  {
    if entries != [] {
      var prefix := entries[..|entries| - 1];
      var entry := entries[|entries| - 1];
      AddEntriesSpec(prefix, offset);
      if entry.dt.Some? {
        AddItemsSpec(AddEntries(map[], prefix, offset), entry.weather, Hhmm(entry.dt.value + offset));
      }
    }
  }

  /** A time is listed for a category exactly when some scanned entry with that
      local time carries a code of the category. */
  lemma {:induction false} CategoryTimesMembers(entries: seq<Entry>, offset: int, category: string, t: string)
    ensures t in CategoryTimes(entries, offset, category) <==>
              exists j :: 0 <= j < |entries| && t in EntryTimes(entries[j], offset, category)
  {
    if entries != [] {
      var prefix := entries[..|entries| - 1];
      CategoryTimesMembers(prefix, offset, category, t);
      if t in CategoryTimes(prefix, offset, category) {
        var j :| 0 <= j < |prefix| && t in EntryTimes(prefix[j], offset, category);
        assert entries[j] == prefix[j];
      }
      if exists j :: 0 <= j < |entries| && t in EntryTimes(entries[j], offset, category) {
        var j :| 0 <= j < |entries| && t in EntryTimes(entries[j], offset, category);
        if j < |prefix| {
          assert prefix[j] == entries[j];
        }
      }
    }
  }

  /** The result of the scan: every key is one of the four bad categories, and
      maps to a non-empty, strictly ascending list (so without duplicates)
      holding exactly the local times at which a scanned entry carries a code
      of that category. */
  lemma BadWeatherTimesShape(forecast: Forecast, nowMicros: int, hours: int)
    ensures var events := BadWeatherTimes(forecast, nowMicros, hours);
            var horizon := forecast.list[..HorizonEnd(forecast.list, Limit(nowMicros, hours))];
            var offset := forecast.cityTimezone.GetOr(0);
            && (forall k :: k in events ==> k in BadCategories && events[k] != [])
            && (forall k :: k in events ==> StrictlySorted(events[k]))
            && (forall k :: k in events <==> CategoryTimes(horizon, offset, k) != {})
            && (forall k :: k in events ==> Elements(events[k]) == CategoryTimes(horizon, offset, k))
  {
    var horizon := forecast.list[..HorizonEnd(forecast.list, Limit(nowMicros, hours))];
    var offset := forecast.cityTimezone.GetOr(0);
    var raw := AddEntries(map[], horizon, offset);
    AddEntriesSpec(horizon, offset);
    forall k | k in raw
      ensures StrictlySorted(SortStrings(raw[k]))
      ensures Elements(SortStrings(raw[k])) == Elements(raw[k])
      ensures SortStrings(raw[k]) != []
    {
      SortDistinct(raw[k]);
      assert raw[k][0] in Elements(raw[k]);
    }
    forall k
      ensures k in raw <==> CategoryTimes(horizon, offset, k) != {}
    {
      if k in raw {
        assert raw[k][0] in Elements(Get(raw, k));
      }
    }
  }

  /** The scan includes entry `j` exactly when no entry up to and including `j`
      has a time strictly after the limit; an entry exactly at the limit is
      included. */
  lemma {:induction false} HorizonIncludes(entries: seq<Entry>, limitMicros: int, j: nat)
    requires j < |entries|
    ensures j < HorizonEnd(entries, limitMicros) <==>
              forall i :: 0 <= i <= j ==> !PastLimit(entries[i], limitMicros)
  {
    var n := HorizonEnd(entries, limitMicros);
    if j >= n {
      assert PastLimit(entries[n], limitMicros);
    }
  }

  /** No entry after the one that stops the scan contributes, even one whose
      time is back inside the horizon: any continuation of the list gives the
      same result. */
  lemma ScanStopsAtFirstLateEntry(forecast: Forecast, nowMicros: int, hours: int, rest: seq<Entry>)
    requires HorizonEnd(forecast.list, Limit(nowMicros, hours)) < |forecast.list|
    ensures var n := HorizonEnd(forecast.list, Limit(nowMicros, hours));
            BadWeatherTimes(forecast.(list := forecast.list[..n + 1] + rest), nowMicros, hours)
            == BadWeatherTimes(forecast, nowMicros, hours)
  {
    var limit := Limit(nowMicros, hours);
    var n := HorizonEnd(forecast.list, limit);
    var other := forecast.list[..n + 1] + rest;
    assert other[..n] == forecast.list[..n];
    assert other[n] == forecast.list[n];
    assert forall i :: 0 <= i < n ==> other[i] == forecast.list[i];
    assert HorizonEnd(other, limit) == n;
  }

  /** Every listed time comes from an entry whose own time is at or before
      `now + hours`, with the city offset (0 when absent) added. */
  lemma TimesComeFromHorizon(forecast: Forecast, nowMicros: int, hours: int, category: string, t: string)
    requires category in BadWeatherTimes(forecast, nowMicros, hours)
    requires t in BadWeatherTimes(forecast, nowMicros, hours)[category]
    ensures exists j :: 0 <= j < |forecast.list|
              && !PastLimit(forecast.list[j], Limit(nowMicros, hours))
              && t in EntryTimes(forecast.list[j], forecast.cityTimezone.GetOr(0), category)
  {
    var n := HorizonEnd(forecast.list, Limit(nowMicros, hours));
    var horizon := forecast.list[..n];
    var offset := forecast.cityTimezone.GetOr(0);
    var raw := AddEntries(map[], horizon, offset);
    assert BadWeatherTimes(forecast, nowMicros, hours) == SortValues(raw);
    assert category in raw;
    var sorted := SortStrings(raw[category]);
    assert t in sorted;
    assert t in multiset(sorted);
    assert t in multiset(raw[category]);
    assert t in raw[category];
    AddEntriesSpec(horizon, offset);
    assert t in Elements(Get(raw, category));
    CategoryTimesMembers(horizon, offset, category, t);
    var j :| 0 <= j < |horizon| && t in EntryTimes(horizon[j], offset, category);
    assert horizon[j] == forecast.list[j];
  }

  // ---------------------------------------------------------------------------
  // Message text

  /** The first `n` elements of `s` (all of them when `n` is at least its
      length); a negative `n` drops `-n` elements from the end instead. */
  function PrefixSlice<T>(s: seq<T>, n: int): (r: seq<T>)
    ensures |r| <= |s| && r == s[..|r|]
    ensures 0 <= n ==> |r| == if n < |s| then n else |s|
  {
    if n >= 0 then s[..if n < |s| then n else |s|]
    else s[..if |s| + n > 0 then |s| + n else 0]
  }

  const MoreMarker: string := " (+more)"

  /** `_limit_times`: at most `maxItems` times, then a marker when some were
      left out. */
  function LimitTimes(times: seq<string>, maxItems: int): (r: string)
    ensures 0 <= maxItems && |times| <= maxItems ==> r == Join(", ", times)
    ensures 0 <= maxItems < |times| ==> r == Join(", ", times[..maxItems]) + MoreMarker
  {
    if |times| <= maxItems then Join(", ", times)
    else Join(", ", PrefixSlice(times, maxItems)) + MoreMarker
  }

  lemma {:induction false} JoinLength(xs: seq<string>, width: nat)
    requires xs != []
    requires forall i :: 0 <= i < |xs| ==> |xs[i]| == width
    ensures |Join(", ", xs)| == (width + 2) * |xs| - 2
  {
    if |xs| > 1 {
      JoinLength(xs[1..], width);
    }
  }

  /** With the default of four items, a list of `HH:MM` times renders in at
      most 34 characters: the first four joined, then the marker only when
      more remain. */
  lemma LimitTimesBound(times: seq<string>)
    requires forall i :: 0 <= i < |times| ==> |times[i]| == 5
    ensures |times| <= 4 ==> LimitTimes(times, 4) == Join(", ", times)
    ensures |times| > 4 ==> LimitTimes(times, 4) == Join(", ", times[..4]) + MoreMarker
    ensures |LimitTimes(times, 4)| <= 34
  {
    if |times| > 4 {
      JoinLength(times[..4], 5);
    } else if times != [] {
      JoinLength(times, 5);
    }
  }

  /** The country code as the message shows it: upper-cased, then stripped
      of surrounding whitespace; the same string as the stored country
      field. */
  function CountryNorm(country: string): (c: string)
    ensures c == Upper(Strip(country))
    ensures forall i :: 0 <= i < |c| ==> !IsLowerAscii(c[i])
    ensures c == [] || (!IsSpace(c[0]) && !IsSpace(c[|c| - 1]))
  {
    StripUpperCommute(country);
    Strip(Upper(country))
  }

  /** The labels of `build_sms`, in its fixed order Storm, Snow, Rain, Drizzle. */
  function Labels(events: Events): (labels: seq<string>)
    ensures |labels| <= 4
    ensures forall i :: 0 <= i < |labels| ==> labels[i] in ["Storm", "Snow", "Rain", "Drizzle"]
    ensures labels == [] <==> Thunderstorm !in events && Snow !in events && Rain !in events && Drizzle !in events
  {
    (if Thunderstorm in events then ["Storm"] else [])
    + (if Snow in events then ["Snow"] else [])
    + (if Rain in events then ["Rain"] else [])
    + (if Drizzle in events then ["Drizzle"] else [])
  }

  /** Position of a label in the precedence Storm > Snow > Rain > Drizzle. */
  function Rank(name: string): int {
    if name == "Storm" then 0
    else if name == "Snow" then 1
    else if name == "Rain" then 2
    else 3
  }

  /** Labels name exactly the present categories, and a storm is always
      named first. */
  lemma LabelsInPrecedence(events: Events)
    ensures "Storm" in Labels(events) <==> Thunderstorm in events
    ensures "Snow" in Labels(events) <==> Snow in events
    ensures "Rain" in Labels(events) <==> Rain in events
    ensures "Drizzle" in Labels(events) <==> Drizzle in events
    ensures Thunderstorm in events ==> Labels(events)[0] == "Storm"
    ensures Labels(events) == [] <==> forall k :: k in events ==> k !in BadCategories
  {
  }

  /** Labels come strictly in the precedence order Storm, Snow, Rain,
      Drizzle. */
  lemma LabelsRankedByPrecedence(events: Events)
    ensures Ranked(Labels(events))
  {
    var storm := if Thunderstorm in events then ["Storm"] else [];
    var snow := if Snow in events then ["Snow"] else [];
    var rain := if Rain in events then ["Rain"] else [];
    var drizzle := if Drizzle in events then ["Drizzle"] else [];
    OptionalLabel(storm, "Storm");
    OptionalLabel(snow, "Snow");
    OptionalLabel(rain, "Rain");
    OptionalLabel(drizzle, "Drizzle");
    RankedInOrder(storm, snow, rain, drizzle);
  }


  predicate Ranked(labels: seq<string>) {
    forall a, b :: 0 <= a < b < |labels| ==> Rank(labels[a]) < Rank(labels[b])
  }

  /** Two ranked lists, the first wholly below rank `r` and the second wholly
      at or above it, concatenate to a ranked list. */
  lemma RankedConcat(xs: seq<string>, ys: seq<string>, r: int)
    requires Ranked(xs) && Ranked(ys)
    requires forall i :: 0 <= i < |xs| ==> Rank(xs[i]) < r
    requires forall j :: 0 <= j < |ys| ==> r <= Rank(ys[j])
    ensures Ranked(xs + ys)
  {
    var zs := xs + ys;
    forall a, b | 0 <= a < b < |zs|
      ensures Rank(zs[a]) < Rank(zs[b])
    {
      if b < |xs| {
        assert zs[a] == xs[a] && zs[b] == xs[b];
      } else if a < |xs| {
        assert zs[a] == xs[a] && zs[b] == ys[b - |xs|];
      } else {
        assert zs[a] == ys[a - |xs|] && zs[b] == ys[b - |xs|];
      }
    }
  }

  /** Two lists wholly below rank `r` concatenate to one wholly below it. */
  lemma BelowConcat(xs: seq<string>, ys: seq<string>, r: int)
    requires forall i :: 0 <= i < |xs| ==> Rank(xs[i]) < r
    requires forall j :: 0 <= j < |ys| ==> Rank(ys[j]) < r
    ensures forall i :: 0 <= i < |xs + ys| ==> Rank((xs + ys)[i]) < r
  {
    forall i | 0 <= i < |xs + ys|
      ensures Rank((xs + ys)[i]) < r
    {
      if i >= |xs| {
        assert (xs + ys)[i] == ys[i - |xs|];
      }
    }
  }

  /** An optional label is ranked, and all of it has the label's rank. */
  lemma OptionalLabel(xs: seq<string>, name: string)
    requires xs == [] || xs == [name]
    ensures Ranked(xs)
    ensures forall i :: 0 <= i < |xs| ==> Rank(xs[i]) == Rank(name)
  {
  }

  /** Ranked lists of ranks 0, 1, 2 and 3 concatenated in that order are
      ranked. */
  lemma RankedInOrder(storm: seq<string>, snow: seq<string>, rain: seq<string>, drizzle: seq<string>)
    requires Ranked(storm) && Ranked(snow) && Ranked(rain) && Ranked(drizzle)
    requires forall i :: 0 <= i < |storm| ==> Rank(storm[i]) == 0
    requires forall i :: 0 <= i < |snow| ==> Rank(snow[i]) == 1
    requires forall i :: 0 <= i < |rain| ==> Rank(rain[i]) == 2
    requires forall i :: 0 <= i < |drizzle| ==> Rank(drizzle[i]) == 3
    ensures Ranked(storm + snow + rain + drizzle)
  {
    RankedConcat(storm, snow, 1);
    BelowConcat(storm, snow, 2);
    RankedConcat(storm + snow, rain, 2);
    BelowConcat(storm + snow, rain, 3);
    RankedConcat(storm + snow + rain, drizzle, 3);
  }





  const WarningSign: string := "\U{26A0}\U{FE0F}"
  const TestTube: string := "\U{1F9EA}"
  const CheckMark: string := "\U{2705}"

  function AlertText(country: string, postalCode: string, labels: seq<string>): string {
    WarningSign + " Weather alert (" + country + "-" + postalCode + ")\n"
    + Join(", ", labels) + " expected today.\n"
    + "Be prepared."
  }

  /** The message of the forced test mode. */
  function TestAlertText(country: string, postalCode: string): string {
    TestTube + " TEST ALERT (" + CountryNorm(country) + "-" + postalCode + ")\n"
    + "This is a dummy message to test Twilio + scheduler + DB flow " + CheckMark
  }

  /** The exception `build_sms` raises when no label applies: its f-string
      names `country_norm`, which is not defined there. */
  const NameErrorCountryNorm: string := "NameError: name 'country_norm' is not defined"

  /** `build_sms`: an alert naming every present category, or the `NameError`
      of its no-label branch. */
  function BuildSms(country: string, postalCode: string, events: Events): (r: Result<string>)
    ensures r.Err? <==> Labels(events) == []
    ensures r.Err? ==> r.error == NameErrorCountryNorm
    ensures r.Ok? ==> r.value == AlertText(CountryNorm(country), postalCode, Labels(events))
  {
    var labels := Labels(events);
    if labels == [] then Err(NameErrorCountryNorm)
    else Ok(AlertText(CountryNorm(country), postalCode, labels))
  }

  /** The text of `build_sms`'s no-label branch. */
  function FallbackText(country: string, postalCode: string): string {
    "TEST ALERT (" + country + "-" + postalCode + ")\n"
    + "Dummy message to test Twilio + scheduler + DB flow."
  }

  /** `build_sms` as evidently intended: the no-label branch names the
      normalised country instead of the undefined `country_norm`. It never
      fails, and agrees with `BuildSms` wherever that succeeds. */
  function BuildSmsCorrected(country: string, postalCode: string, events: Events): (text: string)
    ensures text != ""
    ensures BuildSms(country, postalCode, events).Ok? ==> text == BuildSms(country, postalCode, events).value
    ensures Labels(events) == [] ==> text == FallbackText(CountryNorm(country), postalCode)
  {
    var labels := Labels(events);
    if labels == [] then FallbackText(CountryNorm(country), postalCode)
    else AlertText(CountryNorm(country), postalCode, labels)
  }

  /** The no-label branch of `build_sms` as written raises instead of
      returning a message: with no bad-weather category at all, the call
      fails. */
  lemma BuildSmsFailsWithoutLabels(country: string, postalCode: string)
    ensures BuildSms(country, postalCode, map[]) == Err(NameErrorCountryNorm)
    ensures BuildSms(country, postalCode, map[Other := ["06:00"]]) == Err(NameErrorCountryNorm)
  {
  }

  /** `check_weather_and_build_sms`: `fetch` stands for `fetch_forecast` (an
      `Err` is any exception it raises) and `nowMicros` for the clock that
      `collect_bad_weather_times` reads. `Ok(None)` is the source's `None`. */
  function CheckWeatherAndBuildSms(
    forceSendAlert: bool, lat: real, lon: real, country: string, postalCode: string, hours: int,
    fetch: (real, real) -> Result<Forecast>, nowMicros: int): (r: Result<Option<string>>)
    ensures forceSendAlert ==> r == Ok(Some(TestAlertText(country, postalCode)))
    ensures !forceSendAlert && fetch(lat, lon).Err? ==> r == Err(fetch(lat, lon).error)
    ensures !forceSendAlert && fetch(lat, lon).Ok? ==>
              && r.Ok?
              && (r.value.None? <==> BadWeatherTimes(fetch(lat, lon).value, nowMicros, hours) == map[])
    ensures !forceSendAlert && fetch(lat, lon).Ok? && r.value.Some? ==>
              var events := BadWeatherTimes(fetch(lat, lon).value, nowMicros, hours);
              r.value.value == AlertText(CountryNorm(country), postalCode, Labels(events))
    ensures r.Ok? && r.value.Some? ==> r.value.value != ""
  {
    if forceSendAlert then Ok(Some(TestAlertText(country, postalCode)))
    else
      match fetch(lat, lon)
      case Err(e) => Err(e)
      case Ok(forecast) =>
        var events := BadWeatherTimes(forecast, nowMicros, hours);
        if events == map[] then Ok(None)
        else
          NameErrorUnreachable(forecast, nowMicros, hours, country, postalCode);
          Ok(Some(BuildSmsCorrected(country, postalCode, events)))
  }

  /** The `country_norm` branch of `build_sms` is unreachable from
      `check_weather_and_build_sms`: whenever the forecast has events, the
      message is the alert naming them. */
  lemma NameErrorUnreachable(forecast: Forecast, nowMicros: int, hours: int, country: string, postalCode: string)
    requires BadWeatherTimes(forecast, nowMicros, hours) != map[]
    ensures BuildSms(country, postalCode, BadWeatherTimes(forecast, nowMicros, hours)).Ok?
  {
    var events := BadWeatherTimes(forecast, nowMicros, hours);
    BadWeatherTimesShape(forecast, nowMicros, hours);
    var k :| k in events;
    LabelsInPrecedence(events);
  }

  /** The test-mode switch read from the environment: on exactly when the
      variable is set to "true" in any mix of upper and lower case; unset
      means "false". */
  function ForceSendAlert(env: Option<string>): (on: bool)
    ensures env.None? ==> !on
    ensures on <==>
              && env.Some? && |env.value| == 4
              && (env.value[0] == 't' || env.value[0] == 'T')
              && (env.value[1] == 'r' || env.value[1] == 'R')
              && (env.value[2] == 'u' || env.value[2] == 'U')
              && (env.value[3] == 'e' || env.value[3] == 'E')
  {
    Lower(env.GetOr("false")) == "true"
  }
}
