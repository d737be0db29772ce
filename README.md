# weather-alert in Dafny

This project models the core of weather-alert, a small Flask service that texts its subscribers a daily
bad-weather warning. A subscriber registers a phone number, a country code and a postal code. The
service geocodes the postal code, finds the time zone of the place and stores a row in the
`subscribers` table. A scheduled job then runs over the active subscribers. For each subscriber whose
local clock is inside the morning send window, and who was not served on that local date, it
fetches the five-day forecast. It collects the times in the next 24 hours at which thunderstorm,
drizzle, rain or snow is expected. If there are any, it sends one SMS naming the kinds of bad
weather expected (storm, snow, rain, drizzle), with an unsubscribe link.

The model has six modules:

- `Wrappers` (`wrappers.dfy`): `Option` and `Result`. `Result` stands for a raised exception.
- `Text` (`text.dfy`): the Python string operations the code relies on. These are `strip`, ASCII
  `upper` and `lower`, `", ".join`, Python's string order and sorting a list of strings.
- `WeatherService` (`weather_service.dfy`): the weather codes, the scan of the forecast, the
  message text and `check_weather_and_build_sms`. The scan is an imperative method with the same
  loop and early `break` as the source. It is proved equal to the function `BadWeatherTimes`, and
  the properties are proved about that function.
- `Models` (`models.dfy`): the `Subscriber` record. `SubscriberTable` is a class whose `rows`
  field is the table, in ascending `id` order. Its invariant says that ids ascend strictly and that
  phones and unsubscribe tokens are unique.
- `SendAlerts` (`send_alerts.dfy`): the daily job. `SendAlertsJob` updates the table in place and
  returns the counters and the sent messages. It is proved equal to the functions `Tally`,
  `Deliveries` and `RunTable`.
- `Routes` (`routes.dfy`): `normalize_phone`, `create_subscriber`, the unsubscribe route and the
  admin trigger. Each state-changing route is a method on the table, proved equal to a function
  (`Register`, `Unsubscribe`) that the lemmas are about.

Outside services are parameters. These are the forecast request, the geocoding request,
`TimezoneFinder`, the time-zone database, the SMS gateway and the clocks.

The clocks are modelled as follows:

- The job's instant `now_utc` is `nowUtc`, in microseconds.
- Each `collect_bad_weather_times` reads the clock again. That reading is `forecastClock(id)`.
- The forecast's `dt` values are whole seconds.

The settings come from the environment and are modelled as values:

- `WINDOW_MINUTES`, `TARGET_HOUR`, `BASE_URL` and `FORCE_SEND_ALERT` make up `Config`.
- `OPENWEATHER_API_KEY` is `Geo.apiKey`.
- `ADMIN_TOKEN` is a parameter of `AdminRunAlerts`.

There is no truncation of messages, and `FORCE_SEND_ALERT` only replaces the message text.
The window and the once-a-day check still apply (`SendAlerts.ForcedModeSendsTestAlert`).

## Model

| member | source | states |
|---|---|---|
| WeatherService.IsBadWeather | App/weather_service.py:14-20 | a code is bad exactly when it is in 200-399 or 500-699 |
| WeatherService.NormalizeType | App/weather_service.py:23-32 | the category is Thunderstorm, Drizzle, Rain or Snow exactly for the codes of its hundred-block, one of the four exactly for bad codes, and "Other" otherwise |
| WeatherService.HorizonEnd | App/weather_service.py:63-70 | the scan stops at the first entry whose `dt` is after the limit: every earlier entry is at or before it (or has no `dt`) |
| WeatherService.TwoDigitsReadsBack | App/weather_service.py:73 | a number below 100 renders as two decimal digits that read back as that number |
| WeatherService.Hhmm | App/weather_service.py:72-73 | the local time renders as five characters with a colon in the middle |
| WeatherService.HhmmReadsBack | App/weather_service.py:72-73 | the rendering is `HH:MM`: two digits reading back as the hour of the local day (0-23), a colon, two digits reading back as the minute of the hour (0-59) |
| WeatherService.CollectBadWeatherTimes | App/weather_service.py:55-89 | the scan followed by the per-list sort returns exactly `BadWeatherTimes` |
| WeatherService.ScanHorizon | App/weather_service.py:63-84 | the loop with its `continue` for entries without `dt`, its `break` at the first entry past the limit and its appends leaves the lists built from exactly the entries before that one |
| WeatherService.AppendBadTimes | App/weather_service.py:75-84 | the inner loop over an entry's codes adds the entry's `HH:MM` once to the list of each bad category it carries, skipping items without an id |
| WeatherService.SortEachList | App/weather_service.py:86-87 | sorting every list in place gives each key its sorted list and keeps the keys |
| WeatherService.AddTimeSpec | App/weather_service.py:83-84 | recording a time under a bad category adds it to that category's times only, and no list gains a repeat |
| WeatherService.AddItemsSpec | App/weather_service.py:75-84 | after one entry's items, the lists hold the distinct times of each bad category, keys are only bad categories, and lists are non-empty |
| WeatherService.AddEntriesSpec | App/weather_service.py:63-84 | after the scanned entries, each category's list holds exactly the local times of the entries carrying it, without duplicates |
| WeatherService.BadWeatherTimesShape | App/weather_service.py:55-89 | keys are exactly the bad categories seen in the horizon; each maps to a non-empty, strictly ascending list holding exactly that category's local times |
| WeatherService.HorizonIncludes | App/weather_service.py:68-70 | an entry is scanned iff no entry up to it is strictly after `now + hours`; an entry exactly at the limit is included |
| WeatherService.ScanStopsAtFirstLateEntry | App/weather_service.py:69-70 | entries after the first late one never contribute, even if their times fall back inside the horizon |
| WeatherService.TimesComeFromHorizon | App/weather_service.py:57-84 | every listed time is the offset-shifted `HH:MM` of an entry at or before `now + hours` carrying that category |
| WeatherService.CategoryTimesMembers | App/weather_service.py:72-84 | a time in a category's set comes from some scanned entry carrying that category |
| WeatherService.PrefixSlice | App/weather_service.py:95 | Python's `times[:n]` is a prefix, of length `n` capped at the list's length for `n >= 0` |
| WeatherService.LimitTimes | App/weather_service.py:92-95 | a list of at most `max_items` times is joined whole with ", "; a longer one is cut to its first `max_items` and followed by " (+more)" |
| WeatherService.LimitTimesBound | App/weather_service.py:92-95 | with four items, all times are joined when there are at most four, otherwise the first four and " (+more)"; the text is at most 34 characters |
| WeatherService.CountryNorm | App/weather_service.py:99 | the normalised country is the input stripped and upper-cased, the same string as the stored country field; it has no lower-case ASCII letter and no whitespace at either end |
| WeatherService.Labels | App/weather_service.py:101-109 | at most four labels, each one of Storm, Snow, Rain and Drizzle, and none exactly when none of the four categories is present |
| WeatherService.LabelsInPrecedence | App/weather_service.py:101-109 | each label appears iff its category is present, Storm comes first when present, and there are no labels iff no bad category is present |
| WeatherService.LabelsRankedByPrecedence | App/weather_service.py:101-109 | labels come strictly in the order Storm, Snow, Rain, Drizzle |
| WeatherService.BuildSms | App/weather_service.py:98-122 | as written: fails with the `NameError` exactly when no label applies, otherwise the alert text with the normalised country, the postal code and the labels |
| WeatherService.BuildSmsFailsWithoutLabels | App/weather_service.py:111-115 | with no bad category (an empty map, or only "Other") the call as written raises `NameError` |
| WeatherService.BuildSmsCorrected | App/weather_service.py:98-122 | the intended version never fails, agrees with `BuildSms` wherever that succeeds, and gives the fallback text with the normalised country when no label applies |
| WeatherService.CheckWeatherAndBuildSms | App/weather_service.py:126-148 | forced mode yields the test alert; a failed fetch propagates its error; otherwise the message is absent iff no bad weather is found, and is the alert naming the found categories |
| WeatherService.NameErrorUnreachable | App/weather_service.py:145-148 | whenever the scan found events, `build_sms` as written succeeds, so its failing branch is unreachable from `check_weather_and_build_sms` |
| WeatherService.ForceSendAlert | App/weather_service.py:8 | an unset variable means off; the switch is on exactly when the value is "true" in any mix of upper and lower case |
| Text.Upper | App/routes.py:36 | the result has the input's length, and each character is the input's character with an ASCII lower-case letter replaced by its capital |
| Text.Lower | App/weather_service.py:8 | the result has the input's length, and each character is the input's character with an ASCII capital replaced by its lower-case letter |
| Text.Strip | App/routes.py:36-37 | the result is a slice of the input whose removed ends are all whitespace and whose own ends are not whitespace |
| Text.StripUpperCommute | App/weather_service.py:99 | `upper().strip()` and `strip().upper()` give the same string |
| Text.Join | App/weather_service.py:94 | joining no strings gives "", joining one gives that string |
| Text.JoinAppend | App/weather_service.py:94 | joining one more string appends the separator and that string, so the separator stands exactly between consecutive strings |
| Text.Insert | App/weather_service.py:87 | inserting into a sorted list keeps it sorted and adds exactly one occurrence of the element |
| Text.SortStrings | App/weather_service.py:87 | `list.sort` gives a sorted permutation of the list |
| Text.SortDistinct | App/weather_service.py:83-87 | sorting a list without duplicates gives a strictly ascending list of the same elements |
| Models.FindByPhone | App/routes.py:48 | finds a row with the phone when one exists, and reports none exactly when no row has it |
| Models.FindByToken | App/routes.py:139 | finds a row with the token when one exists, and reports none exactly when no row has it |
| Models.NextId | App/routes.py:109-110 | a new row's id is above every existing id |
| Models.SubscriberTable.constructor | App/models.py:5-35 | an empty table satisfies the table constraints |
| SendAlerts.BaseUrl | App/send_alerts.py:25 | the unsubscribe base URL defaults to the local development address |
| SendAlerts.ActivePositions | App/send_alerts.py:16 | the active rows, in table order, all of them and only them |
| SendAlerts.ActiveQuery | App/send_alerts.py:16-20 | the job only examines active rows, each once, in ascending position |
| SendAlerts.ActiveQueryOrder | App/send_alerts.py:16-20 | the rows examined are active and in ascending id order; a truthy limit keeps the first `limit` of them, and `None` or 0 keeps all |
| SendAlerts.Tally | App/send_alerts.py:22-81 | `checked` counts every examined subscriber and equals alerted + skipped + errors |
| SendAlerts.FullMessage | App/send_alerts.py:66-67 | the sent text is the alert text, a blank line, "Unsubscribe: ", the base URL, and `/unsubscribe/` followed by the subscriber's token |
| SendAlerts.Count | App/send_alerts.py:28-80 | each subscriber increments `checked`; a skip increments `skipped`, an error `errors` and a send `alerted`, and the other counters stay |
| SendAlerts.Deliveries | App/send_alerts.py:69-77 | one accepted message per alerted subscriber; every message is the phone and body of an alerted outcome (`AlertMessage`), and every alerted outcome's message is among them |
| SendAlerts.CheckSubscriber | App/send_alerts.py:28-81 | one turn of the loop: the checks in order, then `Notify`; the outcome and the new row are those of `SubscriberOutcome` and `Visit`, whose decision `EarlySkipReasons`, `WeatherDecision` and `AlertConditions` pin down |
| SendAlerts.Notify | App/send_alerts.py:55-81 | the rest of the turn after the gates: the outcome is `MessageOutcome` and only a sent alert updates the row |
| SendAlerts.CheckAll | App/send_alerts.py:27-81 | the loop over the queried subscribers returns the tally and the accepted messages of their outcomes in order and leaves the table as `RunTable` |
| SendAlerts.SendAlertsJob | App/send_alerts.py:15-84 | the job returns the tally and the accepted messages over the query's outcomes, leaves the table as `RunTable`, and keeps the table constraints |
| SendAlerts.RunTableKeepsInvariant | App/send_alerts.py:75-76 | a run touches only the send-state fields, so ids, phones and tokens stay valid |
| SendAlerts.StatsAddUp | App/send_alerts.py:22-81 | for any run, `checked` is the number of subscribers queried, the counters add up, and the number of messages is `alerted` |
| SendAlerts.RunTableRow | App/send_alerts.py:75-76 | a row not alerted is unchanged; an alerted row gets the local date and the run's instant and nothing else |
| SendAlerts.EarlySkipsUseNoService | App/send_alerts.py:31-53 | skips for a missing or unknown zone, the window or an earlier send today happen before the forecast and the gateway are consulted |
| SendAlerts.EarlySkipReasons | App/send_alerts.py:31-53 | no zone name is the `NoTimezone` skip, a zone that does not resolve the `UnknownTimezone` skip, a local time outside the window the `OutsideWindow` skip, and an earlier send on that local date the `AlreadySentToday` skip, tested in that order |
| SendAlerts.WeatherDecision | App/send_alerts.py:55-81 | for a subscriber past the gates outside test mode, a failed forecast is an error, a forecast without bad weather in the horizon is the empty-message skip, and otherwise the alert naming the forecast's kinds of bad weather, with the unsubscribe link, is sent to the subscriber's phone, or is an error when the send fails |
| SendAlerts.AlertConditions | App/send_alerts.py:41-77 | an alert is sent only inside the window, only if not already sent on that local date, to the subscriber's phone, and its body is the test alert in test mode and otherwise the alert naming the kinds of bad weather of a forecast that holds some, followed by the subscriber's unsubscribe link |
| SendAlerts.AtMostOneAlertPerLocalDay | App/send_alerts.py:50-53 | the row a run leaves for an alerted subscriber is not alerted again by a later run on that table at any instant falling on the same local date |
| SendAlerts.SecondRunAlertsNobodyTwice | App/send_alerts.py:50-53 | a second run at the same instant skips every subscriber the first run alerted as already served |
| SendAlerts.ForcedModeSendsTestAlert | App/weather_service.py:135-140 | in forced mode, a subscriber inside the window and not yet served gets the test alert, or an error if the gateway fails |
| Routes.KeepPhoneChars | App/routes.py:26 | only digits and `+` remain, and the result is no longer than the input |
| Routes.KeepPhoneCharsCounts | App/routes.py:26 | each digit and `+` is kept exactly as often as it occurs, and every other character is dropped |
| Routes.KeepPhoneCharsConcat | App/routes.py:26 | filtering distributes over concatenation, so the kept characters keep their order |
| Routes.KeepPhoneCharsFixed | App/routes.py:26 | a string of digits and `+` is left unchanged |
| Routes.NormalizePhone | App/routes.py:22-31 | the result is "" or starts with `+`, holds only digits and `+`, and is the filtered input when not empty |
| Routes.NormalizePhoneIdempotent | App/routes.py:22-31 | normalising a normalised number changes nothing |
| Routes.NormalizePhoneSpelling | App/routes.py:22-31 | inputs with the same digits and `+` normalise alike; a number is accepted iff its filtered form starts with `+` |
| Routes.Admit | App/routes.py:48-79 | after the fields are read: an active row with the phone gives 409; otherwise a missing or empty API key gives 500; otherwise the answer is that of the geocoding step; an accepted sign-up has no active row for the phone and a located place |
| Routes.Screen | App/routes.py:35-79 | an empty normalised phone gives 400 with the international-format message; a valid phone with an empty country or postal code gives 400 for missing fields; valid fields go on to `Admit`; refusals carry 400, 409, 500 or 502; an accepted sign-up has a valid phone, non-empty fields, no active row for the phone, an API key, and a geocoding result with both coordinates, whose zone is looked up |
| Routes.Locate | App/routes.py:60-76 | an HTTP error gives 400 with the invalid-postal-code message, missing coordinates 400 with the missing-coordinates message, an unavailable service 502 with its message and invalid JSON 502 with its message; otherwise the place is the answer's coordinates and name with the zone found there |
| Routes.CreateSubscriber | App/routes.py:34-111 | the route as it runs: its answer and the new table are those of `Register`, and the table constraints are kept |
| Routes.Store | App/routes.py:81-111 | the commit fails, leaving the table unchanged, exactly when another phone's row holds the fresh token; otherwise the answer carries the stored row with the new fields and 200 with the same row count, or 201 with one row more |
| Routes.StoreKeepsInvariant | App/routes.py:81-111 | reactivating or inserting keeps ids ascending and phones and tokens unique |
| Routes.RegisterKeepsInvariant | App/routes.py:34-111 | registration keeps ids ascending and phones and tokens unique |
| Routes.RegisterFailuresChangeNothing | App/routes.py:39-76 | every refusal (400, 409, 500, 502) and every failed commit leaves the table unchanged; a response carries a subscriber iff its status is 200 or 201, and an error message otherwise |
| Routes.RegisterValidatesFirst | App/routes.py:39-46 | an invalid phone or a missing field gives 400 whatever the table and the services |
| Routes.RegisterConflictIff | App/routes.py:48-50 | a valid sign-up gets 409 iff an active row holds the normalised phone |
| Routes.StoreReactivates | App/routes.py:81-96 | an inactive row for the phone is overwritten in place with 200, keeping its id and creation time, with the new fields, a fresh token and a cleared send state; a token held by another row makes the commit fail |
| Routes.ReactivationReopensGate | App/routes.py:89 | re-registering an unsubscribed number clears its last alert date, so the next run does not skip it as already alerted that local day, and the job's query finds it again |
| Routes.StoreAppends | App/routes.py:98-111 | a new phone is appended with 201 under an id above all others, with the creation instant, the fields, the fresh token and a cleared send state; a token already held makes the commit fail |
| Routes.ValidSignUpIsStored | App/routes.py:35-111 | a sign-up passing every check, with a geocoded place and a token no row holds, is stored: 201 with a new row when no row has the phone, 200 otherwise, the stored row carrying the request's fields and the place |
| Routes.RegisterSuccess | App/routes.py:35-79 | a successful registration stores the normalised phone, the stripped upper-cased country, the stripped postal code, the geocoded place and its zone |
| Routes.SecondSignUpConflicts | App/routes.py:48-50 | after a successful sign-up, a second valid sign-up for the same number gets 409 and changes nothing |
| Routes.Unsubscribe | App/routes.py:137-160 | the table keeps its size, and a successful unsubscribe names the phone of the active row holding the token |
| Routes.UnsubscribeStatusCodes | App/routes.py:141-160 | the route answers 404 exactly when no row, active or not, holds the token, and 200 otherwise |
| Routes.UnsubscribeByToken | App/routes.py:137-160 | the route as it runs: its answer and the new table are those of `Unsubscribe`, and the table constraints are kept |
| Routes.UnsubscribeKeepsInvariant | App/routes.py:137-160 | only the active flag of the token's row is cleared, and the token stays; a subscriber is unsubscribed iff an active row holds the token; an unknown token gives not-found and no change |
| Routes.UnsubscribeIdempotent | App/routes.py:147-151 | following the same link again reports "already unsubscribed" and changes nothing |
| Routes.UnsubscribedNeverAlerted | App/send_alerts.py:16 | after unsubscribing, the row is never examined by the daily job, whatever its limit |
| Routes.ResubscribeReusesRow | App/routes.py:48-96 | re-registering an unsubscribed number never creates a second row and never gets 409 |
| Routes.AdminRunAlerts | App/routes.py:190-198 | without a configured, non-empty admin token equal to the header, the answer is 401 and the job does not run; otherwise the job runs over all active subscribers and its counters are returned with 200 |

## Left out

- The HTTP requests (forecast, geocoding), Twilio, `ZoneInfo`, `TimezoneFinder` and the clocks are parameters. Each is treated as a deterministic function of its arguments. A request failure is an `Err` or one of the `GeoResponse` failure cases.
- `fetch_forecast` is not modelled separately. Its API-key check and request errors are all an `Err` of the `fetch` parameter. App/sms_service.py is not part of this model beyond the `sendSms` parameter.
- Flask itself is not modelled: templates, `jsonify`, the home page, `subscribe_form`'s page text, the `preview` route and the `print` logging.
- The job writes all its row updates in one `db.session.commit()` at the end (App/send_alerts.py:83). A crash after some messages were sent and before that commit loses their send dates, and the next run sends them again; the model treats a run as completing.
- Two runs at once, the admin route (App/routes.py:198) and the scheduled command, are not modelled. Each would read the rows before the other commits, and both could alert the same subscriber; `SendAlerts.AtMostOneAlertPerLocalDay` is about runs one after the other on the same table.
- A body that is not JSON: which handler answers it depends on the `requests` version. From `requests` 2.27 the decoding error is also a `RequestException`, so the answer is 502 with the "service unavailable" message; before, it is the `ValueError` branch. `GeoInvalidJson` stands for a `ValueError` that is not a `RequestException`.
- The job's final `db.session.commit` failing is not modelled. In `create_subscriber`, the only modelled commit failure is a clash on the unique `unsubscribe_token`. A `uuid4` collision is left as a possibility rather than assumed away.
- Subscriber objects are records in a sequence, not separate heap objects. The session's identity map and aliasing are not modelled.
- Payloads of the wrong type are not modelled: a non-dict `city`, a non-numeric `dt`, `id`, `lat` or `lon`, and the `TypeError` or `ValueError` that `int()` or `float()` would raise on them. `dt`, `id` and the city offset are integers. Latitude and longitude are reals without floating-point arithmetic.
- Exceptions in the job other than a failed forecast or a failed send are not modelled, such as a `datetime` overflow in `astimezone`. An unresolvable zone is the `UnknownTimezone` skip.
- Upper: `Text.Upper` maps only the ASCII letters; Python's `str.upper` also maps non-ASCII letters (and can lengthen a string, as `ß` becomes `SS`), which the model does not.
- Lower: `Text.Lower` maps only the ASCII letters; Python's `str.lower` also maps non-ASCII letters, which the model does not.
- Routes.KeepPhoneChars: `\d` is taken as the ASCII digits, not every Unicode decimal digit that Python's `re` accepts.
- SendAlerts.ActiveQuery: the limit is a natural number. A negative limit, which the query would pass to the database, is not modelled.
- Routes.Locate: coordinates outside [-90, 90] and [-180, 180] are passed to the zone lookup as they are. `timezonefinder` is not part of this model; where it rejects such coordinates with a `ValueError`, the route fails with an uncaught error, which `timezoneAt` (a total function) does not represent.
- Column length limits (`String(2)`, `String(32)` and so on) are not modelled. The database is whatever `DATABASE_URL` names (App/__init__.py:12-16); on a backend that enforces the lengths, an over-long field makes the commit fail and the request end in a 500, which the model does not represent.
- Parsing the environment variables into `Config` is not modelled, for example `int()` of `SEND_WINDOW_MINUTES` failing. `Config` holds the parsed values. `SendAlerts.BaseUrl` and `WeatherService.ForceSendAlert` model two of those readings on their own; nothing in the model ties them to `Config.baseUrl` and `Config.forceSendAlert`.

## Findings

| source | as written | input that shows it | evidently intended | confidence | as-written member | corrected member |
|---|---|---|---|---|---|---|
| App/weather_service.py:111-115 | the no-label branch of `build_sms` formats `country_norm`, a name not defined in that function, so it raises `NameError` | `build_sms("de", "10115", {})` | the fallback text naming the normalised `country` | high; not executed | WeatherService.BuildSmsFailsWithoutLabels | WeatherService.BuildSmsCorrected |

`check_weather_and_build_sms` calls `build_sms` only when events were found. So the failing branch cannot be reached from the job (`WeatherService.NameErrorUnreachable`). The model of `check_weather_and_build_sms` uses the corrected version, which gives the same result there.
