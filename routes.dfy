/** Registration, unsubscription and the admin trigger (App/routes.py).

    The geocoding request and `TimezoneFinder` become the functions of a
    `Geo` value; the fresh `uuid4().hex` token and the insertion instant are
    parameters. Each state-changing route is a method on the table, proved
    equal to a function that states its result and the table after it. */
module Routes {
  import opened Wrappers
  import opened Text
  import opened Models
  import opened SendAlerts

  // ---------------------------------------------------------------------------
  // Phone numbers

  predicate IsAsciiDigit(c: char) {
    '0' <= c <= '9'
  }

  predicate PhoneChar(c: char) {
    IsAsciiDigit(c) || c == '+'
  }

  /** `s` with every character other than an ASCII digit and `+` removed. Each kept character keeps its number of occurrences. */
  function KeepPhoneChars(s: string): (r: string)
    ensures |r| <= |s|
    ensures forall i :: 0 <= i < |r| ==> PhoneChar(r[i])
  {
    if s == [] then []
    else KeepPhoneChars(s[..|s| - 1]) + if PhoneChar(s[|s| - 1]) then [s[|s| - 1]] else []
  }

  /** Each digit and `+` is kept as often as it occurs, and nothing else. */
  lemma {:induction false} KeepPhoneCharsCounts(s: string)
    ensures forall c :: multiset(KeepPhoneChars(s))[c] == if PhoneChar(c) then multiset(s)[c] else 0
  {
    if s != [] {
      var init := s[..|s| - 1];
      KeepPhoneCharsCounts(init);
      assert s == init + [s[|s| - 1]];
    }
  }

  /** Filtering works piece by piece, so the kept characters stay in their
      original order. */
  lemma {:induction false} KeepPhoneCharsConcat(a: string, b: string)
    ensures KeepPhoneChars(a + b) == KeepPhoneChars(a) + KeepPhoneChars(b)
    decreases |b|
  {
    if b != [] {
      var init := b[..|b| - 1];
      assert a + b == (a + init) + [b[|b| - 1]];
      assert (a + b)[..|a + b| - 1] == a + init;
      KeepPhoneCharsConcat(a, init);
    } else {
      assert a + b == a;
    }
  }

  /** A string made only of digits and `+` is left as it is. */
  lemma {:induction false} KeepPhoneCharsFixed(s: string)
    requires forall i :: 0 <= i < |s| ==> PhoneChar(s[i])
    ensures KeepPhoneChars(s) == s
  {
    if s != [] {
      var init := s[..|s| - 1];
      KeepPhoneCharsFixed(init);
      assert KeepPhoneChars(s) == init + [s[|s| - 1]];
      assert s == init + [s[|s| - 1]];
    }
  }

  /** `normalize_phone`: the digits and `+` signs of the input, or `""` when
      the input is missing or empty or the result does not start with `+`. */
  function NormalizePhone(phone: Option<string>): (r: string)
    ensures r == "" || r[0] == '+'
    ensures forall i :: 0 <= i < |r| ==> PhoneChar(r[i])
    ensures phone.None? ==> r == ""
    ensures r != "" ==> r == KeepPhoneChars(phone.value)
  {
    if phone.None? || phone.value == "" then ""
    else
      var kept := KeepPhoneChars(phone.value);
      if |kept| > 0 && kept[0] == '+' then kept else ""
  }

  /** Normalising a normalised number changes nothing. */
  lemma NormalizePhoneIdempotent(phone: Option<string>)
    ensures NormalizePhone(Some(NormalizePhone(phone))) == NormalizePhone(phone)
  {
    var r := NormalizePhone(phone);
    KeepPhoneCharsFixed(r);
  }

  /** Spaces, dashes and brackets do not matter: a number is accepted exactly
      when its first digit-or-plus character is `+`, and two spellings with the
      same digits and `+` signs normalise alike. */
  lemma NormalizePhoneSpelling(a: string, b: string)
    requires KeepPhoneChars(a) == KeepPhoneChars(b)
    ensures NormalizePhone(Some(a)) == NormalizePhone(Some(b))
    ensures NormalizePhone(Some(a)) != "" <==> KeepPhoneChars(a) != [] && KeepPhoneChars(a)[0] == '+'
  {
    if a == "" {
      assert KeepPhoneChars(a) == [];
    }
    if b == "" {
      assert KeepPhoneChars(b) == [];
    }
  }

  // ---------------------------------------------------------------------------
  // Registration

  const InvalidPhoneMessage: string := "Please enter phone number in international format, e.g. +49 1234 5678 90"
  const MissingFieldsMessage: string := "Missing required fields"
  const AlreadySubscribedMessage: string := "Phone number already subscribed"
  const NoApiKeyMessage: string := "OPENWEATHER_API_KEY is not set"
  const InvalidPostalMessage: string := "Invalid postal code or country code."
  const GeoUnavailableMessage: string := "Geocoding service unavailable. Please try again."
  const GeoInvalidJsonMessage: string := "Geocoding returned invalid JSON."
  const GeoMissingMessage: string := "Geocoding failed! (lat/lon) is missing"
  /** The unique constraint on `unsubscribe_token` rejecting the commit. */
  const TokenConflictMessage: string := "IntegrityError: UNIQUE constraint failed: subscribers.unsubscribe_token"

  /** What the geocoding request yields: an HTTP error status, another
      request failure, a `ValueError` from decoding the body that is not
      also a request failure, or the `lat`, `lon` and `name` fields of the
      JSON body. */
  datatype GeoResponse =
    | GeoHttpError
    | GeoUnavailable
    | GeoInvalidJson
    | GeoData(lat: Option<real>, lon: Option<real>, name: Option<string>)

  /** The outside services registration consults.
      - `apiKey`: `OPENWEATHER_API_KEY`.
      - `geocode(zip, key)`: the ZIP geocoding request with its `zip` and
        `appid` parameters.
      - `timezoneAt(lat, lon)`: `TimezoneFinder().timezone_at`. */
  datatype Geo = Geo(
    apiKey: Option<string>,
    geocode: (string, string) -> GeoResponse,
    timezoneAt: (real, real) -> Option<string>)

  /** The form fields of a sign-up. */
  datatype SignUp = SignUp(phone: Option<string>, country: Option<string>, postalCode: Option<string>)

  /** What `create_subscriber` answers: the stored subscriber, an error message, and the HTTP status. */
  datatype CreateResponse = CreateResponse(subscriber: Option<Subscriber>, error: Option<string>, status: int)

  /** A route's answer together with the table after it. `result` is `Err`
      when the commit raises. */
  datatype Registration = Registration(result: Result<CreateResponse>, rows: seq<Subscriber>)

  function Refuse(rows: seq<Subscriber>, message: string, status: int): Registration {
    Registration(Ok(CreateResponse(None, Some(message), status)), rows)
  }

  /** The country code as stored: stripped and upper-cased. */
  function CountryField(country: Option<string>): string {
    Upper(Strip(country.GetOr("")))
  }

  /** The postal code as stored: stripped. */
  function PostalField(postalCode: Option<string>): string {
    Strip(postalCode.GetOr(""))
  }

  /** A geocoded place and the zone found for it. */
  datatype Place = Place(lat: real, lon: real, name: Option<string>, timezone: Option<string>)

  /** How the checks of a sign-up end: refused with a message and a status,
      or accepted with the place to store. */
  datatype Screening = Refused(message: string, status: int) | Accepted(place: Place)

  /** The checks of `create_subscriber`, in order, up to the geocoding
      result. */
  function Screen(rows: seq<Subscriber>, req: SignUp, geo: Geo): (sc: Screening)
    requires TableInvariant(rows)
    ensures sc.Refused? ==> sc.status in {400, 409, 500, 502}
    ensures sc.Accepted? ==>
              && NormalizePhone(req.phone) != "" && CountryField(req.country) != "" && PostalField(req.postalCode) != ""
              && (forall i :: 0 <= i < |rows| && rows[i].phone == NormalizePhone(req.phone) ==> !rows[i].isActive)
              && geo.apiKey.Some? && geo.apiKey.value != ""
              && Located(geo.geocode(PostalField(req.postalCode) + "," + CountryField(req.country), geo.apiKey.value),
                         geo.timezoneAt, sc.place)
    ensures NormalizePhone(req.phone) == "" ==> sc == Refused(InvalidPhoneMessage, 400)
    ensures NormalizePhone(req.phone) != "" && (CountryField(req.country) == "" || PostalField(req.postalCode) == "") ==>
              sc == Refused(MissingFieldsMessage, 400)
    ensures NormalizePhone(req.phone) != "" && CountryField(req.country) != "" && PostalField(req.postalCode) != "" ==>
              sc == Admit(rows, NormalizePhone(req.phone), CountryField(req.country), PostalField(req.postalCode), geo)
  {
    var phone := NormalizePhone(req.phone);
    var country := CountryField(req.country);
    var postal := PostalField(req.postalCode);
    if phone == "" then Refused(InvalidPhoneMessage, 400)
    else if country == "" || postal == "" then Refused(MissingFieldsMessage, 400)
    else Admit(rows, phone, country, postal, geo)
  }

  /** The checks of `create_subscriber` after the fields are read: an active
      row for the phone, the API key, then the geocoding. */
  function Admit(rows: seq<Subscriber>, phone: string, country: string, postal: string, geo: Geo): (sc: Screening)
    requires TableInvariant(rows)
    ensures sc.Refused? ==> sc.status in {409, 500, 400, 502}
    ensures sc.Accepted? ==>
              && (forall i :: 0 <= i < |rows| && rows[i].phone == phone ==> !rows[i].isActive)
              && geo.apiKey.Some? && geo.apiKey.value != ""
              && Located(geo.geocode(postal + "," + country, geo.apiKey.value), geo.timezoneAt, sc.place)
    ensures (exists i :: 0 <= i < |rows| && rows[i].phone == phone && rows[i].isActive) ==>
              sc == Refused(AlreadySubscribedMessage, 409)
    ensures (forall i :: 0 <= i < |rows| && rows[i].phone == phone ==> !rows[i].isActive)
            && (geo.apiKey.None? || geo.apiKey.value == "") ==>
              sc == Refused(NoApiKeyMessage, 500)
    ensures (forall i :: 0 <= i < |rows| && rows[i].phone == phone ==> !rows[i].isActive)
            && geo.apiKey.Some? && geo.apiKey.value != "" ==>
              sc == Locate(geo.geocode(postal + "," + country, geo.apiKey.value), geo.timezoneAt)
  {
    var existing := FindByPhone(rows, phone);
    if existing.Some? && rows[existing.value].isActive then Refused(AlreadySubscribedMessage, 409)
    else if geo.apiKey.None? || geo.apiKey.value == "" then Refused(NoApiKeyMessage, 500)
    else Locate(geo.geocode(postal + "," + country, geo.apiKey.value), geo.timezoneAt)
  }


  /** `place` is what a geocoding answer gives: its coordinates, both
      present, its name, and the zone found at the coordinates. */
  predicate Located(resp: GeoResponse, timezoneAt: (real, real) -> Option<string>, place: Place) {
    && resp.GeoData? && resp.lat == Some(place.lat) && resp.lon == Some(place.lon)
    && place.name == resp.name && place.timezone == timezoneAt(place.lat, place.lon)
  }

  /** The handling of the geocoding answer in `create_subscriber`. */
  function Locate(resp: GeoResponse, timezoneAt: (real, real) -> Option<string>): (sc: Screening)
    ensures sc.Refused? ==> sc.status in {400, 502}
    ensures sc.Refused? ==> (sc.status == 502 <==> resp.GeoUnavailable? || resp.GeoInvalidJson?)
    ensures sc.Accepted? <==> resp.GeoData? && resp.lat.Some? && resp.lon.Some?
    ensures sc.Accepted? ==> Located(resp, timezoneAt, sc.place)
    ensures resp.GeoHttpError? ==> sc == Refused(InvalidPostalMessage, 400)
    ensures resp.GeoUnavailable? ==> sc == Refused(GeoUnavailableMessage, 502)
    ensures resp.GeoInvalidJson? ==> sc == Refused(GeoInvalidJsonMessage, 502)
    ensures resp.GeoData? && (resp.lat.None? || resp.lon.None?) ==> sc == Refused(GeoMissingMessage, 400)
  {
    match resp
    case GeoHttpError => Refused(InvalidPostalMessage, 400)
    case GeoUnavailable => Refused(GeoUnavailableMessage, 502)
    case GeoInvalidJson => Refused(GeoInvalidJsonMessage, 502)
    case GeoData(lat, lon, name) =>
      if lat.None? || lon.None? then Refused(GeoMissingMessage, 400)
      else Accepted(Place(lat.value, lon.value, name, timezoneAt(lat.value, lon.value)))
  }

  /** The write of `create_subscriber` once the checks pass: the inactive row
      with the phone is reactivated, or a new row is appended. A fresh token
      already held by another row makes the commit fail. */
  function Store(rows: seq<Subscriber>, phone: string, country: string, postal: string, place: Place,
                 freshToken: string, nowUtc: int): (reg: Registration)
    requires TableInvariant(rows)
    ensures reg.result.Err? <==>
              exists q :: 0 <= q < |rows| && rows[q].unsubscribeToken == freshToken && rows[q].phone != phone
    ensures reg.result.Err? ==> reg.rows == rows
    ensures reg.result.Ok? ==>
              && reg.result.value.error.None?
              && reg.result.value.subscriber.Some?
              && Holds(reg.result.value.subscriber.value, phone, country, postal, place, freshToken)
              && reg.result.value.subscriber.value in reg.rows
    ensures reg.result.Ok? ==>
              || (reg.result.value.status == 200 && |reg.rows| == |rows|)
              || (reg.result.value.status == 201 && |reg.rows| == |rows| + 1)
  {
    var existing := FindByPhone(rows, phone);
    var holder := FindByToken(rows, freshToken);
    if existing.Some? then
      var p := existing.value;
      if holder.Some? && holder.value != p then Registration(Err(TokenConflictMessage), rows)
      else
        var s := rows[p].(country := country, postalCode := postal, locationName := place.name,
                          lat := place.lat, lon := place.lon, timezone := place.timezone,
                          lastDailySentLocalDate := None, isActive := true,
                          unsubscribeToken := freshToken, lastNotifiedAt := None);
        var after := rows[p := s];
        assert after[p] == s;
        Registration(Ok(CreateResponse(Some(s), None, 200)), after)
    else if holder.Some? then Registration(Err(TokenConflictMessage), rows)
    else
      var s := Subscriber(NextId(rows), phone, country, postal, place.name, place.lat, place.lon, place.timezone,
                          None, true, freshToken, nowUtc, None);
      Registration(Ok(CreateResponse(Some(s), None, 201)), rows + [s])
  }

  /** `create_subscriber` on the table `rows`. */
  function Register(rows: seq<Subscriber>, req: SignUp, geo: Geo, freshToken: string, nowUtc: int): (reg: Registration)
    requires TableInvariant(rows)
  {
    match Screen(rows, req, geo)
    case Refused(message, status) => Refuse(rows, message, status)
    case Accepted(place) =>
      Store(rows, NormalizePhone(req.phone), CountryField(req.country), PostalField(req.postalCode),
            place, freshToken, nowUtc)
  }

  /** `create_subscriber` as it runs against the database. */
  method CreateSubscriber(db: SubscriberTable, req: SignUp, geo: Geo, freshToken: string, nowUtc: int)
    returns (r: Result<CreateResponse>)
    requires db.Valid()
    modifies db
    ensures db.Valid()
    ensures r == Register(old(db.rows), req, geo, freshToken, nowUtc).result
    ensures db.rows == Register(old(db.rows), req, geo, freshToken, nowUtc).rows
  {
    RegisterKeepsInvariant(db.rows, req, geo, freshToken, nowUtc);
    var phone := NormalizePhone(req.phone);
    var country := CountryField(req.country);
    var postal := PostalField(req.postalCode);
    if phone == "" {
      return Ok(CreateResponse(None, Some(InvalidPhoneMessage), 400));
    }
    if country == "" || postal == "" {
      return Ok(CreateResponse(None, Some(MissingFieldsMessage), 400));
    }
    var existing := FindByPhone(db.rows, phone);
    if existing.Some? && db.rows[existing.value].isActive {
      return Ok(CreateResponse(None, Some(AlreadySubscribedMessage), 409));
    }
    if geo.apiKey.None? || geo.apiKey.value == "" {
      return Ok(CreateResponse(None, Some(NoApiKeyMessage), 500));
    }
    var geoResp := geo.geocode(postal + "," + country, geo.apiKey.value);
    if geoResp.GeoHttpError? {
      return Ok(CreateResponse(None, Some(InvalidPostalMessage), 400));
    }
    if geoResp.GeoUnavailable? {
      return Ok(CreateResponse(None, Some(GeoUnavailableMessage), 502));
    }
    if geoResp.GeoInvalidJson? {
      return Ok(CreateResponse(None, Some(GeoInvalidJsonMessage), 502));
    }
    if geoResp.lat.None? || geoResp.lon.None? {
      return Ok(CreateResponse(None, Some(GeoMissingMessage), 400));
    }
    var lat := geoResp.lat.value;
    var lon := geoResp.lon.value;
    var tzName := geo.timezoneAt(lat, lon);
    var holder := FindByToken(db.rows, freshToken);
    if existing.Some? {
      var p := existing.value;
      if holder.Some? && holder.value != p {
        return Err(TokenConflictMessage);
      }
      var s := db.rows[p].(country := country, postalCode := postal, locationName := geoResp.name,
                           lat := lat, lon := lon, timezone := tzName,
                           lastDailySentLocalDate := None, isActive := true,
                           unsubscribeToken := freshToken, lastNotifiedAt := None);
      db.rows := db.rows[p := s];
      return Ok(CreateResponse(Some(s), None, 200));
    }
    if holder.Some? {
      return Err(TokenConflictMessage);
    }
    var subscriber := Subscriber(NextId(db.rows), phone, country, postal, geoResp.name, lat, lon, tzName,
                                 None, true, freshToken, nowUtc, None);
    db.rows := db.rows + [subscriber];
    return Ok(CreateResponse(Some(subscriber), None, 201));
  }

  /** Storing keeps the ids ascending and the phones and tokens unique. */
  lemma StoreKeepsInvariant(rows: seq<Subscriber>, phone: string, country: string, postal: string, place: Place,
                            freshToken: string, nowUtc: int)
    requires TableInvariant(rows)
    ensures TableInvariant(Store(rows, phone, country, postal, place, freshToken, nowUtc).rows)
  {
    var reg := Store(rows, phone, country, postal, place, freshToken, nowUtc);
    if reg.rows != rows {
      var existing := FindByPhone(rows, phone);
      if existing.Some? {
        var p := existing.value;
        assert forall i :: 0 <= i < |rows| && i != p ==> reg.rows[i] == rows[i];
        assert reg.rows[p].id == rows[p].id && reg.rows[p].phone == rows[p].phone;
        assert reg.rows[p].unsubscribeToken == freshToken;
        assert forall i :: 0 <= i < |rows| && i != p ==> rows[i].unsubscribeToken != freshToken;
      } else {
        var s := reg.rows[|rows|];
        assert reg.rows == rows + [s];
        assert s.id == NextId(rows) && s.phone == phone && s.unsubscribeToken == freshToken;
      }
    }
  }

  /** Registration keeps the ids ascending and the phones and tokens unique. */
  lemma RegisterKeepsInvariant(rows: seq<Subscriber>, req: SignUp, geo: Geo, freshToken: string, nowUtc: int)
    requires TableInvariant(rows)
    ensures TableInvariant(Register(rows, req, geo, freshToken, nowUtc).rows)
  {
    var sc := Screen(rows, req, geo);
    if sc.Accepted? {
      StoreKeepsInvariant(rows, NormalizePhone(req.phone), CountryField(req.country), PostalField(req.postalCode),
                          sc.place, freshToken, nowUtc);
    }
  }

  /** Every refusal and every failed commit leaves the table as it was; a
      response carries a subscriber exactly when it succeeds, with 200 or
      201, and an error message exactly when it does not. */
  lemma RegisterFailuresChangeNothing(rows: seq<Subscriber>, req: SignUp, geo: Geo, freshToken: string, nowUtc: int)
    requires TableInvariant(rows)
    ensures var reg := Register(rows, req, geo, freshToken, nowUtc);
            && (reg.result.Err? ==> reg.rows == rows)
            && (reg.result.Ok? ==>
                  && (reg.result.value.subscriber.Some? <==> reg.result.value.status in {200, 201})
                  && (reg.result.value.error.Some? <==> reg.result.value.status !in {200, 201})
                  && (reg.result.value.status !in {200, 201} ==>
                        reg.rows == rows && reg.result.value.status in {400, 409, 500, 502}))
  {
  }

  /** A refused phone number or a missing field is answered with 400 before
      the table or any service is consulted. */
  lemma RegisterValidatesFirst(rows: seq<Subscriber>, other: seq<Subscriber>, req: SignUp,
                               geo: Geo, otherGeo: Geo, freshToken: string, nowUtc: int)
    requires TableInvariant(rows) && TableInvariant(other)
    requires NormalizePhone(req.phone) == "" || CountryField(req.country) == "" || PostalField(req.postalCode) == ""
    ensures var reg := Register(rows, req, geo, freshToken, nowUtc);
            && reg.rows == rows
            && reg.result == Register(other, req, otherGeo, freshToken, nowUtc).result
            && reg.result.Ok? && reg.result.value.status == 400
  {
  }

  /** A valid sign-up is answered with 409 exactly when an active row already
      holds the normalised phone. */
  lemma RegisterConflictIff(rows: seq<Subscriber>, req: SignUp, geo: Geo, freshToken: string, nowUtc: int)
    requires TableInvariant(rows)
    requires NormalizePhone(req.phone) != "" && CountryField(req.country) != "" && PostalField(req.postalCode) != ""
    ensures var reg := Register(rows, req, geo, freshToken, nowUtc);
            (reg.result == Ok(CreateResponse(None, Some(AlreadySubscribedMessage), 409)))
            <==> (exists i :: 0 <= i < |rows| && rows[i].phone == NormalizePhone(req.phone) && rows[i].isActive)
  {
    var phone := NormalizePhone(req.phone);
    var existing := FindByPhone(rows, phone);
    if exists i :: 0 <= i < |rows| && rows[i].phone == phone && rows[i].isActive {
      var i :| 0 <= i < |rows| && rows[i].phone == phone && rows[i].isActive;
      assert existing.Some?;
      assert existing.value == i;
    }
  }

  /** The row a successful write leaves: the given fields, the fresh token,
      active, and nothing sent yet. */
  predicate Holds(s: Subscriber, phone: string, country: string, postal: string, place: Place, freshToken: string) {
    && s.phone == phone && s.country == country && s.postalCode == postal
    && s.lat == place.lat && s.lon == place.lon && s.locationName == place.name
    && s.timezone == place.timezone
    && s.isActive && s.unsubscribeToken == freshToken
    && s.lastDailySentLocalDate.None? && s.lastNotifiedAt.None?
  }

  /** Re-registering the inactive row `p`: it is overwritten in place under
      its old id and creation instant and answered with 200; the commit fails
      and nothing changes when another row already holds the fresh token. */
  lemma StoreReactivates(rows: seq<Subscriber>, phone: string, country: string, postal: string, place: Place,
                         freshToken: string, nowUtc: int, p: nat)
    requires TableInvariant(rows)
    requires p < |rows| && rows[p].phone == phone && !rows[p].isActive
    ensures var reg := Store(rows, phone, country, postal, place, freshToken, nowUtc);
            if exists q :: 0 <= q < |rows| && q != p && rows[q].unsubscribeToken == freshToken then
              reg == Registration(Err(TokenConflictMessage), rows)
            else
              && |reg.rows| == |rows|
              && reg.result == Ok(CreateResponse(Some(reg.rows[p]), None, 200))
              && Holds(reg.rows[p], phone, country, postal, place, freshToken)
              && reg.rows[p].id == rows[p].id && reg.rows[p].createdAt == rows[p].createdAt
              && (forall q :: 0 <= q < |rows| && q != p ==> reg.rows[q] == rows[q])
  {
    var existing := FindByPhone(rows, phone);
    assert existing == Some(p);
    var holder := FindByToken(rows, freshToken);
    if exists q :: 0 <= q < |rows| && q != p && rows[q].unsubscribeToken == freshToken {
      var q :| 0 <= q < |rows| && q != p && rows[q].unsubscribeToken == freshToken;
      assert holder == Some(q);
    }
  }

  /** Reactivating a row clears its last alert date, so the once-a-day
      check of the next alert run lets it through even on a local date it
      was already alerted on; the row is active again and the job's query
      finds it. */
  lemma ReactivationReopensGate(rows: seq<Subscriber>, phone: string, country: string, postal: string, place: Place,
                                freshToken: string, nowUtc: int, p: nat, cfg: Config, svc: Services, laterUtc: int)
    requires TableInvariant(rows)
    requires p < |rows| && rows[p].phone == phone && !rows[p].isActive
    requires forall q :: 0 <= q < |rows| && q != p ==> rows[q].unsubscribeToken != freshToken
    ensures var reg := Store(rows, phone, country, postal, place, freshToken, nowUtc);
            && reg.result.Ok? && |reg.rows| == |rows|
            && reg.rows[p].lastDailySentLocalDate.None?
            && SubscriberOutcome(reg.rows[p], cfg, svc, laterUtc) != Skipped(AlreadySentToday)
            && p in ActivePositions(reg.rows)
  {
    StoreReactivates(rows, phone, country, postal, place, freshToken, nowUtc, p);
  }

  /** Registering a phone no row holds: a row is appended under an id above
      every existing one and answered with 201; the commit fails and nothing
      changes when a row already holds the fresh token. */
  lemma StoreAppends(rows: seq<Subscriber>, phone: string, country: string, postal: string, place: Place,
                     freshToken: string, nowUtc: int)
    requires TableInvariant(rows)
    requires forall q :: 0 <= q < |rows| ==> rows[q].phone != phone
    ensures var reg := Store(rows, phone, country, postal, place, freshToken, nowUtc);
            if exists q :: 0 <= q < |rows| && rows[q].unsubscribeToken == freshToken then
              reg == Registration(Err(TokenConflictMessage), rows)
            else
              && |reg.rows| == |rows| + 1 && reg.rows[..|rows|] == rows
              && reg.result == Ok(CreateResponse(Some(reg.rows[|rows|]), None, 201))
              && Holds(reg.rows[|rows|], phone, country, postal, place, freshToken)
              && (forall q :: 0 <= q < |rows| ==> rows[q].id < reg.rows[|rows|].id)
              && reg.rows[|rows|].createdAt == nowUtc
  {
    var reg := Store(rows, phone, country, postal, place, freshToken, nowUtc);
    if !exists q :: 0 <= q < |rows| && rows[q].unsubscribeToken == freshToken {
      assert reg.rows[..|rows|] == rows;
    }
  }

  /** A sign-up that passes every check is stored: a valid phone, both
      fields, no active row for the phone, an API key, a geocoding answer
      with both coordinates and a token no row holds give 201 with a new row
      when no row has the phone, and 200 with the reactivated row
      otherwise; the stored row carries the request's fields and the place
      found. */
  lemma ValidSignUpIsStored(rows: seq<Subscriber>, req: SignUp, geo: Geo, freshToken: string, nowUtc: int)
    requires TableInvariant(rows)
    requires NormalizePhone(req.phone) != "" && CountryField(req.country) != "" && PostalField(req.postalCode) != ""
    requires forall i :: 0 <= i < |rows| && rows[i].phone == NormalizePhone(req.phone) ==> !rows[i].isActive
    requires geo.apiKey.Some? && geo.apiKey.value != ""
    requires var resp := geo.geocode(PostalField(req.postalCode) + "," + CountryField(req.country), geo.apiKey.value);
             resp.GeoData? && resp.lat.Some? && resp.lon.Some?
    requires forall i :: 0 <= i < |rows| ==> rows[i].unsubscribeToken != freshToken
    ensures var reg := Register(rows, req, geo, freshToken, nowUtc);
            var resp := geo.geocode(PostalField(req.postalCode) + "," + CountryField(req.country), geo.apiKey.value);
            var place := Place(resp.lat.value, resp.lon.value, resp.name, geo.timezoneAt(resp.lat.value, resp.lon.value));
            && reg.result.Ok? && reg.result.value.subscriber.Some?
            && Holds(reg.result.value.subscriber.value, NormalizePhone(req.phone), CountryField(req.country),
                     PostalField(req.postalCode), place, freshToken)
            && reg.result.value.subscriber.value in reg.rows
            && (reg.result.value.status == 201 <==> forall i :: 0 <= i < |rows| ==> rows[i].phone != NormalizePhone(req.phone))
            && (reg.result.value.status == 200 <==> exists i :: 0 <= i < |rows| && rows[i].phone == NormalizePhone(req.phone))
  {
    var phone := NormalizePhone(req.phone);
    var country := CountryField(req.country);
    var postal := PostalField(req.postalCode);
    var sc := Screen(rows, req, geo);
    assert sc == Admit(rows, phone, country, postal, geo);
    var reg := Store(rows, phone, country, postal, sc.place, freshToken, nowUtc);
    assert Register(rows, req, geo, freshToken, nowUtc) == reg;
    match FindByPhone(rows, phone)
    case Some(p) =>
      StoreReactivates(rows, phone, country, postal, sc.place, freshToken, nowUtc, p);
    case None =>
      StoreAppends(rows, phone, country, postal, sc.place, freshToken, nowUtc);
  }

  /** A successful registration stores the normalised phone, the stripped and
      upper-cased country, the stripped postal code, the place the geocoder
      returned for them and the zone found there; `StoreReactivates` and
      `StoreAppends` give the row it writes. */
  lemma RegisterSuccess(rows: seq<Subscriber>, req: SignUp, geo: Geo, freshToken: string, nowUtc: int)
    requires TableInvariant(rows)
    requires var reg := Register(rows, req, geo, freshToken, nowUtc);
             reg.result.Ok? && reg.result.value.status in {200, 201}
    ensures var sc := Screen(rows, req, geo);
            var phone := NormalizePhone(req.phone);
            var country := CountryField(req.country);
            var postal := PostalField(req.postalCode);
            && sc.Accepted?
            && Register(rows, req, geo, freshToken, nowUtc) == Store(rows, phone, country, postal, sc.place, freshToken, nowUtc)
            && phone != "" && country != "" && postal != ""
            && (forall i :: 0 <= i < |rows| && rows[i].phone == phone ==> !rows[i].isActive)
            && Located(geo.geocode(postal + "," + country, geo.apiKey.value), geo.timezoneAt, sc.place)
  {
  }

  /** Signing up twice with the same number: once the first sign-up succeeds,
      any later valid sign-up for that number is refused with 409 and
      changes nothing. */
  lemma SecondSignUpConflicts(rows: seq<Subscriber>, first: SignUp, second: SignUp, geo: Geo, geo2: Geo,
                              token: string, token2: string, nowUtc: int, laterUtc: int)
    requires TableInvariant(rows)
    requires var reg := Register(rows, first, geo, token, nowUtc);
             reg.result.Ok? && reg.result.value.status in {200, 201}
    requires NormalizePhone(second.phone) == NormalizePhone(first.phone)
    requires CountryField(second.country) != "" && PostalField(second.postalCode) != ""
    ensures var after := Register(rows, first, geo, token, nowUtc).rows;
            TableInvariant(after)
            && Register(after, second, geo2, token2, laterUtc)
               == Refuse(after, AlreadySubscribedMessage, 409)
  {
    var reg := Register(rows, first, geo, token, nowUtc);
    RegisterKeepsInvariant(rows, first, geo, token, nowUtc);
    RegisterSuccess(rows, first, geo, token, nowUtc);
    var sc := Screen(rows, first, geo);
    var phone := NormalizePhone(first.phone);
    var existing := FindByPhone(rows, phone);
    if existing.Some? {
      StoreReactivates(rows, phone, CountryField(first.country), PostalField(first.postalCode),
                       sc.place, token, nowUtc, existing.value);
      RegisterConflictIff(reg.rows, second, geo2, token2, laterUtc);
      assert reg.rows[existing.value].phone == phone && reg.rows[existing.value].isActive;
    } else {
      StoreAppends(rows, phone, CountryField(first.country), PostalField(first.postalCode), sc.place, token, nowUtc);
      RegisterConflictIff(reg.rows, second, geo2, token2, laterUtc);
      assert reg.rows[|rows|].phone == phone && reg.rows[|rows|].isActive;
    }
  }

  // ---------------------------------------------------------------------------
  // Unsubscription

  /** The three pages of the unsubscribe route. */
  datatype UnsubscribeResult = NotFound | AlreadyUnsubscribed | Unsubscribed(phone: string)

  /** The HTTP status the unsubscribe route answers with. */
  function UnsubscribeStatus(r: UnsubscribeResult): (status: int)
    ensures status == 404 <==> r.NotFound?
    ensures status == 200 <==> !r.NotFound?
  {
    if r.NotFound? then 404 else 200
  }

  datatype Unsubscription = Unsubscription(result: UnsubscribeResult, rows: seq<Subscriber>)

  /** The unsubscribe route for `token` on the table `rows`: its page and the table after it. */
  function Unsubscribe(rows: seq<Subscriber>, token: string): (u: Unsubscription)
    ensures |u.rows| == |rows|
    ensures u.result.Unsubscribed? ==>
              exists p :: 0 <= p < |rows| && rows[p].unsubscribeToken == token && rows[p].isActive
                          && u.result.phone == rows[p].phone
  {
    match FindByToken(rows, token)
    case None => Unsubscription(NotFound, rows)
    case Some(p) =>
      if !rows[p].isActive then Unsubscription(AlreadyUnsubscribed, rows)
      else Unsubscription(Unsubscribed(rows[p].phone), rows[p := rows[p].(isActive := false)])
  }

  /** The unsubscribe route answers 404 exactly when no row, active or not,
      holds the token, and 200 otherwise. */
  lemma UnsubscribeStatusCodes(rows: seq<Subscriber>, token: string)
    ensures var status := UnsubscribeStatus(Unsubscribe(rows, token).result);
            && (status == 404 <==> forall p :: 0 <= p < |rows| ==> rows[p].unsubscribeToken != token)
            && (status == 404 || status == 200)
  {
  }

  /** The unsubscribe route as it runs against the database. */
  method UnsubscribeByToken(db: SubscriberTable, token: string) returns (r: UnsubscribeResult)
    requires db.Valid()
    modifies db
    ensures db.Valid()
    ensures r == Unsubscribe(old(db.rows), token).result
    ensures db.rows == Unsubscribe(old(db.rows), token).rows
  {
    UnsubscribeKeepsInvariant(db.rows, token);
    var sub := FindByToken(db.rows, token);
    if sub.None? {
      return NotFound;
    }
    var p := sub.value;
    if !db.rows[p].isActive {
      return AlreadyUnsubscribed;
    }
    db.rows := db.rows[p := db.rows[p].(isActive := false)];
    return Unsubscribed(db.rows[p].phone);
  }

  /** Unsubscribing clears only the active flag of the row holding the token
      (its token stays valid), and leaves every other row and the table
      constraints intact; an unknown token or an inactive row changes
      nothing. */
  lemma UnsubscribeKeepsInvariant(rows: seq<Subscriber>, token: string)
    requires TableInvariant(rows)
    ensures var u := Unsubscribe(rows, token);
            && TableInvariant(u.rows)
            && (u.result.Unsubscribed? <==>
                  exists p :: 0 <= p < |rows| && rows[p].unsubscribeToken == token && rows[p].isActive)
            && (!u.result.Unsubscribed? ==> u.rows == rows)
            && (u.result.NotFound? <==> forall p :: 0 <= p < |rows| ==> rows[p].unsubscribeToken != token)
            && (forall p :: 0 <= p < |rows| ==>
                  u.rows[p] == if rows[p].unsubscribeToken == token then rows[p].(isActive := false) else rows[p])
  {
    var u := Unsubscribe(rows, token);
    var found := FindByToken(rows, token);
    if found.Some? {
      var p := found.value;
      assert forall q :: 0 <= q < |rows| && q != p ==> rows[q].unsubscribeToken != token;
      assert forall q :: 0 <= q < |rows| ==>
               u.rows[q].id == rows[q].id && u.rows[q].phone == rows[q].phone
               && u.rows[q].unsubscribeToken == rows[q].unsubscribeToken;
    }
  }

  /** Following the same link twice: the second visit finds the subscriber
      already unsubscribed and changes nothing. */
  lemma UnsubscribeIdempotent(rows: seq<Subscriber>, token: string)
    requires TableInvariant(rows)
    requires Unsubscribe(rows, token).result.Unsubscribed?
    ensures var after := Unsubscribe(rows, token).rows;
            Unsubscribe(after, token) == Unsubscription(AlreadyUnsubscribed, after)
  {
    var p := FindByToken(rows, token).value;
    var after := Unsubscribe(rows, token).rows;
    UnsubscribeKeepsInvariant(rows, token);
    var q := FindByToken(after, token).value;
    assert q == p;
  }

  /** An unsubscribed subscriber is never examined by the daily job again,
      whatever its limit. */
  lemma UnsubscribedNeverAlerted(rows: seq<Subscriber>, token: string, limit: Option<nat>)
    requires TableInvariant(rows)
    ensures var u := Unsubscribe(rows, token);
            forall p :: 0 <= p < |rows| && rows[p].unsubscribeToken == token ==> p !in ActiveQuery(u.rows, limit)
  {
    var u := Unsubscribe(rows, token);
    UnsubscribeKeepsInvariant(rows, token);
    var ps := ActiveQuery(u.rows, limit);
    forall p | 0 <= p < |rows| && rows[p].unsubscribeToken == token
      ensures p !in ps
    {
      assert !u.rows[p].isActive;
    }
  }

  /** Signing up again after unsubscribing reuses the subscriber's row: the
      answer is never 201 and never 409, so no second row for the number is
      created and the old id is kept. */
  lemma ResubscribeReusesRow(rows: seq<Subscriber>, token: string, req: SignUp, geo: Geo,
                             freshToken: string, nowUtc: int)
    requires TableInvariant(rows)
    requires Unsubscribe(rows, token).result.Unsubscribed?
    requires NormalizePhone(req.phone) == Unsubscribe(rows, token).result.phone
    ensures var after := Unsubscribe(rows, token).rows;
            var reg := Register(after, req, geo, freshToken, nowUtc);
            TableInvariant(after)
            && (reg.result.Ok? ==> reg.result.value.status !in {201, 409})
            && |reg.rows| == |rows|
  {
    var after := Unsubscribe(rows, token).rows;
    UnsubscribeKeepsInvariant(rows, token);
    var p := FindByToken(rows, token).value;
    var phone := NormalizePhone(req.phone);
    assert after[p].phone == phone && !after[p].isActive;
    var existing := FindByPhone(after, phone);
    assert existing == Some(p);
  }

  // ---------------------------------------------------------------------------
  // The admin trigger

  /** The `X-Admin-Token` header is accepted only when `ADMIN_TOKEN` is set
      to a non-empty value and the header equals it. */
  predicate AdminAuthorized(header: Option<string>, adminToken: Option<string>) {
    !(adminToken.None? || adminToken.value == "" || header != adminToken)
  }

  /** `admin_run_alerts`: 401 and no run without the token, otherwise the
      job over all active subscribers and its counters with 200. */
  method AdminRunAlerts(db: SubscriberTable, header: Option<string>, adminToken: Option<string>,
                        cfg: Config, svc: Services, nowUtc: int)
    returns (status: int, stats: Option<Stats>)
    requires db.Valid()
    modifies db
    ensures db.Valid()
    ensures status == 401 <==> adminToken.None? || adminToken.value == "" || header != adminToken
    ensures status == 401 ==> stats.None? && db.rows == old(db.rows)
    ensures status != 401 ==>
              var ps := ActiveQuery(old(db.rows), None);
              && status == 200
              && stats == Some(Tally(Outcomes(old(db.rows), ps, cfg, svc, nowUtc)))
              && db.rows == RunTable(old(db.rows), ps, cfg, svc, nowUtc)
  {
    if !AdminAuthorized(header, adminToken) {
      return 401, None;
    }
    var st, _ := SendAlertsJob(db, None, cfg, svc, nowUtc);
    return 200, Some(st);
  }
}
