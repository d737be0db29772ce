/** The daily dispatch job (App/send_alerts.py).

    The module-level settings become a `Config`; the time-zone database, the
    forecast request, the clock that the forecast scan reads and the SMS
    gateway become the functions of a `Services` value. */
module SendAlerts {
  import opened Wrappers
  import opened Models
  import opened WeatherService

  /** A UTC instant seen in a subscriber's zone. */
  datatype LocalTime = LocalTime(hour: int, minute: int, date: Date)

  const DefaultBaseUrl: string := "http://127.0.0.1:5000"

  /** `WINDOW_MINUTES`, `TARGET_HOUR`, `FORCE_SEND_ALERT` and `base_url`. */
  datatype Config = Config(windowMinutes: int, targetHour: int, forceSendAlert: bool, baseUrl: string)

  /** The public address of the web app: the environment's value when set,
      the local development server otherwise. */
  function BaseUrl(env: Option<string>): (url: string)
    ensures env.None? ==> url == DefaultBaseUrl
    ensures env.Some? ==> url == env.value
  {
    env.GetOr(DefaultBaseUrl)
  }

  /** The collaborators of the job.
      - `zoneAt(name, nowUtc)`: `ZoneInfo(name)` and `astimezone`; `None`
        when the name does not resolve to a zone.
      - `fetchForecast(lat, lon)`: `fetch_forecast`; `Err` when it raises.
      - `forecastClock(id)`: the instant at which the forecast scan for
        subscriber `id` reads `datetime.now`.
      - `sendSms(to, body)`: `send_sms`; the message id, or `Err` when it
        raises. */
  datatype Services = Services(
    zoneAt: (string, int) -> Option<LocalTime>,
    fetchForecast: (real, real) -> Result<Forecast>,
    forecastClock: nat -> int,
    sendSms: (string, string) -> Result<string>)

  datatype SkipReason = NoTimezone | UnknownTimezone | OutsideWindow | AlreadySentToday | NoMessage

  /** How one subscriber's turn in the loop ends. */
  datatype Outcome =
    | Skipped(reason: SkipReason)
    | Errored(cause: string)
    | Alerted(today: Date, to: string, body: string)

  /** The `stats` dictionary. */
  datatype Stats = Stats(checked: nat, alerted: nat, skipped: nat, errors: nat)

  /** A message handed to the SMS gateway that it accepted. */
  datatype Sms = Sms(to: string, body: string)

  predicate InWindow(local: LocalTime, cfg: Config) {
    local.hour == cfg.targetHour && local.minute < cfg.windowMinutes
  }

  /** The text actually sent: the alert, then the unsubscribe link. */
  function FullMessage(text: string, baseUrl: string, token: string): (body: string)
    ensures |body| == |text| + 15 + |baseUrl| + 13 + |token|
    ensures body[..|text|] == text
    ensures body[|text|..|text| + 15] == "\n\nUnsubscribe: "
    ensures body[|text| + 15..|text| + 15 + |baseUrl|] == baseUrl
    ensures body[|body| - |token| - 13..|body| - |token|] == "/unsubscribe/"
    ensures body[|body| - |token|..] == token
  {
    text + "\n\nUnsubscribe: " + baseUrl + "/unsubscribe/" + token
  }

  /** One pass of the loop body for subscriber `s`, as a value. */
  function SubscriberOutcome(s: Subscriber, cfg: Config, svc: Services, nowUtc: int): Outcome {
    if s.timezone.None? || s.timezone.value == "" then Skipped(NoTimezone)
    else
      match svc.zoneAt(s.timezone.value, nowUtc)
      case None => Skipped(UnknownTimezone)
      case Some(local) =>
        if !InWindow(local, cfg) then Skipped(OutsideWindow)
        else if s.lastDailySentLocalDate == Some(local.date) then Skipped(AlreadySentToday)
        else MessageOutcome(s, cfg, svc, local.date)
  }

  /** The rest of the turn once the gates pass: the message, then the send. */
  function MessageOutcome(s: Subscriber, cfg: Config, svc: Services, today: Date): Outcome {
    match CheckWeatherAndBuildSms(cfg.forceSendAlert, s.lat, s.lon, s.country, s.postalCode,
                                  DefaultHours, svc.fetchForecast, svc.forecastClock(s.id))
    case Err(e) => Errored(e)
    case Ok(text) =>
      if text.None? || text.value == "" then Skipped(NoMessage)
      else
        var body := FullMessage(text.value, cfg.baseUrl, s.unsubscribeToken);
        match svc.sendSms(s.phone, body)
        case Err(e) => Errored(e)
        case Ok(_) => Alerted(today, s.phone, body)
  }

  /** The row after its turn: only a successful send touches it. */
  function Visit(s: Subscriber, o: Outcome, nowUtc: int): Subscriber {
    if o.Alerted? then s.(lastDailySentLocalDate := Some(o.today), lastNotifiedAt := Some(nowUtc))
    else s
  }

  // ---------------------------------------------------------------------------
  // The query

  /** Positions of the active rows, in table order. */
  function ActivePositions(rows: seq<Subscriber>): (ps: seq<nat>)
    ensures forall i :: 0 <= i < |ps| ==> ps[i] < |rows| && rows[ps[i]].isActive
    ensures forall i, j :: 0 <= i < j < |ps| ==> ps[i] < ps[j]
    ensures forall p :: 0 <= p < |rows| && rows[p].isActive ==> p in ps
  {
    if rows == [] then []
    else
      var earlier := ActivePositions(rows[..|rows| - 1]);
      if rows[|rows| - 1].isActive then earlier + [|rows| - 1] else earlier
  }

  /** The positions of the active subscribers in ascending id order, cut to
      the first `limit` of them when `limit` is truthy. */
  function ActiveQuery(rows: seq<Subscriber>, limit: Option<nat>): (ps: seq<nat>)
    ensures forall i :: 0 <= i < |ps| ==> ps[i] < |rows| && rows[ps[i]].isActive
    ensures forall i, j :: 0 <= i < j < |ps| ==> ps[i] < ps[j]
  {
    var active := ActivePositions(rows);
    if limit.Some? && limit.value != 0 && limit.value < |active| then active[..limit.value]
    else active
  }

  /** Only active subscribers are examined, in ascending id order; a truthy
      `limit` keeps the first `limit` of them, `None` or 0 keeps all. */
  lemma ActiveQueryOrder(rows: seq<Subscriber>, limit: Option<nat>)
    requires TableInvariant(rows)
    ensures var ps := ActiveQuery(rows, limit);
            && (forall i :: 0 <= i < |ps| ==> rows[ps[i]].isActive)
            && (forall i, j :: 0 <= i < j < |ps| ==> rows[ps[i]].id < rows[ps[j]].id)
            && ps == ActivePositions(rows)[..|ps|]
            && (limit.None? || limit == Some(0) ==> ps == ActivePositions(rows))
            && (limit.Some? && limit.value != 0 ==>
                  |ps| == if limit.value < |ActivePositions(rows)| then limit.value else |ActivePositions(rows)|)
  {
  }

  // ---------------------------------------------------------------------------
  // The run as values

  function Outcomes(rows: seq<Subscriber>, ps: seq<nat>, cfg: Config, svc: Services, nowUtc: int): (os: seq<Outcome>)
    requires forall i :: 0 <= i < |ps| ==> ps[i] < |rows|
    ensures |os| == |ps|
  {
    seq(|ps|, i requires 0 <= i < |ps| => SubscriberOutcome(rows[ps[i]], cfg, svc, nowUtc))
  }

  /** The counters after the outcomes in order: every subscriber is counted as
      checked and in exactly one of alerted, skipped and errors. */
  function Tally(outcomes: seq<Outcome>): (st: Stats)
    ensures st.checked == |outcomes|
    ensures st.checked == st.alerted + st.skipped + st.errors
  {
    if outcomes == [] then Stats(0, 0, 0, 0)
    else Count(Tally(outcomes[..|outcomes| - 1]), outcomes[|outcomes| - 1])
  }

  /** The counters after one more subscriber: `checked` and the counter of
      its outcome go up by one. */
  function Count(st: Stats, o: Outcome): (next: Stats)
    ensures next.checked == st.checked + 1
    ensures next.alerted == st.alerted + (if o.Alerted? then 1 else 0)
    ensures next.skipped == st.skipped + (if o.Skipped? then 1 else 0)
    ensures next.errors == st.errors + (if o.Errored? then 1 else 0)
  {
    match o
    case Skipped(_) => st.(checked := st.checked + 1, skipped := st.skipped + 1)
    case Errored(_) => st.(checked := st.checked + 1, errors := st.errors + 1)
    case Alerted(_, _, _) => st.(checked := st.checked + 1, alerted := st.alerted + 1)
  }

  /** The message a subscriber's outcome hands to the gateway, if any. */
  function Delivered(o: Outcome): seq<Sms> {
    if o.Alerted? then [Sms(o.to, o.body)] else []
  }

  /** `m` is the message of one of the alerted outcomes. */
  predicate AlertMessage(outcomes: seq<Outcome>, m: Sms) {
    exists j :: 0 <= j < |outcomes| && outcomes[j].Alerted? && m == Sms(outcomes[j].to, outcomes[j].body)
  }

  /** The messages the gateway accepted, in order: one per alerted
      subscriber. */
  function Deliveries(outcomes: seq<Outcome>): (sent: seq<Sms>)
    ensures |sent| == Tally(outcomes).alerted
    ensures forall i :: 0 <= i < |sent| ==> AlertMessage(outcomes, sent[i])
    ensures forall j :: 0 <= j < |outcomes| && outcomes[j].Alerted? ==> Sms(outcomes[j].to, outcomes[j].body) in sent
  {
    if outcomes == [] then []
    else
      var earlier := outcomes[..|outcomes| - 1];
      var last := outcomes[|outcomes| - 1];
      var prefix := Deliveries(earlier);
      assert outcomes == earlier + [last];
      DeliveredSnoc(earlier, last, prefix, outcomes, prefix + Delivered(last));
      prefix + Delivered(last)
  }

  /** One more outcome keeps the messages and the alerted outcomes in
      correspondence. */
  lemma DeliveredSnoc(earlier: seq<Outcome>, last: Outcome, prefix: seq<Sms>, outcomes: seq<Outcome>, sent: seq<Sms>)
    requires forall i :: 0 <= i < |prefix| ==> AlertMessage(earlier, prefix[i])
    requires forall j :: 0 <= j < |earlier| && earlier[j].Alerted? ==> Sms(earlier[j].to, earlier[j].body) in prefix
    requires outcomes == earlier + [last] && sent == prefix + Delivered(last)
    ensures forall i :: 0 <= i < |sent| ==> AlertMessage(outcomes, sent[i])
    ensures forall j :: 0 <= j < |outcomes| && outcomes[j].Alerted? ==> Sms(outcomes[j].to, outcomes[j].body) in sent
  {
    forall i | 0 <= i < |sent|
      ensures AlertMessage(outcomes, sent[i])
    {
      if i < |prefix| {
        assert sent[i] == prefix[i];
        var j :| 0 <= j < |earlier| && earlier[j].Alerted? && prefix[i] == Sms(earlier[j].to, earlier[j].body);
        assert outcomes[j] == earlier[j];
      } else {
        assert last.Alerted? && sent[i] == Sms(last.to, last.body);
        assert outcomes[|earlier|] == last;
      }
    }
    forall j | 0 <= j < |outcomes| && outcomes[j].Alerted?
      ensures Sms(outcomes[j].to, outcomes[j].body) in sent
    {
      if j < |earlier| {
        assert outcomes[j] == earlier[j];
      } else {
        assert outcomes[j] == last;
        assert sent[|prefix|] == Sms(last.to, last.body);
      }
    }
  }

  /** The table after a run that examined the positions `ps`. */
  function RunTable(rows: seq<Subscriber>, ps: seq<nat>, cfg: Config, svc: Services, nowUtc: int): (after: seq<Subscriber>)
    ensures |after| == |rows|
  {
    seq(|rows|, p requires 0 <= p < |rows| =>
      if p in ps then Visit(rows[p], SubscriberOutcome(rows[p], cfg, svc, nowUtc), nowUtc) else rows[p])
  }

  /** The loop body of `send_alerts_job` for the row at position `p`: the
      checks in order, the send, and the row update after a send. */
  method CheckSubscriber(db: SubscriberTable, p: nat, cfg: Config, svc: Services, nowUtc: int)
    returns (o: Outcome)
    requires p < |db.rows|
    modifies db
    ensures o == SubscriberOutcome(old(db.rows[p]), cfg, svc, nowUtc)
    ensures db.rows == old(db.rows)[p := Visit(old(db.rows[p]), o, nowUtc)]
  {
    var s := db.rows[p];
    assert db.rows == db.rows[p := s];
    if s.timezone.None? || s.timezone.value == "" {
      return Skipped(NoTimezone);
    }
    var local := svc.zoneAt(s.timezone.value, nowUtc);
    if local.None? {
      return Skipped(UnknownTimezone);
    }
    var nowLocal := local.value;
    if !(nowLocal.hour == cfg.targetHour && nowLocal.minute < cfg.windowMinutes) {
      return Skipped(OutsideWindow);
    }
    var todayLocal := nowLocal.date;
    if s.lastDailySentLocalDate == Some(todayLocal) {
      return Skipped(AlreadySentToday);
    }
    o := Notify(db, p, cfg, svc, nowUtc, todayLocal);
  }

  /** The rest of the loop body once the gates pass: the message, the send,
      and the row update after a send. */
  method Notify(db: SubscriberTable, p: nat, cfg: Config, svc: Services, nowUtc: int, todayLocal: Date)
    returns (o: Outcome)
    requires p < |db.rows|
    modifies db
    ensures o == MessageOutcome(old(db.rows[p]), cfg, svc, todayLocal)
    ensures db.rows == old(db.rows)[p := Visit(old(db.rows[p]), o, nowUtc)]
  {
    var s := db.rows[p];
    assert db.rows == db.rows[p := s];
    var smsText := CheckWeatherAndBuildSms(cfg.forceSendAlert, s.lat, s.lon, s.country, s.postalCode,
                                           DefaultHours, svc.fetchForecast, svc.forecastClock(s.id));
    if smsText.Err? {
      return Errored(smsText.error);
    }
    if smsText.value.None? || smsText.value.value == "" {
      return Skipped(NoMessage);
    }
    var fullMsg := FullMessage(smsText.value.value, cfg.baseUrl, s.unsubscribeToken);
    var msgSid := svc.sendSms(s.phone, fullMsg);
    if msgSid.Err? {
      return Errored(msgSid.error);
    }
    db.rows := db.rows[p := s.(lastDailySentLocalDate := Some(todayLocal), lastNotifiedAt := Some(nowUtc))];
    o := Alerted(todayLocal, s.phone, fullMsg);
  }

  /** `send_alerts_job`: one pass over the active subscribers at the instant
      `nowUtc`, returning the counters and the messages sent. */
  method SendAlertsJob(db: SubscriberTable, limit: Option<nat>, cfg: Config, svc: Services, nowUtc: int)
    returns (stats: Stats, sent: seq<Sms>)
    requires db.Valid()
    modifies db
    ensures db.Valid()
    ensures var ps := ActiveQuery(old(db.rows), limit);
            && stats == Tally(Outcomes(old(db.rows), ps, cfg, svc, nowUtc))
            && sent == Deliveries(Outcomes(old(db.rows), ps, cfg, svc, nowUtc))
            && db.rows == RunTable(old(db.rows), ps, cfg, svc, nowUtc)
  {
    var subs := ActiveQuery(db.rows, limit);
    ghost var rows0 := db.rows;
    stats, sent := CheckAll(db, subs, cfg, svc, nowUtc);
    RunTableKeepsInvariant(rows0, subs, cfg, svc, nowUtc);
  }

  /** The loop of `send_alerts_job` over the queried subscribers, at
      positions `subs`: every turn counts its outcome and collects the
      accepted message. */
  method CheckAll(db: SubscriberTable, subs: seq<nat>, cfg: Config, svc: Services, nowUtc: int)
    returns (stats: Stats, sent: seq<Sms>)
    requires forall k :: 0 <= k < |subs| ==> subs[k] < |db.rows|
    requires forall k, l :: 0 <= k < l < |subs| ==> subs[k] < subs[l]
    modifies db
    ensures stats == Tally(Outcomes(old(db.rows), subs, cfg, svc, nowUtc))
    ensures sent == Deliveries(Outcomes(old(db.rows), subs, cfg, svc, nowUtc))
    ensures db.rows == RunTable(old(db.rows), subs, cfg, svc, nowUtc)
  {
    ghost var rows0 := db.rows;
    ghost var outcomes := Outcomes(rows0, subs, cfg, svc, nowUtc);
    stats := Stats(0, 0, 0, 0);
    sent := [];
    for i := 0 to |subs|
      invariant stats == Tally(outcomes[..i])
      invariant sent == Deliveries(outcomes[..i])
      invariant db.rows == RunTable(rows0, subs[..i], cfg, svc, nowUtc)
    {
      var p := subs[i];
      RunTableStep(rows0, subs, i, cfg, svc, nowUtc);
      var o := CheckSubscriber(db, p, cfg, svc, nowUtc);
      CountStep(outcomes, i);
      stats := Count(stats, o);
      sent := sent + Delivered(o);
    }
    assert subs[..|subs|] == subs;
    assert outcomes[..|subs|] == outcomes;
  }


  /** The counters and the sent list after one more outcome. */
  lemma CountStep(outcomes: seq<Outcome>, i: nat)
    requires i < |outcomes|
    ensures Tally(outcomes[..i + 1]) == Count(Tally(outcomes[..i]), outcomes[i])
    ensures Deliveries(outcomes[..i + 1]) == Deliveries(outcomes[..i]) + Delivered(outcomes[i])
  {
    assert outcomes[..i + 1][..i] == outcomes[..i];
  }

  /** Examining one more subscriber updates its row and no other. */
  lemma RunTableStep(rows: seq<Subscriber>, ps: seq<nat>, i: nat, cfg: Config, svc: Services, nowUtc: int)
    requires i < |ps|
    requires forall k :: 0 <= k < |ps| ==> ps[k] < |rows|
    requires forall k, l :: 0 <= k < l < |ps| ==> ps[k] < ps[l]
    ensures RunTable(rows, ps[..i], cfg, svc, nowUtc)[ps[i]] == rows[ps[i]]
    ensures RunTable(rows, ps[..i + 1], cfg, svc, nowUtc)
            == RunTable(rows, ps[..i], cfg, svc, nowUtc)[ps[i] := Visit(rows[ps[i]], SubscriberOutcome(rows[ps[i]], cfg, svc, nowUtc), nowUtc)]
  {
    assert ps[i] !in ps[..i];
    assert forall q :: q in ps[..i + 1] <==> q in ps[..i] || q == ps[i];
  }

  // ---------------------------------------------------------------------------
  // Properties of a run

  /** A run changes only the two send-state fields, so the table constraints
      still hold. */
  lemma RunTableKeepsInvariant(rows: seq<Subscriber>, ps: seq<nat>, cfg: Config, svc: Services, nowUtc: int)
    requires TableInvariant(rows)
    ensures TableInvariant(RunTable(rows, ps, cfg, svc, nowUtc))
  {
    var after := RunTable(rows, ps, cfg, svc, nowUtc);
    assert forall p :: 0 <= p < |rows| ==>
             after[p].id == rows[p].id && after[p].phone == rows[p].phone
             && after[p].unsubscribeToken == rows[p].unsubscribeToken;
  }

  /** The counters of a run add up: `checked` is the number of subscribers the
      query returned, and each of them is alerted, skipped or errored. */
  lemma StatsAddUp(rows: seq<Subscriber>, limit: Option<nat>, cfg: Config, svc: Services, nowUtc: int)
    ensures var ps := ActiveQuery(rows, limit);
            var st := Tally(Outcomes(rows, ps, cfg, svc, nowUtc));
            && st.checked == |ps|
            && st.checked == st.alerted + st.skipped + st.errors
            && |Deliveries(Outcomes(rows, ps, cfg, svc, nowUtc))| == st.alerted
  {
  }

  /** The row of a subscriber that is not alerted stays as it was; an alerted
      one gets today's local date and the run's instant, and nothing else. */
  lemma RunTableRow(rows: seq<Subscriber>, ps: seq<nat>, cfg: Config, svc: Services, nowUtc: int, p: nat)
    requires p < |rows|
    ensures var o := SubscriberOutcome(rows[p], cfg, svc, nowUtc);
            var after := RunTable(rows, ps, cfg, svc, nowUtc)[p];
            && (p !in ps || !o.Alerted? ==> after == rows[p])
            && (p in ps && o.Alerted? ==>
                  after == rows[p].(lastDailySentLocalDate := Some(o.today), lastNotifiedAt := Some(nowUtc)))
  {
  }

  /** A subscriber without a time zone, with a zone that does not resolve,
      outside the window or already served today is skipped without the
      forecast or the gateway being consulted: any other forecast and gateway
      give the same outcome. */
  lemma EarlySkipsUseNoService(s: Subscriber, cfg: Config, svc: Services, other: Services, nowUtc: int)
    requires other.zoneAt == svc.zoneAt
    requires SubscriberOutcome(s, cfg, svc, nowUtc).Skipped?
    requires SubscriberOutcome(s, cfg, svc, nowUtc).reason != NoMessage
    ensures SubscriberOutcome(s, cfg, other, nowUtc) == SubscriberOutcome(s, cfg, svc, nowUtc)
  {
  }

  /** The early skips, each with its own reason, in the order the loop
      tests them: no zone name, a name that does not resolve, a local clock
      outside the window, and a subscriber already served on that local
      date. */
  lemma EarlySkipReasons(s: Subscriber, cfg: Config, svc: Services, nowUtc: int)
    ensures s.timezone.None? || s.timezone.value == "" ==>
              SubscriberOutcome(s, cfg, svc, nowUtc) == Skipped(NoTimezone)
    ensures s.timezone.Some? && s.timezone.value != "" && svc.zoneAt(s.timezone.value, nowUtc).None? ==>
              SubscriberOutcome(s, cfg, svc, nowUtc) == Skipped(UnknownTimezone)
    ensures forall local: LocalTime ::
              s.timezone.Some? && s.timezone.value != "" && svc.zoneAt(s.timezone.value, nowUtc) == Some(local)
              && !InWindow(local, cfg) ==>
                SubscriberOutcome(s, cfg, svc, nowUtc) == Skipped(OutsideWindow)
    ensures forall local: LocalTime ::
              s.timezone.Some? && s.timezone.value != "" && svc.zoneAt(s.timezone.value, nowUtc) == Some(local)
              && InWindow(local, cfg) && s.lastDailySentLocalDate == Some(local.date) ==>
                SubscriberOutcome(s, cfg, svc, nowUtc) == Skipped(AlreadySentToday)
  {
  }

  /** A subscriber whose zone resolves to `local`, inside the window and not
      yet served on that local date: the one who reaches the forecast. */
  predicate Due(s: Subscriber, cfg: Config, svc: Services, nowUtc: int, local: LocalTime) {
    && s.timezone.Some? && s.timezone.value != ""
    && svc.zoneAt(s.timezone.value, nowUtc) == Some(local)
    && InWindow(local, cfg)
    && s.lastDailySentLocalDate != Some(local.date)
  }

  /** The decision for a due subscriber outside the test mode: a failed
      forecast request is an error; a forecast without bad weather in the
      horizon is the empty-message skip; otherwise the alert naming the kinds
      of bad weather, with the unsubscribe link, goes to the subscriber's
      phone, and a failed send is an error. */
  lemma WeatherDecision(s: Subscriber, cfg: Config, svc: Services, nowUtc: int, local: LocalTime)
    requires !cfg.forceSendAlert
    requires Due(s, cfg, svc, nowUtc, local)
    ensures svc.fetchForecast(s.lat, s.lon).Err? ==>
              SubscriberOutcome(s, cfg, svc, nowUtc) == Errored(svc.fetchForecast(s.lat, s.lon).error)
    ensures svc.fetchForecast(s.lat, s.lon).Ok?
            && BadWeatherTimes(svc.fetchForecast(s.lat, s.lon).value, svc.forecastClock(s.id), DefaultHours) == map[] ==>
              SubscriberOutcome(s, cfg, svc, nowUtc) == Skipped(NoMessage)
    ensures svc.fetchForecast(s.lat, s.lon).Ok?
            && BadWeatherTimes(svc.fetchForecast(s.lat, s.lon).value, svc.forecastClock(s.id), DefaultHours) != map[] ==>
              var events := BadWeatherTimes(svc.fetchForecast(s.lat, s.lon).value, svc.forecastClock(s.id), DefaultHours);
              var body := FullMessage(AlertText(CountryNorm(s.country), s.postalCode, Labels(events)),
                                      cfg.baseUrl, s.unsubscribeToken);
              SubscriberOutcome(s, cfg, svc, nowUtc)
              == if svc.sendSms(s.phone, body).Ok? then Alerted(local.date, s.phone, body)
                 else Errored(svc.sendSms(s.phone, body).error)
  {
    assert SubscriberOutcome(s, cfg, svc, nowUtc) == MessageOutcome(s, cfg, svc, local.date);
    var fetched := svc.fetchForecast(s.lat, s.lon);
    var r := CheckWeatherAndBuildSms(cfg.forceSendAlert, s.lat, s.lon, s.country, s.postalCode,
                                     DefaultHours, svc.fetchForecast, svc.forecastClock(s.id));
    if fetched.Ok? && BadWeatherTimes(fetched.value, svc.forecastClock(s.id), DefaultHours) != map[] {
      assert r.Ok? && r.value.Some?;
    }
  }

  /** An alert is sent only inside the local window, only when the
      subscriber was not served on that local date, and the body is the
      non-empty alert text followed by the subscriber's unsubscribe link:
      the test alert in the test mode, otherwise the alert naming the kinds
      of bad weather the forecast holds, which must hold some. */
  lemma AlertConditions(s: Subscriber, cfg: Config, svc: Services, nowUtc: int)
    requires SubscriberOutcome(s, cfg, svc, nowUtc).Alerted?
    ensures var o := SubscriberOutcome(s, cfg, svc, nowUtc);
            && s.timezone.Some? && s.timezone.value != ""
            && svc.zoneAt(s.timezone.value, nowUtc) == Some(LocalTime(svc.zoneAt(s.timezone.value, nowUtc).value.hour,
                                                                     svc.zoneAt(s.timezone.value, nowUtc).value.minute, o.today))
            && InWindow(svc.zoneAt(s.timezone.value, nowUtc).value, cfg)
            && s.lastDailySentLocalDate != Some(o.today)
            && o.to == s.phone
            && (exists text :: text != "" && o.body == FullMessage(text, cfg.baseUrl, s.unsubscribeToken))
            && svc.sendSms(s.phone, o.body).Ok?
            && (cfg.forceSendAlert ==>
                  o.body == FullMessage(TestAlertText(s.country, s.postalCode), cfg.baseUrl, s.unsubscribeToken))
            && (!cfg.forceSendAlert ==>
                  && svc.fetchForecast(s.lat, s.lon).Ok?
                  && var events := BadWeatherTimes(svc.fetchForecast(s.lat, s.lon).value, svc.forecastClock(s.id), DefaultHours);
                     && events != map[]
                     && o.body == FullMessage(AlertText(CountryNorm(s.country), s.postalCode, Labels(events)),
                                              cfg.baseUrl, s.unsubscribeToken))
  {
    var o := SubscriberOutcome(s, cfg, svc, nowUtc);
    var local := svc.zoneAt(s.timezone.value, nowUtc).value;
    assert o == MessageOutcome(s, cfg, svc, local.date);
    var r := CheckWeatherAndBuildSms(cfg.forceSendAlert, s.lat, s.lon, s.country, s.postalCode,
                                     DefaultHours, svc.fetchForecast, svc.forecastClock(s.id));
    assert r.Ok? && r.value.Some?;
    assert o.body == FullMessage(r.value.value, cfg.baseUrl, s.unsubscribeToken);
  }

  /** At most one alert per local day: after a run, a subscriber it alerted is
      skipped as already served at any instant that falls on the same local
      date, in particular by a second run at the same instant. */
  lemma AtMostOneAlertPerLocalDay(rows: seq<Subscriber>, ps: seq<nat>, cfg: Config, svc: Services,
                                  nowUtc: int, laterUtc: int, p: nat)
    requires p < |rows| && p in ps
    requires SubscriberOutcome(rows[p], cfg, svc, nowUtc).Alerted?
    requires var tz := rows[p].timezone.value;
             svc.zoneAt(tz, laterUtc).Some? && svc.zoneAt(tz, laterUtc).value.date == svc.zoneAt(tz, nowUtc).value.date
    ensures !SubscriberOutcome(RunTable(rows, ps, cfg, svc, nowUtc)[p], cfg, svc, laterUtc).Alerted?
  {
    AlertConditions(rows[p], cfg, svc, nowUtc);
  }

  /** Two runs at the same instant never alert the same subscriber twice. */
  lemma SecondRunAlertsNobodyTwice(rows: seq<Subscriber>, limit: Option<nat>, cfg: Config, svc: Services, nowUtc: int)
    ensures var ps := ActiveQuery(rows, limit);
            var after := RunTable(rows, ps, cfg, svc, nowUtc);
            forall p :: 0 <= p < |rows| && p in ps && SubscriberOutcome(rows[p], cfg, svc, nowUtc).Alerted? ==>
              SubscriberOutcome(after[p], cfg, svc, nowUtc) == Skipped(AlreadySentToday)
  {
    var ps := ActiveQuery(rows, limit);
    forall p | 0 <= p < |rows| && p in ps && SubscriberOutcome(rows[p], cfg, svc, nowUtc).Alerted?
      ensures SubscriberOutcome(RunTable(rows, ps, cfg, svc, nowUtc)[p], cfg, svc, nowUtc) == Skipped(AlreadySentToday)
    {
      AlertConditions(rows[p], cfg, svc, nowUtc);
    }
  }

  /** In the forced test mode the message is the test alert whatever the
      forecast; the window and the once-a-day gate still apply. */
  lemma ForcedModeSendsTestAlert(s: Subscriber, cfg: Config, svc: Services, nowUtc: int, local: LocalTime)
    requires cfg.forceSendAlert
    requires s.timezone.Some? && s.timezone.value != ""
    requires svc.zoneAt(s.timezone.value, nowUtc) == Some(local)
    requires InWindow(local, cfg) && s.lastDailySentLocalDate != Some(local.date)
    ensures var body := FullMessage(TestAlertText(s.country, s.postalCode), cfg.baseUrl, s.unsubscribeToken);
            SubscriberOutcome(s, cfg, svc, nowUtc)
            == if svc.sendSms(s.phone, body).Ok? then Alerted(local.date, s.phone, body)
               else Errored(svc.sendSms(s.phone, body).error)
  {
  }
}
