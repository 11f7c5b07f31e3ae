/**
  The energy telemetry controller: who may read or write whose samples, the
  period table of the history endpoint, the newest-first range query, the
  latest realtime sample, the synthetic data answered when a client has no
  samples yet, the today/month/year summary with its placeholders, ingestion
  with its defaults, and the admin's fleet statistics.

  Time is a number of milliseconds. The clock reading and the calendar
  arithmetic the controller does with `Date` arrive as a `Clock`; each
  `Math.random()` draw arrives as a `Unit`.
*/
module Energy {
  import opened Common
  import opened Sorting
  import Users

  const HourMs: int := 3600000
  const DayMs: int := 24 * HourMs

  /** The `period` enumeration of an EnergyData document. */
  datatype Period = Realtime | Hourly | Daily | Monthly

  /** Mongoose's enum cast of a `period` string. */
  function ParsePeriod(token: string): (p: Option<Period>)
    ensures p.Some? <==> token == "realtime" || token == "hourly" || token == "daily" || token == "monthly"
    ensures p == Some(Realtime) <==> token == "realtime"
    ensures p == Some(Hourly) <==> token == "hourly"
  {
    if token == "realtime" then Some(Realtime)
    else if token == "hourly" then Some(Hourly)
    else if token == "daily" then Some(Daily)
    else if token == "monthly" then Some(Monthly)
    else None
  }

  /** One EnergyData document; the four quantities are kWh. */
  datatype Sample = Sample(
    clientId: string,
    timestamp: int,
    production: real,
    consumption: real,
    gridImport: real,
    gridExport: real,
    period: Period)

  function Timestamp(s: Sample): int { s.timestamp }

  /** A value of `Math.random()`. */
  type Unit = r: real | 0.0 <= r < 1.0

  /** The four draws of one synthetic sample, in the order the controller makes them. */
  datatype Draws = Draws(production: Unit, consumption: Unit, gridImport: Unit, gridExport: Unit)

  /**
    One reading of the clock with the calendar arithmetic done on it:
    `setMonth(getMonth() - 1)`, `setFullYear(getFullYear() - 1)`, midnight of
    today, the 1st of this month and January 1st of this year.
  */
  datatype Clock = Clock(
    now: int,
    oneMonthAgo: int,
    oneYearAgo: int,
    startOfToday: int,
    startOfMonth: int,
    startOfYear: int)

  /** What a calendar guarantees about those values. */
  ghost predicate CalendarConsistent(c: Clock)
  {
    && c.startOfYear <= c.startOfMonth <= c.startOfToday <= c.now
    && c.oneYearAgo <= c.oneMonthAgo <= c.now - 7 * DayMs
  }

  // ------------------------------------------------------------------
  // Access check
  // ------------------------------------------------------------------

  /** The subject a request is about: the client id supplied, else the caller's own id. */
  function SubjectOf(caller: Caller, requested: Option<string>): (subject: string)
    ensures Truthy(requested) ==> subject == requested.value
    ensures !Truthy(requested) ==> subject == caller.id
  {
    OrElse(requested, caller.id)
  }

  /** Admins may ask about anyone; a client only about their own id. */
  predicate Authorized(caller: Caller, subject: string)
  {
    caller.role == Admin || subject == caller.id
  }

  lemma AuthorizedExactly(caller: Caller, requested: Option<string>)
    ensures caller.role == Admin ==> Authorized(caller, SubjectOf(caller, requested))
    ensures caller.role == Client ==>
      (Authorized(caller, SubjectOf(caller, requested)) <==> !Truthy(requested) || requested.value == caller.id)
  {
  }

  /**
    The JavaScript value the controller compares with `!==`: a string from
    the URL or the body, the caller's `_id` object, or `undefined`.
  */
  datatype IdValue = IdString(s: string) | IdObject(hex: string) | Undefined

  /** `req.params.clientId || req.user._id` */
  function RequestedIdAsWritten(caller: Caller, param: Option<string>): IdValue
  {
    if Truthy(param) then IdString(param.value) else IdObject(caller.id)
  }

  /** The body's `clientId` as the ingestion check sees it, before any default. */
  function BodyIdAsWritten(bodyId: Option<string>): IdValue
  {
    if bodyId.Some? then IdString(bodyId.value) else Undefined
  }

  /** `req.user.role === 'admin' || clientId === req.user._id.toString()` */
  predicate AllowedAsWritten(caller: Caller, clientId: IdValue)
  {
    caller.role == Admin || clientId == IdString(caller.id)
  }

  /**
    The GET endpoints as written refuse a client who omits `:clientId`: the
    default is the `_id` object, which is never `===` to its own string.
  */
  lemma DefaultPathRefusedAsWritten(caller: Caller)
    requires caller.role == Client
    ensures !AllowedAsWritten(caller, RequestedIdAsWritten(caller, None))
    ensures Authorized(caller, SubjectOf(caller, None))
  {
  }

  /** Ingestion as written refuses a client who omits the body's `clientId`. */
  lemma IngestDefaultRefusedAsWritten(caller: Caller)
    requires caller.role == Client
    ensures !AllowedAsWritten(caller, BodyIdAsWritten(None))
    ensures Authorized(caller, SubjectOf(caller, None))
  {
  }

  /**
    The written check and the intended one agree whenever a client id is
    supplied; the written one refuses more, and only on the default path.
  */
  lemma AsWrittenDiffersOnlyOnDefault(caller: Caller, param: Option<string>)
    ensures AllowedAsWritten(caller, RequestedIdAsWritten(caller, param)) ==> Authorized(caller, SubjectOf(caller, param))
    ensures Truthy(param) ==>
      (AllowedAsWritten(caller, RequestedIdAsWritten(caller, param)) <==> Authorized(caller, SubjectOf(caller, param)))
    ensures AllowedAsWritten(caller, BodyIdAsWritten(param)) ==> Authorized(caller, SubjectOf(caller, param))
  {
  }

  // ------------------------------------------------------------------
  // Store queries: find with a filter, sort, limit, and $sum
  // ------------------------------------------------------------------

  /** A filter document over EnergyData: an absent condition matches everything. */
  datatype Query = Query(clientId: Option<string>, since: Option<int>, period: Option<Period>)

  predicate Matches(q: Query, x: Sample)
  {
    && (q.clientId.Some? ==> x.clientId == q.clientId.value)
    && (q.since.Some? ==> x.timestamp >= q.since.value)
    && (q.period.Some? ==> x.period == q.period.value)
  }

  /** `find(q)`: the matching samples, in store order, each as often as it is stored. */
  function Find(samples: seq<Sample>, q: Query): (r: seq<Sample>)
    ensures |r| <= |samples|
  {
    if samples == [] then []
    else
      assert samples == [samples[0]] + samples[1..];
      if Matches(q, samples[0]) then [samples[0]] + Find(samples[1..], q)
      else Find(samples[1..], q)
  }

  /** A sample is returned exactly when it is stored and matches the query. */
  lemma {:induction false} FindMembers(samples: seq<Sample>, q: Query)
    ensures forall x :: x in Find(samples, q) <==> x in samples && Matches(q, x)
  {
    if samples != [] {
      assert samples == [samples[0]] + samples[1..];
      FindMembers(samples[1..], q);
    }
  }

  /** Each matching sample is returned as often as it is stored, and no other sample is. */
  lemma {:induction false} FindCounts(samples: seq<Sample>, q: Query)
    ensures forall x :: multiset(Find(samples, q))[x] == if Matches(q, x) then multiset(samples)[x] else 0
  {
    if samples != [] {
      assert samples == [samples[0]] + samples[1..];
      FindCounts(samples[1..], q);
    }
  }

  lemma {:induction false} FindAppend(a: seq<Sample>, b: seq<Sample>, q: Query)
    ensures Find(a + b, q) == Find(a, q) + Find(b, q)
  {
    if a == [] {
      assert a + b == b;
    } else {
      var ab, rest := a + b, a[1..];
      assert ab[0] == a[0];
      assert ab[1..] == rest + b;
      FindAppend(rest, b, q);
      var head := if Matches(q, a[0]) then [a[0]] else [];
      assert Find(ab, q) == head + Find(rest + b, q);
      assert Find(a, q) == head + Find(rest, q);
      assert head + (Find(rest, q) + Find(b, q)) == (head + Find(rest, q)) + Find(b, q);
    }
  }

  lemma SumCons(x: Sample, rows: seq<Sample>)
    ensures SumProduction([x] + rows) == x.production + SumProduction(rows)
    ensures SumConsumption([x] + rows) == x.consumption + SumConsumption(rows)
  {
    assert ([x] + rows)[1..] == rows;
  }

  function SumProduction(rows: seq<Sample>): real
  {
    if rows == [] then 0.0 else rows[0].production + SumProduction(rows[1..])
  }

  function SumConsumption(rows: seq<Sample>): real
  {
    if rows == [] then 0.0 else rows[0].consumption + SumConsumption(rows[1..])
  }

  lemma {:induction false} SumAppend(a: seq<Sample>, b: seq<Sample>)
    ensures SumProduction(a + b) == SumProduction(a) + SumProduction(b)
    ensures SumConsumption(a + b) == SumConsumption(a) + SumConsumption(b)
  {
    if a == [] {
      assert a + b == b;
    } else {
      assert (a + b)[0] == a[0];
      assert (a + b)[1..] == a[1..] + b;
      SumAppend(a[1..], b);
    }
  }

  /** The `{ production, consumption }` row of a `$group` with `_id: null`. */
  datatype Group = Group(production: real, consumption: real)

  /** `aggregate([$match, $group])`: no row at all when nothing matches. */
  function Aggregate(rows: seq<Sample>): (g: Option<Group>)
    ensures g.None? <==> rows == []
    ensures g.Some? ==> g.value == Group(SumProduction(rows), SumConsumption(rows))
  {
    if rows == [] then None else Some(Group(SumProduction(rows), SumConsumption(rows)))
  }

  function ProductionOf(g: Option<Group>): Option<real>
  {
    if g.Some? then Some(g.value.production) else None
  }

  function ConsumptionOf(g: Option<Group>): Option<real>
  {
    if g.Some? then Some(g.value.consumption) else None
  }

  // ------------------------------------------------------------------
  // Latest realtime sample (getRealTimeData)
  // ------------------------------------------------------------------

  /** `findOne({ clientId, period: 'realtime' }).sort({ timestamp: -1 })` */
  function Latest(samples: seq<Sample>, clientId: string): (r: Option<Sample>)
    ensures r.None? <==> forall x :: x in samples ==> x.clientId != clientId || x.period != Realtime
    ensures r.Some? ==>
      && r.value in samples && r.value.clientId == clientId && r.value.period == Realtime
      && forall x :: x in samples && x.clientId == clientId && x.period == Realtime ==> x.timestamp <= r.value.timestamp
  {
    var q := Query(Some(clientId), None, Some(Realtime));
    var m := SortDesc(Find(samples, q), Timestamp);
    FindMembers(samples, q);
    NewestFirstHead(Find(samples, q), Timestamp);
    if m == [] then None else Some(m[0])
  }

  /** The sample fabricated when a client has no realtime sample. */
  function MockRealtime(clientId: string, now: int, d: Draws): (s: Sample)
    ensures s.clientId == clientId && s.timestamp == now && s.period == Realtime
    ensures 2.0 <= s.production < 7.0 && 1.0 <= s.consumption < 4.0
    ensures 0.0 <= s.gridImport < 1.0 && 0.0 <= s.gridExport < 2.0
  {
    Sample(clientId, now, d.production * 5.0 + 2.0, d.consumption * 3.0 + 1.0,
           d.gridImport * 1.0, d.gridExport * 2.0, Realtime)
  }

  /**
    getRealTimeData: 403 before any read unless authorized; otherwise the
    subject's newest realtime sample, or a fabricated one when there is none.
  */
  function GetRealTimeData(caller: Caller, requested: Option<string>, samples: seq<Sample>, now: int, d: Draws): (r: Result<Sample>)
    ensures r.Err? <==> !Authorized(caller, SubjectOf(caller, requested))
    ensures r.Err? ==> r.error == Forbidden
    ensures r.Ok? ==> r.value.clientId == SubjectOf(caller, requested) && r.value.period == Realtime
    ensures r.Ok? && Latest(samples, SubjectOf(caller, requested)).Some? ==>
      r.value == Latest(samples, SubjectOf(caller, requested)).value
    ensures r.Ok? && Latest(samples, SubjectOf(caller, requested)).None? ==>
      r.value == MockRealtime(SubjectOf(caller, requested), now, d)
  {
    var clientId := SubjectOf(caller, requested);
    if !Authorized(caller, clientId) then Err(Forbidden)
    else
      match Latest(samples, clientId)
      case Some(s) => Ok(s)
      case None => Ok(MockRealtime(clientId, now, d))
  }

  // ------------------------------------------------------------------
  // History (getHistoryData)
  // ------------------------------------------------------------------

  /** The period table: the window start and the number of points for a token. */
  function PeriodWindow(token: string, c: Clock): (int, nat)
  {
    match token
    case "week" => (c.now - 7 * DayMs, 7)
    case "month" => (c.oneMonthAgo, 30)
    case "year" => (c.oneYearAgo, 12)
    case _ => (c.now - DayMs, 24)
  }

  /**
    The `switch` on the period token, updating `startDate` and `dataPoints`
    from their initial values; an unknown token (and 'day') takes the last
    24 hours.
  */
  method ResolvePeriod(token: string, c: Clock) returns (startDate: int, dataPoints: nat)
    ensures token == "week" ==> startDate == c.now - 7 * DayMs && dataPoints == 7
    ensures token == "month" ==> startDate == c.oneMonthAgo && dataPoints == 30
    ensures token == "year" ==> startDate == c.oneYearAgo && dataPoints == 12
    ensures token != "week" && token != "month" && token != "year" ==>
      startDate == c.now - DayMs && dataPoints == 24
    ensures (startDate, dataPoints) == PeriodWindow(token, c)
  {
    startDate := c.now;
    dataPoints := 24;
    match token {
      case "week" =>
        startDate := startDate - 7 * DayMs;
        dataPoints := 7;
      case "month" =>
        startDate := c.oneMonthAgo;
        dataPoints := 30;
      case "year" =>
        startDate := c.oneYearAgo;
        dataPoints := 12;
      case _ =>
        startDate := startDate - DayMs;
        dataPoints := 24;
    }
  }

  /** Longer periods reach further back, and every period asks for at least 7 points. */
  lemma PeriodWindowsNested(c: Clock)
    requires CalendarConsistent(c)
    ensures PeriodWindow("year", c).0 <= PeriodWindow("month", c).0 <= PeriodWindow("week", c).0 <= PeriodWindow("day", c).0 < c.now
    ensures forall token :: PeriodWindow(token, c).1 >= 7
  {
  }

  /** `find({ clientId, timestamp: { $gte: start } }).sort({ timestamp: -1 }).limit(n)` */
  function History(samples: seq<Sample>, clientId: string, start: int, limit: nat): seq<Sample>
  {
    Take(SortDesc(Find(samples, Query(Some(clientId), Some(start), None)), Timestamp), limit)
  }

  /**
    The real history holds only the subject's samples inside the window,
    newest first, as many as the limit allows, and no matching sample left
    out is newer than one returned.
  */
  lemma HistoryIsNewestInWindow(samples: seq<Sample>, clientId: string, start: int, limit: nat)
    ensures var r := History(samples, clientId, start, limit);
      var matching := Find(samples, Query(Some(clientId), Some(start), None));
      && (forall x :: x in r ==> x in samples && x.clientId == clientId && x.timestamp >= start)
      && SortedDesc(r, Timestamp)
      && multiset(r) <= multiset(matching)
      && |r| == (if limit < |matching| then limit else |matching|)
      && forall y, x :: y in samples && y.clientId == clientId && y.timestamp >= start && y !in r && x in r ==>
           y.timestamp <= x.timestamp
  {
    NewestFirstLimit(Find(samples, Query(Some(clientId), Some(start), None)), Timestamp, limit);
    HistoryInWindow(samples, clientId, start, limit);
    HistoryKeepsNewest(samples, clientId, start, limit);
  }

  lemma HistoryInWindow(samples: seq<Sample>, clientId: string, start: int, limit: nat)
    ensures forall x :: x in History(samples, clientId, start, limit) ==>
      x in samples && x.clientId == clientId && x.timestamp >= start
  {
    var matching := Find(samples, Query(Some(clientId), Some(start), None));
    var r := History(samples, clientId, start, limit);
    FindMembers(samples, Query(Some(clientId), Some(start), None));
    NewestFirstLimit(matching, Timestamp, limit);
    forall x | x in r
      ensures x in matching
    {
      assert x in multiset(r);
    }
  }

  lemma HistoryKeepsNewest(samples: seq<Sample>, clientId: string, start: int, limit: nat)
    ensures var r := History(samples, clientId, start, limit);
      forall y, x :: y in samples && y.clientId == clientId && y.timestamp >= start && y !in r && x in r ==>
        y.timestamp <= x.timestamp
  {
    var matching := Find(samples, Query(Some(clientId), Some(start), None));
    var r := History(samples, clientId, start, limit);
    FindMembers(samples, Query(Some(clientId), Some(start), None));
    OmittedAreOlder(matching, Timestamp, limit);
    forall y, x | y in samples && y.clientId == clientId && y.timestamp >= start && y !in r && x in r
      ensures y.timestamp <= x.timestamp
    {
      assert y in matching;
      assert Timestamp(y) <= Timestamp(x);
    }
  }

  /** One fabricated hourly point, `i` hours before `now`. */
  function MockPoint(clientId: string, now: int, i: nat, d: Draws): (x: Sample)
    ensures x.clientId == clientId && x.period == Hourly && x.timestamp == now - i * HourMs
    ensures 10.0 <= x.production < 40.0 && 5.0 <= x.consumption < 30.0
    ensures 0.0 <= x.gridImport < 5.0 && 0.0 <= x.gridExport < 10.0
  {
    Sample(clientId, now - i * HourMs, d.production * 30.0 + 10.0, d.consumption * 25.0 + 5.0,
           d.gridImport * 5.0, d.gridExport * 10.0, Hourly)
  }

  /** `Array.from({ length: n }, (_, i) => ...)`: `n` hourly points going back from `now`. */
  function MockHistory(clientId: string, now: int, n: nat, draw: nat -> Draws): (r: seq<Sample>)
    ensures |r| == n
    ensures forall i :: 0 <= i < n ==>
      && r[i].clientId == clientId && r[i].period == Hourly
      && r[i].timestamp == now - i * HourMs
      && 10.0 <= r[i].production < 40.0 && 5.0 <= r[i].consumption < 30.0
      && 0.0 <= r[i].gridImport < 5.0 && 0.0 <= r[i].gridExport < 10.0
    ensures forall i, j :: 0 <= i < j < n ==> r[i].timestamp > r[j].timestamp
  {
    var r := seq(n, (i: int) requires 0 <= i => MockPoint(clientId, now, i, draw(i)));
    assert forall i :: 0 <= i < n ==> r[i] == MockPoint(clientId, now, i, draw(i));
    assert forall i, j :: 0 <= i < j ==> i * HourMs < j * HourMs;
    r
  }

  lemma MockHistoryOwned(clientId: string, now: int, n: nat, draw: nat -> Draws)
    ensures forall x :: x in MockHistory(clientId, now, n, draw) ==> x.clientId == clientId
  {
    var m := MockHistory(clientId, now, n, draw);
    forall x | x in m
      ensures x.clientId == clientId
    {
      var i :| 0 <= i < n && m[i] == x;
    }
  }

  /** The fabricated points of any period lie inside that period's window. */
  lemma MockHistoryInsideWindow(token: string, c: Clock, clientId: string, draw: nat -> Draws)
    requires CalendarConsistent(c)
    ensures var (start, n) := PeriodWindow(token, c);
      forall x :: x in MockHistory(clientId, c.now, n, draw) ==> start <= x.timestamp <= c.now
  {
    var (start, n) := PeriodWindow(token, c);
    var m := MockHistory(clientId, c.now, n, draw);
    forall x | x in m
      ensures start <= x.timestamp <= c.now
    {
      var i :| 0 <= i < n && m[i] == x;
      assert n <= 30;
    }
  }

  /**
    getHistoryData: 403 before any read unless authorized; otherwise the
    real history of the period, or, when it is empty, exactly as many
    fabricated points as the period asks for.
  */
  function GetHistoryData(caller: Caller, requested: Option<string>, periodQuery: Option<string>,
                          samples: seq<Sample>, c: Clock, draw: nat -> Draws): (r: Result<seq<Sample>>)
    ensures r.Err? <==> !Authorized(caller, SubjectOf(caller, requested))
    ensures r.Err? ==> r.error == Forbidden
    ensures r.Ok? ==> |r.value| > 0
    ensures r.Ok? ==> forall x :: x in r.value ==> x.clientId == SubjectOf(caller, requested)
    ensures r.Ok? ==>
      var (start, n) := PeriodWindow(periodQuery.GetOr("day"), c);
      var found := History(samples, SubjectOf(caller, requested), start, n);
      r.value == if found != [] then found else MockHistory(SubjectOf(caller, requested), c.now, n, draw)
  {
    var clientId := SubjectOf(caller, requested);
    if !Authorized(caller, clientId) then Err(Forbidden)
    else
      var (start, n) := PeriodWindow(periodQuery.GetOr("day"), c);
      var found := History(samples, clientId, start, n);
      HistoryInWindow(samples, clientId, start, n);
      MockHistoryOwned(clientId, c.now, n, draw);
      assert n >= 7;
      if found != [] then Ok(found) else Ok(MockHistory(clientId, c.now, n, draw))
  }

  // ------------------------------------------------------------------
  // Summary (getSummary)
  // ------------------------------------------------------------------

  datatype Totals = Totals(production: real, consumption: real, savings: real)
  datatype Summary = Summary(today: Totals, month: Totals, year: Totals)

  /**
    One window of the summary: `row?.production || p0` and
    `row?.consumption || c0`, savings taken after the substitution.
  */
  function WindowTotals(g: Option<Group>, p0: real, c0: real): (t: Totals)
    ensures t.savings == t.production - t.consumption
  {
    var production := OrNumber(ProductionOf(g), p0);
    var consumption := OrNumber(ConsumptionOf(g), c0);
    Totals(production, consumption, production - consumption)
  }

  /** The summed rows of one client since a start. */
  function ClientSince(samples: seq<Sample>, clientId: string, start: int): seq<Sample>
  {
    Find(samples, Query(Some(clientId), Some(start), None))
  }

  /**
    The placeholder replaces a sum that is missing or zero: "no rows" and
    "rows that add up to zero" are indistinguishable.
  */
  lemma PlaceholderRule(rows: seq<Sample>, p0: real, c0: real)
    ensures var t := WindowTotals(Aggregate(rows), p0, c0);
      && t.production == (if SumProduction(rows) == 0.0 then p0 else SumProduction(rows))
      && t.consumption == (if SumConsumption(rows) == 0.0 then c0 else SumConsumption(rows))
  {
  }

  function GetSummary(caller: Caller, requested: Option<string>, samples: seq<Sample>, c: Clock): (r: Result<Summary>)
    ensures r.Err? <==> !Authorized(caller, SubjectOf(caller, requested))
    ensures r.Err? ==> r.error == Forbidden
    ensures r.Ok? ==>
      && r.value.today.savings == r.value.today.production - r.value.today.consumption
      && r.value.month.savings == r.value.month.production - r.value.month.consumption
      && r.value.year.savings == r.value.year.production - r.value.year.consumption
  {
    var clientId := SubjectOf(caller, requested);
    if !Authorized(caller, clientId) then Err(Forbidden)
    else
      Ok(Summary(
        WindowTotals(Aggregate(ClientSince(samples, clientId, c.startOfToday)), 45.5, 32.1),
        WindowTotals(Aggregate(ClientSince(samples, clientId, c.startOfMonth)), 1234.5, 890.2),
        WindowTotals(Aggregate(ClientSince(samples, clientId, c.startOfYear)), 14567.8, 10234.5)))
  }

  /** Each window of an authorized summary is the subject's sum since its start, or its placeholder. */
  lemma SummaryWindows(caller: Caller, requested: Option<string>, samples: seq<Sample>, c: Clock)
    requires Authorized(caller, SubjectOf(caller, requested))
    ensures var s := GetSummary(caller, requested, samples, c).value;
      var id := SubjectOf(caller, requested);
      var today := ClientSince(samples, id, c.startOfToday);
      var month := ClientSince(samples, id, c.startOfMonth);
      var year := ClientSince(samples, id, c.startOfYear);
      && s.today.production == (if SumProduction(today) == 0.0 then 45.5 else SumProduction(today))
      && s.today.consumption == (if SumConsumption(today) == 0.0 then 32.1 else SumConsumption(today))
      && s.month.production == (if SumProduction(month) == 0.0 then 1234.5 else SumProduction(month))
      && s.month.consumption == (if SumConsumption(month) == 0.0 then 890.2 else SumConsumption(month))
      && s.year.production == (if SumProduction(year) == 0.0 then 14567.8 else SumProduction(year))
      && s.year.consumption == (if SumConsumption(year) == 0.0 then 10234.5 else SumConsumption(year))
  {
    var id := SubjectOf(caller, requested);
    PlaceholderRule(ClientSince(samples, id, c.startOfToday), 45.5, 32.1);
    PlaceholderRule(ClientSince(samples, id, c.startOfMonth), 1234.5, 890.2);
    PlaceholderRule(ClientSince(samples, id, c.startOfYear), 14567.8, 10234.5);
  }

  lemma {:induction false} NoSamplesNoRows(samples: seq<Sample>, id: string, start: int)
    requires forall x :: x in samples ==> x.clientId != id
    ensures ClientSince(samples, id, start) == []
  {
    if samples != [] {
      assert samples[0] in samples;
      assert forall x :: x in samples[1..] ==> x in samples;
      NoSamplesNoRows(samples[1..], id, start);
    }
  }

  /** A subject with no samples gets the three literal placeholder windows. */
  lemma SummaryOfNoSamples(caller: Caller, requested: Option<string>, samples: seq<Sample>, c: Clock)
    requires Authorized(caller, SubjectOf(caller, requested))
    requires forall x :: x in samples ==> x.clientId != SubjectOf(caller, requested)
    ensures GetSummary(caller, requested, samples, c) ==
      Ok(Summary(Totals(45.5, 32.1, 13.4), Totals(1234.5, 890.2, 344.3), Totals(14567.8, 10234.5, 4333.3)))
  {
    var id := SubjectOf(caller, requested);
    NoSamplesNoRows(samples, id, c.startOfToday);
    NoSamplesNoRows(samples, id, c.startOfMonth);
    NoSamplesNoRows(samples, id, c.startOfYear);
  }

  /** With non-negative production, a window that starts earlier sums at least as much. */
  lemma {:induction false} EarlierStartSumsMore(samples: seq<Sample>, clientId: string, t1: int, t2: int)
    requires t1 <= t2
    requires forall x :: x in samples ==> x.production >= 0.0 && x.consumption >= 0.0
    ensures SumProduction(ClientSince(samples, clientId, t1)) >= SumProduction(ClientSince(samples, clientId, t2))
    ensures SumConsumption(ClientSince(samples, clientId, t1)) >= SumConsumption(ClientSince(samples, clientId, t2))
  {
    if samples != [] {
      var x, rest := samples[0], samples[1..];
      assert x in samples;
      assert forall y :: y in rest ==> y in samples;
      EarlierStartSumsMore(rest, clientId, t1, t2);
      var r1, r2 := ClientSince(rest, clientId, t1), ClientSince(rest, clientId, t2);
      SumCons(x, r1);
      SumCons(x, r2);
      if x.clientId == clientId && x.timestamp >= t1 {
        assert ClientSince(samples, clientId, t1) == [x] + r1;
      } else {
        assert ClientSince(samples, clientId, t1) == r1;
      }
      if x.clientId == clientId && x.timestamp >= t2 {
        assert ClientSince(samples, clientId, t2) == [x] + r2;
      } else {
        assert ClientSince(samples, clientId, t2) == r2;
      }
    }
  }

  /** So the raw year sum covers the month sum, which covers today's. */
  lemma SummaryWindowsNested(samples: seq<Sample>, clientId: string, c: Clock)
    requires CalendarConsistent(c)
    requires forall x :: x in samples ==> x.production >= 0.0 && x.consumption >= 0.0
    ensures SumProduction(ClientSince(samples, clientId, c.startOfYear))
         >= SumProduction(ClientSince(samples, clientId, c.startOfMonth))
         >= SumProduction(ClientSince(samples, clientId, c.startOfToday))
    ensures SumConsumption(ClientSince(samples, clientId, c.startOfYear))
         >= SumConsumption(ClientSince(samples, clientId, c.startOfMonth))
         >= SumConsumption(ClientSince(samples, clientId, c.startOfToday))
  {
    EarlierStartSumsMore(samples, clientId, c.startOfYear, c.startOfMonth);
    EarlierStartSumsMore(samples, clientId, c.startOfMonth, c.startOfToday);
  }

  // ------------------------------------------------------------------
  // Ingestion (addEnergyData)
  // ------------------------------------------------------------------

  /** The fields `addEnergyData` reads from the request body. */
  datatype EnergyBody = EnergyBody(
    clientId: Option<string>,
    production: Option<real>,
    consumption: Option<real>,
    gridImport: Option<real>,
    gridExport: Option<real>,
    period: Option<string>)

  /**
    The document `EnergyData.create` stores: the subject defaults to the
    caller, the period to 'hourly', a missing quantity to the schema default
    0, the timestamp to the clock; values are copied without any sign check.
    An authorized request whose period is not in the enumeration fails
    validation (answered 500) and stores nothing.
  */
  function Ingest(caller: Caller, body: EnergyBody, now: int): (r: Result<Sample>)
    ensures r == Err(Forbidden) <==> !Authorized(caller, SubjectOf(caller, body.clientId))
    ensures r.Ok? <==> Authorized(caller, SubjectOf(caller, body.clientId)) && ParsePeriod(OrElse(body.period, "hourly")).Some?
    ensures r.Ok? ==>
      && r.value.clientId == SubjectOf(caller, body.clientId)
      && r.value.timestamp == now
      && r.value.production == body.production.GetOr(0.0)
      && r.value.consumption == body.consumption.GetOr(0.0)
      && r.value.gridImport == body.gridImport.GetOr(0.0)
      && r.value.gridExport == body.gridExport.GetOr(0.0)
      && Some(r.value.period) == ParsePeriod(OrElse(body.period, "hourly"))
    ensures r.Ok? && !Truthy(body.period) ==> r.value.period == Hourly
    ensures r.Err? ==> r.error == Forbidden || r.error == ServerError
  {
    var clientId := SubjectOf(caller, body.clientId);
    if !Authorized(caller, clientId) then Err(Forbidden)
    else
      match ParsePeriod(OrElse(body.period, "hourly"))
      case None => Err(ServerError)
      case Some(p) =>
        Ok(Sample(clientId, now, body.production.GetOr(0.0), body.consumption.GetOr(0.0),
                  body.gridImport.GetOr(0.0), body.gridExport.GetOr(0.0), p))
  }

  /** The EnergyData collection: append-only. */
  class EnergyStore {
    var samples: seq<Sample>

    constructor ()
      ensures samples == []
    {
      samples := [];
    }

    /** addEnergyData: stores the ingested sample, or nothing when it is refused or invalid. */
    method AddEnergyData(caller: Caller, body: EnergyBody, now: int) returns (r: Result<Sample>)
      modifies this
      ensures r == Ingest(caller, body, now)
      ensures r.Ok? ==> samples == old(samples) + [r.value]
      ensures r.Err? ==> samples == old(samples)
    {
      var clientId := SubjectOf(caller, body.clientId);
      if !Authorized(caller, clientId) {
        return Err(Forbidden);
      }
      var period := ParsePeriod(OrElse(body.period, "hourly"));
      if period.None? {
        return Err(ServerError);
      }
      var energyData := Sample(clientId, now, body.production.GetOr(0.0), body.consumption.GetOr(0.0),
                               body.gridImport.GetOr(0.0), body.gridExport.GetOr(0.0), period.value);
      samples := samples + [energyData];
      r := Ok(energyData);
    }
  }

  /**
    A stored sample moves a window's sum by exactly its own quantities when
    it belongs to that client and window, and not at all otherwise.
  */
  lemma IngestShiftsWindowSum(samples: seq<Sample>, x: Sample, clientId: string, start: int)
    ensures SumProduction(ClientSince(samples + [x], clientId, start)) ==
      SumProduction(ClientSince(samples, clientId, start)) + (if x.clientId == clientId && x.timestamp >= start then x.production else 0.0)
    ensures SumConsumption(ClientSince(samples + [x], clientId, start)) ==
      SumConsumption(ClientSince(samples, clientId, start)) + (if x.clientId == clientId && x.timestamp >= start then x.consumption else 0.0)
  {
    var q := Query(Some(clientId), Some(start), None);
    FindAppend(samples, [x], q);
    SumAppend(Find(samples, q), Find([x], q));
    assert [x][1..] == [];
  }

  // ------------------------------------------------------------------
  // Fleet statistics (getAdminStats)
  // ------------------------------------------------------------------

  datatype FleetStats = FleetStats(
    totalClients: nat,
    activeClients: nat,
    inactiveClients: int,
    todayProduction: real,
    todayConsumption: real)

  /** `countDocuments({ role: 'client' })` */
  function CountClients(users: seq<Users.User>): nat
  {
    if users == [] then 0
    else (if users[0].role == Client then 1 else 0) + CountClients(users[1..])
  }

  /** `countDocuments({ role: 'client', isActive: true })` */
  function CountActiveClients(users: seq<Users.User>): nat
  {
    if users == [] then 0
    else (if users[0].role == Client && users[0].isActive then 1 else 0) + CountActiveClients(users[1..])
  }

  /** The clients not flagged active. */
  function CountInactiveClients(users: seq<Users.User>): nat
  {
    if users == [] then 0
    else (if users[0].role == Client && !users[0].isActive then 1 else 0) + CountInactiveClients(users[1..])
  }

  lemma {:induction false} ClientsSplitByActivity(users: seq<Users.User>)
    ensures CountClients(users) == CountActiveClients(users) + CountInactiveClients(users)
  {
    if users != [] {
      ClientsSplitByActivity(users[1..]);
    }
  }

  lemma {:induction false} NoFlagNoActive(users: seq<Users.User>)
    requires forall u :: u in users ==> !u.isActive
    ensures CountActiveClients(users) == 0
  {
    if users != [] {
      assert users[0] in users;
      NoFlagNoActive(users[1..]);
    }
  }

  /**
    getAdminStats: client counts over the users, and today's production and
    consumption over every client's samples since midnight, 0 when none.
  */
  function GetAdminStats(users: seq<Users.User>, samples: seq<Sample>, startOfToday: int): (r: FleetStats)
    ensures r.totalClients == CountClients(users) && r.activeClients == CountActiveClients(users)
    ensures r.inactiveClients == CountInactiveClients(users) >= 0
  {
    var total := CountClients(users);
    var active := CountActiveClients(users);
    var today := Aggregate(Find(samples, Query(None, Some(startOfToday), None)));
    ClientsSplitByActivity(users);
    FleetStats(total, active, total - active, OrNumber(ProductionOf(today), 0.0), OrNumber(ConsumptionOf(today), 0.0))
  }

  /** The `|| 0` of the fleet totals changes nothing: they are the plain sums since midnight. */
  lemma AdminTotalsArePlainSums(users: seq<Users.User>, samples: seq<Sample>, startOfToday: int)
    ensures var r := GetAdminStats(users, samples, startOfToday);
      var rows := Find(samples, Query(None, Some(startOfToday), None));
      r.todayProduction == SumProduction(rows) && r.todayConsumption == SumConsumption(rows)
  {
  }

  /**
    No user document written through the schema carries `isActive`, so every
    client counts as inactive.
  */
  lemma AdminStatsWithoutActiveFlag(users: seq<Users.User>, samples: seq<Sample>, startOfToday: int)
    requires forall u :: u in users ==> !u.isActive
    ensures GetAdminStats(users, samples, startOfToday).activeClients == 0
    ensures GetAdminStats(users, samples, startOfToday).inactiveClients == CountClients(users)
  {
    NoFlagNoActive(users);
  }

  lemma AdminStatsOfEmptyFleet(startOfToday: int)
    ensures GetAdminStats([], [], startOfToday) == FleetStats(0, 0, 0, 0.0, 0.0)
  {
  }
}
