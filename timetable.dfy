/**
 * The weekly time table: for the week around a reference day (shifted by a
 * whole number of weeks), the controller lists the tickets that have time
 * logged in that week and, for every ticket and every day of the week, the
 * time entries the repository returns, together with display fields of the
 * ticket. It also answers "which tickets are active between two dates" and
 * dispatches a submitted entry to update or create.
 *
 * Dates are whole day numbers in the user's timezone. Everything the date
 * library and the repositories do is an uninterpreted function, held in the
 * `Clock` and `Repository` values the operations receive.
 */
module TimeTable {
  import opened Wrappers
  import Php
  import Settings

  /** A calendar day in the user's timezone. */
  type Day = int

  /** A point in time in the database's timezone. */
  type Instant = int

  /** The date library's answers, which the model does not interpret. */
  datatype Clock = Clock(
    /** `$now->startOfWeek()->setToUserTimezone()`, as a day. */
    weekStartUser: Day -> Day,
    /** `$now->startOfWeek()->setToDbTimezone()`. */
    weekStartDb: Day -> Instant,
    /** `$now->endOfWeek()->setToDbTimezone()`. */
    weekEndDb: Day -> Instant,
    /** `$weekDate->setToDbTimezone()` for a date of the week. */
    dayToDb: Day -> Instant,
    /** `(new CarbonImmutable($s, userTimezone))->setToDbTimezone()`. */
    parseLocal: string -> Instant)

  /** One row returned by `getTimesheetByTicketIdAndWorkDate`, as far as the controller reads it. */
  datatype Entry = Entry(headline: string, name: string, ticketId: int)

  /** The time-table service's queries, which the model does not interpret. */
  datatype Repository = Repository(
    /** `getUniqueTicketIds($start, $end)`: the `ticketId` column, possibly null. */
    uniqueTicketIds: (Instant, Instant) -> seq<Option<int>>,
    /** `getTimesheetByTicketIdAndWorkDate($ticketId, $date, $searchTerm)`. */
    timesheets: (int, Instant, Option<string>) -> seq<Entry>)

  /** The display fields copied onto a ticket's row. */
  datatype Summary = Summary(ticketTitle: string, ticketLink: string, projectName: string, ticketId: int)

  /**
   * A ticket's row: the entries of every week date, keyed by the date
   * (`format('Y-m-d')`), and the display fields once some day had entries.
   */
  datatype Row = Row(byDay: map<Day, seq<Entry>>, summary: Option<Summary>)

  /** Everything `get` hands to the week template. */
  datatype WeekView = WeekView(
    currentSearchTerm: Option<string>,
    weekDays: seq<string>,
    weekDates: seq<Day>,
    ticketIds: seq<int>,
    ticketIdsText: string,
    timesheetsByTicket: map<int, Row>,
    ticketCacheExpiration: int)

  /** The two answers of `get`: the active-ticket list, or the week page. */
  datatype GetResponse = ActiveTicketIds(ids: seq<Option<int>>) | Week(view: WeekView)

  /** The service call `post` makes for a submitted time entry. */
  datatype TimeAction =
    | UpdateTime(workDate: Instant, hours: Option<string>, description: Option<string>, id: string)
    | LogTimeOnTicket(userId: int, hours: Option<string>, workDate: Instant, ticketId: Option<string>,
                      description: Option<string>, kind: string)

  const GeneralBillable: string := "GENERAL_BILLABLE"

  // ---------------------------------------------------------------------
  // Week offset
  // ---------------------------------------------------------------------

  /** The whole weeks the `offset` parameter asks for; none when it is absent. */
  function OffsetWeeks(offset: Option<string>): int
  {
    if offset.Some? then Php.IntCast(offset.value) else 0
  }

  /**
   * The reference day moved by the `offset` parameter: forward by
   * `offset * 7` days when the offset is positive, otherwise back by
   * `|offset| * 7` days. Both branches land on `now + 7 * offset`.
   */
  method ShiftNow(now: Day, offset: Option<string>) returns (shifted: Day)
    ensures shifted == now + 7 * OffsetWeeks(offset)
    ensures offset.None? ==> shifted == now
  {
    shifted := now;
    if offset.Some? {
      var weeks := Php.IntCast(offset.value);
      if weeks > 0 {
        shifted := shifted + weeks * 7;
      } else {
        var magnitude := if weeks < 0 then -weeks else weeks;
        shifted := shifted - magnitude * 7;
      }
    }
  }

  // ---------------------------------------------------------------------
  // Search filter
  // ---------------------------------------------------------------------

  /** The search term passed to every query: null unless a non-empty term was given. */
  function SearchFilter(searchTerm: Option<string>): (filter: Option<string>)
    ensures filter.None? <==> searchTerm.None? || searchTerm.value == ""
    ensures filter.Some? ==> filter == searchTerm
  {
    if searchTerm.Some? && searchTerm.value != "" then searchTerm else None
  }

  // ---------------------------------------------------------------------
  // Day names and week dates
  // ---------------------------------------------------------------------

  /**
   * `$days[] = array_shift($days)`: the locale's first day name (Sunday)
   * moves to the end, everything else moves up one place.
   */
  function RotateToMonday(days: seq<string>): (rotated: seq<string>)
    requires |days| >= 1
    ensures |rotated| == |days|
  {
    days[1..] + [days[0]]
  }

  /**
   * The rotation keeps every name and the length: name `i` of the result is
   * name `(i + 1) mod n` of the locale's list, that is, every name but the
   * first moves up one place and the first one goes to the end.
   */
  lemma RotationKeepsNames(days: seq<string>)
    requires |days| >= 1
    ensures forall i :: 0 <= i < |days| - 1 ==> RotateToMonday(days)[i] == days[i + 1]
    ensures RotateToMonday(days)[|days| - 1] == days[0]
    ensures multiset(RotateToMonday(days)) == multiset(days)
  {
    assert days == [days[0]] + days[1..];
  }

  /** Date `k` is `k` days after `start`. */
  ghost predicate CountsUpFrom(dates: seq<Day>, start: Day)
  {
    forall k :: 0 <= k < |dates| ==> dates[k] == start + k
  }

  /** Dates that count up from a start are consecutive days. */
  lemma ConsecutiveDays(dates: seq<Day>, start: Day)
    requires CountsUpFrom(dates, start)
    ensures forall k :: 0 <= k < |dates| - 1 ==> dates[k + 1] - dates[k] == 1
  {
  }

  /** One date per day name, counting up from the week's first day. */
  method WeekDates(weekStart: Day, days: seq<string>) returns (dates: seq<Day>)
    ensures |dates| == |days|
    ensures CountsUpFrom(dates, weekStart)
  {
    dates := [];
    var key := 0;
    while key < |days|
      invariant 0 <= key <= |days|
      invariant |dates| == key
      invariant forall k :: 0 <= k < key ==> dates[k] == weekStart + k
    {
      dates := dates + [weekStart + key];
      key := key + 1;
    }
  }

  // ---------------------------------------------------------------------
  // Ticket discovery
  // ---------------------------------------------------------------------

  /** The discovered ids the week page keeps: the truthy ones, in order. */
  function KeptIds(discovered: seq<Option<int>>): (kept: seq<int>)
    ensures |kept| <= |discovered|
    ensures forall x :: x in kept <==> x != 0 && Some(x) in discovered
  {
    if |discovered| == 0 then []
    else
      var last := discovered[|discovered| - 1];
      var before := discovered[..|discovered| - 1];
      assert discovered == before + [last];
      KeptIds(before) + (if Php.FalsyInt(last) then [] else [last.value])
  }

  /** Keeping distributes over concatenation: the kept ids stay in discovery order. */
  lemma {:induction false} KeptIdsAppend(a: seq<Option<int>>, b: seq<Option<int>>)
    ensures KeptIds(a + b) == KeptIds(a) + KeptIds(b)
    decreases |b|
  {
    if |b| > 0 {
      var b' := b[..|b| - 1];
      KeptIdsAppend(a, b');
      assert (a + b)[..|a + b| - 1] == a + b';
      assert (a + b)[|a + b| - 1] == b[|b| - 1];
    } else {
      assert a + b == a;
    }
  }

  /** `getActiveTicketIdsOfPeriod`: the raw ticket-id column, or nothing without both dates. */
  function ActiveIds(start: Option<string>, end: Option<string>, clock: Clock, repo: Repository)
    : (ids: seq<Option<int>>)
    ensures Php.FalsyString(start) || Php.FalsyString(end) ==> ids == []
    ensures !Php.FalsyString(start) && !Php.FalsyString(end) ==>
              ids == repo.uniqueTicketIds(clock.parseLocal(start.value), clock.parseLocal(end.value))
  {
    if Php.FalsyString(start) || Php.FalsyString(end) then []
    else repo.uniqueTicketIds(clock.parseLocal(start.value), clock.parseLocal(end.value))
  }

  // ---------------------------------------------------------------------
  // One ticket's row
  // ---------------------------------------------------------------------

  /** The entries for `ticket` on `day` under `filter`. */
  function Fetch(repo: Repository, clock: Clock, ticket: int, day: Day, filter: Option<string>): seq<Entry>
  {
    repo.timesheets(ticket, clock.dayToDb(day), filter)
  }

  const ModalParam: string := "?showTicketModal="
  const TicketRoute: string := "#/tickets/showTicket/"

  /**
   * `'?showTicketModal=' . $id . '#/tickets/showTicket/' . $id`: the modal
   * parameter, the id, the ticket route and the id again.
   */
  function TicketLink(id: int): (link: string)
    ensures ModalParam <= link
    ensures |link| == |ModalParam| + |TicketRoute| + 2 * |Php.IntToDecimal(id)|
  {
    var dec := Php.IntToDecimal(id);
    assert ModalParam + dec + TicketRoute + dec == ModalParam + (dec + TicketRoute + dec);
    ModalParam + dec + TicketRoute + dec
  }

  /**
   * Both places of the link name the ticket: the text after the modal
   * parameter and the text after the ticket route each read back as `id`,
   * and the ticket route sits between them.
   */
  lemma TicketLinkNamesTicket(id: int)
    ensures Php.IntCast(TicketLink(id)[|ModalParam|..]) == id
    ensures TicketLink(id)[|ModalParam| + |Php.IntToDecimal(id)|..][..|TicketRoute|] == TicketRoute
    ensures Php.IntCast(TicketLink(id)[|ModalParam| + |Php.IntToDecimal(id)| + |TicketRoute|..]) == id
  {
    var dec := Php.IntToDecimal(id);
    var link := TicketLink(id);
    assert link[|ModalParam| + |dec|..] == TicketRoute + dec;
    assert link[|ModalParam|..] == dec + (TicketRoute + dec);
    Php.CastOfDecimalThen(id, TicketRoute + dec);
    assert link[|ModalParam| + |dec| + |TicketRoute|..] == dec;
    Php.CastOfDecimal(id);
  }

  /**
   * The display fields, taken from the first entry of a day: its headline,
   * project name and ticket id, and a link that opens that same ticket.
   */
  function SummaryOf(e: Entry): (s: Summary)
    ensures s.ticketTitle == e.headline && s.projectName == e.name && s.ticketId == e.ticketId
    ensures s.ticketLink == TicketLink(s.ticketId)
  {
    Summary(e.headline, TicketLink(e.ticketId), e.name, e.ticketId)
  }

  const EmptyRow: Row := Row(map[], None)

  /**
   * The row after the days in `dates`, in order: each date's entries are
   * stored under the date, and a non-empty day overwrites the display
   * fields.
   */
  function RowOf(repo: Repository, clock: Clock, ticket: int, dates: seq<Day>, filter: Option<string>): (r: Row)
    ensures |r.byDay| <= |dates|
    ensures r.summary.Some? ==> |dates| > 0
  {
    if |dates| == 0 then EmptyRow
    else
      var row := RowOf(repo, clock, ticket, dates[..|dates| - 1], filter);
      var day := dates[|dates| - 1];
      var entries := Fetch(repo, clock, ticket, day, filter);
      Row(row.byDay[day := entries],
          if |entries| > 0 then Some(SummaryOf(entries[0])) else row.summary)
  }

  /** A row has exactly one key per week date and no other key. */
  lemma {:induction false} RowKeys(repo: Repository, clock: Clock, ticket: int, dates: seq<Day>, filter: Option<string>)
    ensures forall d :: d in RowOf(repo, clock, ticket, dates, filter).byDay <==> d in dates
  {
    if |dates| > 0 {
      var before := dates[..|dates| - 1];
      RowKeys(repo, clock, ticket, before, filter);
      assert dates == before + [dates[|dates| - 1]];
    }
  }

  /**
   * The key of every week date holds exactly what the repository returned
   * for the date, an empty list included.
   */
  lemma {:induction false} RowValues(repo: Repository, clock: Clock, ticket: int, dates: seq<Day>, filter: Option<string>)
    ensures forall k :: 0 <= k < |dates| ==>
              dates[k] in RowOf(repo, clock, ticket, dates, filter).byDay
              && RowOf(repo, clock, ticket, dates, filter).byDay[dates[k]] == Fetch(repo, clock, ticket, dates[k], filter)
  {
    if |dates| > 0 {
      var before := dates[..|dates| - 1];
      RowValues(repo, clock, ticket, before, filter);
      forall k | 0 <= k < |dates| - 1
        ensures dates[k] == before[k]
      {
      }
    }
  }

  /** Day `k` of `dates` had entries and no later day did. */
  ghost predicate LastFilledDay(repo: Repository, clock: Clock, ticket: int, dates: seq<Day>, filter: Option<string>, k: int)
  {
    && 0 <= k < |dates|
    && Fetch(repo, clock, ticket, dates[k], filter) != []
    && forall j :: k < j < |dates| ==> Fetch(repo, clock, ticket, dates[j], filter) == []
  }

  /** The display fields are present exactly when some day of the week had entries. */
  lemma {:induction false} RowSummaryPresent(repo: Repository, clock: Clock, ticket: int, dates: seq<Day>, filter: Option<string>)
    ensures RowOf(repo, clock, ticket, dates, filter).summary.None? <==>
              forall k :: 0 <= k < |dates| ==> Fetch(repo, clock, ticket, dates[k], filter) == []
  {
    if |dates| > 0 {
      var before := dates[..|dates| - 1];
      RowSummaryPresent(repo, clock, ticket, before, filter);
      forall k | 0 <= k < |dates| - 1
        ensures dates[k] == before[k]
      {
      }
    }
  }

  /**
   * When present, the display fields come from the first entry of the LAST
   * day that had entries, not the first one.
   */
  lemma {:induction false} RowSummaryFromLastDay(repo: Repository, clock: Clock, ticket: int, dates: seq<Day>, filter: Option<string>)
    requires RowOf(repo, clock, ticket, dates, filter).summary.Some?
    ensures exists k :: LastFilledDay(repo, clock, ticket, dates, filter, k)
              && RowOf(repo, clock, ticket, dates, filter).summary.value
                   == SummaryOf(Fetch(repo, clock, ticket, dates[k], filter)[0])
  {
    var n := |dates|;
    var last := Fetch(repo, clock, ticket, dates[n - 1], filter);
    if |last| > 0 {
      assert LastFilledDay(repo, clock, ticket, dates, filter, n - 1);
    } else {
      var before := dates[..n - 1];
      RowSummaryFromLastDay(repo, clock, ticket, before, filter);
      var k :| LastFilledDay(repo, clock, ticket, before, filter, k)
        && RowOf(repo, clock, ticket, before, filter).summary.value
             == SummaryOf(Fetch(repo, clock, ticket, before[k], filter)[0]);
      LastFilledDayExtends(repo, clock, ticket, dates, filter, k);
    }
  }

  /** An empty last day keeps the last filled day of the days before it. */
  lemma {:induction false} LastFilledDayExtends(repo: Repository, clock: Clock, ticket: int, dates: seq<Day>, filter: Option<string>, k: int)
    requires |dates| >= 1 && Fetch(repo, clock, ticket, dates[|dates| - 1], filter) == []
    requires LastFilledDay(repo, clock, ticket, dates[..|dates| - 1], filter, k)
    ensures LastFilledDay(repo, clock, ticket, dates, filter, k)
    ensures dates[..|dates| - 1][k] == dates[k]
  {
    var n := |dates|;
    var before := dates[..n - 1];
    forall j | k < j < n
      ensures Fetch(repo, clock, ticket, dates[j], filter) == []
    {
      if j < n - 1 {
        assert before[j] == dates[j];
      }
    }
  }

  /**
   * A row whose week has entries on day `i` and again on a later day `j`,
   * the last one with entries, shows day `j`'s display fields: the later
   * day overwrites the earlier one.
   */
  lemma {:induction false} LaterDayOverwritesSummary(repo: Repository, clock: Clock, ticket: int, dates: seq<Day>,
                                  filter: Option<string>, i: int, j: int)
    requires 0 <= i < j < |dates|
    requires Fetch(repo, clock, ticket, dates[i], filter) != []
    requires LastFilledDay(repo, clock, ticket, dates, filter, j)
    ensures RowOf(repo, clock, ticket, dates, filter).summary
              == Some(SummaryOf(Fetch(repo, clock, ticket, dates[j], filter)[0]))
  {
    var row := RowOf(repo, clock, ticket, dates, filter);
    RowSummaryPresent(repo, clock, ticket, dates, filter);
    assert row.summary.Some?;
    RowSummaryFromLastDay(repo, clock, ticket, dates, filter);
    var k :| LastFilledDay(repo, clock, ticket, dates, filter, k)
      && row.summary.value == SummaryOf(Fetch(repo, clock, ticket, dates[k], filter)[0]);
    assert k == j;
  }

  // ---------------------------------------------------------------------
  // The ticket × day matrix
  // ---------------------------------------------------------------------

  /** The inner loop of `get`: one ticket's row, filled date by date. */
  method FillRow(ticket: int, weekDates: seq<Day>, filter: Option<string>, clock: Clock, repo: Repository)
    returns (row: Row)
    ensures row == RowOf(repo, clock, ticket, weekDates, filter)
  {
    row := EmptyRow;
    var j := 0;
    while j < |weekDates|
      invariant 0 <= j <= |weekDates|
      invariant row == RowOf(repo, clock, ticket, weekDates[..j], filter)
    {
      ghost var done := weekDates[..j + 1];
      assert done[..j] == weekDates[..j] && done[j] == weekDates[j];
      var entries := Fetch(repo, clock, ticket, weekDates[j], filter);
      row := row.(byDay := row.byDay[weekDates[j] := entries]);
      if |entries| > 0 {
        row := row.(summary := Some(SummaryOf(entries[0])));
      }
      assert row == RowOf(repo, clock, ticket, done, filter);
      j := j + 1;
    }
    assert weekDates[..j] == weekDates;
  }

  /**
   * `ticketIds` lists the kept discovered ids in discovery order, and
   * `byTicket` holds exactly one row per kept id, the row `RowOf` specifies.
   */
  ghost predicate IsMatrix(ticketIds: seq<int>, byTicket: map<int, Row>, discovered: seq<Option<int>>,
                           weekDates: seq<Day>, filter: Option<string>, clock: Clock, repo: Repository)
  {
    && ticketIds == KeptIds(discovered)
    && (forall t :: t in byTicket <==> t in ticketIds)
    && (forall t :: t in byTicket ==> byTicket[t] == RowOf(repo, clock, t, weekDates, filter))
  }

  /**
   * The nested loop of `get`: every discovered ticket with a truthy id
   * gets its id listed and a row filled day by day in week order.
   */
  method BuildMatrix(discovered: seq<Option<int>>, weekDates: seq<Day>, filter: Option<string>,
                     clock: Clock, repo: Repository)
    returns (ticketIds: seq<int>, byTicket: map<int, Row>)
    ensures IsMatrix(ticketIds, byTicket, discovered, weekDates, filter, clock, repo)
  {
    ticketIds := [];
    byTicket := map[];
    var i := 0;
    while i < |discovered|
      invariant 0 <= i <= |discovered|
      invariant ticketIds == KeptIds(discovered[..i])
      invariant forall t :: t in byTicket <==> t in ticketIds
      invariant forall t :: t in byTicket ==> byTicket[t] == RowOf(repo, clock, t, weekDates, filter)
    {
      var ticket := discovered[i];
      assert discovered[..i + 1] == discovered[..i] + [ticket];
      if !Php.FalsyInt(ticket) {
        var id := ticket.value;
        ticketIds := ticketIds + [id];
        var row := FillRow(id, weekDates, filter, clock, repo);
        byTicket := byTicket[id := row];
      }
      i := i + 1;
    }
    assert discovered[..i] == discovered;
  }

  // ---------------------------------------------------------------------
  // The controller actions
  // ---------------------------------------------------------------------

  /** The cache lifetime `get` shows: `getSetting(key) ?? 1200`. */
  function WeekCacheExpiration(settings: map<string, int>): (seconds: int)
    ensures Settings.CacheExpirationKey in settings ==> seconds == settings[Settings.CacheExpirationKey]
    ensures Settings.CacheExpirationKey !in settings ==> seconds == Settings.DefaultCacheExpiration
  {
    Lookup(settings, Settings.CacheExpirationKey).GetOr(Settings.DefaultCacheExpiration)
  }

  /**
   * The week page and the settings page read the same setting with
   * different defaults (`??` against `?:`): they show different values
   * exactly when the stored value is 0.
   */
  lemma CacheReadsDisagreeOnZero(settings: map<string, int>)
    ensures WeekCacheExpiration(settings) != Settings.CacheExpiration(settings) <==>
              Settings.CacheExpirationKey in settings && settings[Settings.CacheExpirationKey] == 0
  {
  }

  /** The reference day of the week page: `today` moved by the `offset` parameter. */
  function RequestedDay(query: map<string, string>, today: Day): Day
  {
    today + 7 * OffsetWeeks(Lookup(query, "offset"))
  }

  /** The search filter of the week page. */
  function RequestedFilter(query: map<string, string>): Option<string>
  {
    SearchFilter(Lookup(query, "searchTerm"))
  }

  /**
   * What the week page shows for reference day `now` and `filter`: the
   * filter, the rotated day names, one date per name counting up from the
   * week's first day, the kept ticket ids (also as comma-joined text), one
   * row per kept ticket and the cache lifetime.
   */
  ghost predicate IsWeekPage(view: WeekView, now: Day, filter: Option<string>, dayNames: string,
                             settings: map<string, int>, clock: Clock, repo: Repository)
  {
    && view.currentSearchTerm == filter
    && view.weekDays == RotateToMonday(Php.Explode(dayNames))
    && |view.weekDates| == |view.weekDays|
    && CountsUpFrom(view.weekDates, clock.weekStartUser(now))
    && IsMatrix(view.ticketIds, view.timesheetsByTicket,
                repo.uniqueTicketIds(clock.weekStartDb(now), clock.weekEndDb(now)),
                view.weekDates, filter, clock, repo)
    && view.ticketIdsText == Php.Implode(Php.Decimals(view.ticketIds))
    && view.ticketCacheExpiration == WeekCacheExpiration(settings)
  }

  /** The week branch of `get` once the reference day and the filter are known. */
  method WeekPage(now: Day, filter: Option<string>, dayNames: string, settings: map<string, int>,
                  clock: Clock, repo: Repository)
    returns (view: WeekView)
    ensures IsWeekPage(view, now, filter, dayNames, settings, clock, repo)
  {
    var cacheExpiration := WeekCacheExpiration(settings);
    var weekStartDb := clock.weekStartDb(now);
    var weekEndDb := clock.weekEndDb(now);
    var weekStartFrontend := clock.weekStartUser(now);

    var days := Php.Explode(dayNames);
    days := RotateToMonday(days);
    var weekDates := WeekDates(weekStartFrontend, days);
    var discovered := repo.uniqueTicketIds(weekStartDb, weekEndDb);
    var ticketIds, byTicket := BuildMatrix(discovered, weekDates, filter, clock, repo);

    view := WeekView(filter, days, weekDates, ticketIds, Php.Implode(Php.Decimals(ticketIds)),
                     byTicket, cacheExpiration);
  }

  /**
   * `get`. With `getActiveTicketIdsOfPeriod` set it answers the active
   * ticket ids; otherwise it builds the week page for `today` shifted by
   * `offset` weeks, under the request's search filter.
   */
  method Get(query: map<string, string>, today: Day, dayNames: string, settings: map<string, int>,
             clock: Clock, repo: Repository)
    returns (response: GetResponse)
    ensures "getActiveTicketIdsOfPeriod" in query ==>
              response == ActiveTicketIds(ActiveIds(Lookup(query, "start"), Lookup(query, "end"), clock, repo))
    ensures "getActiveTicketIdsOfPeriod" !in query ==>
              response.Week?
              && IsWeekPage(response.view, RequestedDay(query, today), RequestedFilter(query), dayNames,
                            settings, clock, repo)
  {
    if "getActiveTicketIdsOfPeriod" in query {
      response := ActiveTicketIds(ActiveIds(Lookup(query, "start"), Lookup(query, "end"), clock, repo));
    } else {
      var now := ShiftNow(today, Lookup(query, "offset"));
      var filter := SearchFilter(Lookup(query, "searchTerm"));
      var view := WeekPage(now, filter, dayNames, settings, clock, repo);
      response := Week(view);
    }
  }

  /**
   * On the week page, each ticket's row is keyed by exactly the days of the
   * week, from its first day on, and the key of day `k` holds what the
   * repository returned for the ticket on that day under the page's filter.
   */
  lemma WeekRowsCoverTheWeek(view: WeekView, now: Day, filter: Option<string>, dayNames: string,
                             settings: map<string, int>, clock: Clock, repo: Repository, t: int)
    requires IsWeekPage(view, now, filter, dayNames, settings, clock, repo)
    requires t in view.timesheetsByTicket
    ensures t in view.ticketIds
    ensures forall d :: d in view.timesheetsByTicket[t].byDay <==>
              clock.weekStartUser(now) <= d < clock.weekStartUser(now) + |view.weekDays|
    ensures forall k :: 0 <= k < |view.weekDates| ==>
              view.weekDates[k] == clock.weekStartUser(now) + k
              && view.weekDates[k] in view.timesheetsByTicket[t].byDay
              && view.timesheetsByTicket[t].byDay[view.weekDates[k]]
                == repo.timesheets(t, clock.dayToDb(view.weekDates[k]), filter)
  {
    var row := view.timesheetsByTicket[t];
    var start := clock.weekStartUser(now);
    assert row == RowOf(repo, clock, t, view.weekDates, filter);
    RowKeys(repo, clock, t, view.weekDates, filter);
    RowValues(repo, clock, t, view.weekDates, filter);
    forall d | d in row.byDay
      ensures start <= d < start + |view.weekDays|
    {
      var k :| 0 <= k < |view.weekDates| && view.weekDates[k] == d;
    }
    forall d | start <= d < start + |view.weekDays|
      ensures d in row.byDay
    {
      assert view.weekDates[d - start] == d;
    }
  }

  /**
   * `post` outside the JSON delete path: a non-empty `timesheet-id` updates
   * that entry; anything else logs new billable time for the session user.
   */
  function PostAction(form: map<string, string>, sessionUserId: int, clock: Clock): (action: TimeAction)
    ensures action.UpdateTime? <==> "timesheet-id" in form && form["timesheet-id"] != ""
    ensures action.workDate == clock.parseLocal(Lookup(form, "timesheet-date").GetOr(""))
    ensures action.hours == Lookup(form, "timesheet-hours")
    ensures action.description == Lookup(form, "timesheet-description")
    ensures action.UpdateTime? ==> action.id == form["timesheet-id"]
    ensures action.LogTimeOnTicket? ==>
              action.userId == sessionUserId
              && action.kind == GeneralBillable
              && action.ticketId == Lookup(form, "timesheet-ticket-id")
  {
    var workDate := clock.parseLocal(Lookup(form, "timesheet-date").GetOr(""));
    if "timesheet-id" in form && form["timesheet-id"] != "" then
      UpdateTime(workDate, Lookup(form, "timesheet-hours"), Lookup(form, "timesheet-description"),
                 form["timesheet-id"])
    else
      LogTimeOnTicket(sessionUserId, Lookup(form, "timesheet-hours"), workDate,
                      Lookup(form, "timesheet-ticket-id"), Lookup(form, "timesheet-description"),
                      GeneralBillable)
  }
}
