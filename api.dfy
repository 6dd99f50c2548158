/**
 * The ncaafb client: endpoint construction, the single-record fetches and
 * the batch loops over them.
 */
module NcaafbApi {
  import opened NcaafbTypes
  import opened FailFast

  /** The request history after trying to build an endpoint: a request is
      sent exactly when the endpoint was built. */
  function Requested(endpoint: Result<Url>): seq<Url> {
    if endpoint.Ok? then [endpoint.value] else []
  }

  /** The part of the fetch protocol every operation shares: send the GET
      (only if the endpoint was built), insist on status 200, then read the
      whole body. Errors are reported unchanged; a status other than 200
      becomes an error carrying that status. */
  function Get(env: Env, sent: seq<Url>, endpoint: Result<Url>): (r: Step<Result<Body>>)
    ensures r.sent == sent + Requested(endpoint)
    ensures r.result.Ok? <==>
      && endpoint.Ok?
      && env.respond(sent, endpoint.value).Response?
      && env.respond(sent, endpoint.value).statusCode == 200
      && env.respond(sent, endpoint.value).body.Complete?
    ensures endpoint.Err? ==> r.result == Err(endpoint.error)
  {
    match endpoint
    case Err(e) => Step(Err(e), sent)
    case Ok(u) =>
      var after := sent + [u];
      match env.respond(sent, u)
      case Unreachable(reason) => Step(Err(TransportError(reason)), after)
      case Response(code, body) =>
        if code != 200 then Step(Err(StatusError(code)), after)
        else match body
          case Interrupted(reason) => Step(Err(ReadError(reason)), after)
          case Complete(bytes) => Step(Ok(bytes), after)
  }

  /** What `Division` hands back: like the Go method, a decoding failure
      yields both the partly decoded record and the error. */
  datatype DivisionReply = DivisionReply(division: Option<Division>, err: Option<Error>)

  /** The arguments of one `Schedule` call. */
  datatype ScheduleRequest = ScheduleRequest(year: string, scheduleType: ScheduleType)

  /** A game picked for a boxscore fetch, with the label of its week. */
  datatype GameRef = GameRef(week: string, game: Game)

  /** The `Schedule` calls `AllSchedules` makes for the years in `years`. */
  function ScheduleRequests(years: seq<string>): (r: seq<ScheduleRequest>)
    ensures |r| == 2 * |years|
    decreases |years|
  {
    if years == [] then []
    else ScheduleRequests(years[..|years| - 1]) + YearRequests(years[|years| - 1], ScheduleAll)
  }

  /** The `Schedule` calls for one year, one per phase in `phases`. */
  function YearRequests(year: string, phases: seq<ScheduleType>): (r: seq<ScheduleRequest>)
    ensures |r| == |phases|
  {
    seq(|phases|, k requires 0 <= k < |phases| => ScheduleRequest(year, phases[k]))
  }

  /** The games `ScheduleBoxscores` fetches from `weeks`, in visiting order. */
  function Picks(weeks: seq<Week>, ids: seq<string>): seq<GameRef>
    decreases |weeks|
  {
    if weeks == [] then []
    else
      var w := weeks[|weeks| - 1];
      Picks(weeks[..|weeks| - 1], ids) + WeekPicks(w.week, w.games, ids)
  }

  /** The games of one week (labelled `week`) whose identifier is in `ids`. */
  function WeekPicks(week: string, games: seq<Game>, ids: seq<string>): seq<GameRef>
    decreases |games|
  {
    if games == [] then []
    else
      var g := games[|games| - 1];
      WeekPicks(week, games[..|games| - 1], ids) + (if g.id in ids then [GameRef(week, g)] else [])
  }

  datatype API = API(apiKey: string, production: bool, log: bool) {

    /** The access tier letter of the API host path. */
    function AccessLevel(): AccessLevelType {
      if production then AccessLevelProduction else AccessLevelTrial
    }

    function BaseEndpoint(): string {
      "https://api.sportsdatallc.org/ncaafb-" + AccessLevel() + "1"
    }

    function DivisionLocation(divisionType: DivisionType): string {
      BaseEndpoint() + "/teams/" + divisionType + "/hierarchy.xml"
    }

    function ScheduleLocation(year: string, scheduleType: ScheduleType): string {
      BaseEndpoint() + "/" + year + "/" + scheduleType + "/schedule.xml"
    }

    function BoxscoreLocation(year: string, scheduleType: ScheduleType, week: string, awayTeamId: string, homeTeamId: string): string {
      BaseEndpoint() + "/" + year + "/" + scheduleType + "/" + week + "/" + awayTeamId + "/" + homeTeamId + "/boxscore.xml"
    }

    /** Parses the formatted text and sets the `api_key` query parameter to
        the configured key; a text the URL parser refuses is an error. */
    function Endpoint(env: Env, location: string): (r: Result<Url>)
      ensures r.Ok? <==> env.urlParses(location)
      ensures r.Ok? ==> r.value.location == location && r.value.apiKey == apiKey
      ensures r.Err? ==> r.error == UrlError(location)
    {
      if env.urlParses(location) then Ok(Url(location, apiKey)) else Err(UrlError(location))
    }

    function DivisionEndpoint(env: Env, divisionType: DivisionType): (r: Result<Url>)
      ensures r.Ok? <==> env.urlParses(DivisionLocation(divisionType))
      ensures r.Ok? ==> r.value == Url(DivisionLocation(divisionType), apiKey)
      ensures r.Err? ==> r.error == UrlError(DivisionLocation(divisionType))
    {
      Endpoint(env, DivisionLocation(divisionType))
    }

    function ScheduleEndpoint(env: Env, year: string, scheduleType: ScheduleType): (r: Result<Url>)
      ensures r.Ok? <==> env.urlParses(ScheduleLocation(year, scheduleType))
      ensures r.Ok? ==> r.value == Url(ScheduleLocation(year, scheduleType), apiKey)
      ensures r.Err? ==> r.error == UrlError(ScheduleLocation(year, scheduleType))
    {
      Endpoint(env, ScheduleLocation(year, scheduleType))
    }

    function BoxscoreEndpoint(env: Env, year: string, scheduleType: ScheduleType, week: string, awayTeamId: string, homeTeamId: string): (r: Result<Url>)
      ensures r.Ok? <==> env.urlParses(BoxscoreLocation(year, scheduleType, week, awayTeamId, homeTeamId))
      ensures r.Ok? ==> r.value == Url(BoxscoreLocation(year, scheduleType, week, awayTeamId, homeTeamId), apiKey)
      ensures r.Err? ==> r.error == UrlError(BoxscoreLocation(year, scheduleType, week, awayTeamId, homeTeamId))
    {
      Endpoint(env, BoxscoreLocation(year, scheduleType, week, awayTeamId, homeTeamId))
    }

    /** Fetches one division's hierarchy. With no error there is always a
        record; the only error that comes with a record is a decoding error. */
    function FetchDivision(env: Env, sent: seq<Url>, divisionType: DivisionType): (r: Step<DivisionReply>)
      ensures r.sent == sent + Requested(DivisionEndpoint(env, divisionType))
      ensures r.result.err.None? ==> r.result.division.Some?
      ensures r.result.division.Some? && r.result.err.Some? ==> r.result.err.value.ParseError?
    {
      var got := Get(env, sent, DivisionEndpoint(env, divisionType));
      match got.result
      case Err(e) => Step(DivisionReply(None, Some(e)), got.sent)
      case Ok(body) =>
        var decoded := env.decodeDivision(body);
        var err := if decoded.failure.Some? then Some(ParseError(decoded.failure.value)) else None;
        Step(DivisionReply(Some(decoded.value), err), got.sent)
    }

    /** Fetches one season schedule and records on it the year and phase
        it was requested for. */
    function FetchSchedule(env: Env, sent: seq<Url>, year: string, scheduleType: ScheduleType): (r: Step<Result<Schedule>>)
      ensures r.sent == sent + Requested(ScheduleEndpoint(env, year, scheduleType))
      ensures r.result.Ok? ==> r.result.value.year == year && r.result.value.scheduleType == scheduleType
    {
      var got := Get(env, sent, ScheduleEndpoint(env, year, scheduleType));
      match got.result
      case Err(e) => Step(Err(e), got.sent)
      case Ok(body) =>
        var decoded := env.decodeSeason(body);
        if decoded.failure.Some? then Step(Err(ParseError(decoded.failure.value)), got.sent)
        else Step(Ok(Schedule(year, scheduleType, decoded.value)), got.sent)
    }

    /** Fetches one game's boxscore and records on it the year, phase and
        week it was requested for. */
    function FetchBoxscore(env: Env, sent: seq<Url>, year: string, scheduleType: ScheduleType, week: string, awayTeamId: string, homeTeamId: string): (r: Step<Result<Boxscore>>)
      ensures r.sent == sent + Requested(BoxscoreEndpoint(env, year, scheduleType, week, awayTeamId, homeTeamId))
      ensures r.result.Ok? ==>
        r.result.value.year == year && r.result.value.scheduleType == scheduleType && r.result.value.week == week
    {
      var got := Get(env, sent, BoxscoreEndpoint(env, year, scheduleType, week, awayTeamId, homeTeamId));
      match got.result
      case Err(e) => Step(Err(e), got.sent)
      case Ok(body) =>
        var decoded := env.decodeBoxscore(body);
        if decoded.failure.Some? then Step(Err(ParseError(decoded.failure.value)), got.sent)
        else Step(Ok(decoded.value.(year := year, scheduleType := scheduleType, week := week)), got.sent)
    }

    /** One division fetch as a batch step: an error ends the batch. */
    function DivisionFetcher(env: Env): (r: (seq<Url>, DivisionType) -> Step<Result<Division>>)
      ensures forall h: seq<Url>, d: DivisionType ::
        && r(h, d).sent == FetchDivision(env, h, d).sent
        && (r(h, d).result.Ok? <==> FetchDivision(env, h, d).result.err.None?)
        && (r(h, d).result.Ok? ==> Some(r(h, d).result.value) == FetchDivision(env, h, d).result.division)
        && (r(h, d).result.Err? ==> Some(r(h, d).result.error) == FetchDivision(env, h, d).result.err)
    {
      (sent: seq<Url>, divisionType: DivisionType) =>
        var reply := FetchDivision(env, sent, divisionType);
        if reply.result.err.Some? then Step(Err(reply.result.err.value), reply.sent)
        else Step(Ok(reply.result.division.value), reply.sent)
    }

    function ScheduleFetcher(env: Env): (seq<Url>, ScheduleRequest) -> Step<Result<Schedule>> {
      (sent: seq<Url>, q: ScheduleRequest) => FetchSchedule(env, sent, q.year, q.scheduleType)
    }

    /** A picked game's boxscore fetch, with the schedule's year and phase. */
    function BoxscoreFetcher(env: Env, schedule: Schedule): (seq<Url>, GameRef) -> Step<Result<Boxscore>> {
      (sent: seq<Url>, g: GameRef) =>
        FetchBoxscore(env, sent, schedule.year, schedule.scheduleType, g.week, g.game.awayTeamId, g.game.homeTeamId)
    }

    /** Fetches every division in declared order, stopping at the first error. */
    method AllDivisions(env: Env, sent: seq<Url>) returns (divisions: Result<seq<Division>>, sentAfter: seq<Url>)
      ensures Step(divisions, sentAfter) == Sequence(DivisionFetcher(env), sent, DivisionAll)
    {
      var fetch := DivisionFetcher(env);
      var fetched: seq<Division> := [];
      sentAfter := sent;
      for i := 0 to |DivisionAll|
        invariant Sequence(fetch, sent, DivisionAll[..i]) == Step(Ok(fetched), sentAfter)
      {
        var division := fetch(sentAfter, DivisionAll[i]);
        assert DivisionAll[..i + 1] == DivisionAll[..i] + [DivisionAll[i]];
        SequenceSnoc(fetch, sent, DivisionAll[..i], DivisionAll[i]);
        sentAfter := division.sent;
        if division.result.Err? {
          SequenceStopsAtFailure(fetch, sent, DivisionAll[..i + 1], DivisionAll);
          return Err(division.result.error), sentAfter;
        }
        fetched := fetched + [division.result.value];
      }
      assert DivisionAll[..|DivisionAll|] == DivisionAll;
      divisions := Ok(fetched);
    }

    /** Fetches the regular-season and post-season schedule of every year,
        year by year, stopping at the first error. */
    method AllSchedules(env: Env, sent: seq<Url>, years: seq<string>) returns (schedules: Result<seq<Schedule>>, sentAfter: seq<Url>)
      ensures Step(schedules, sentAfter) == Sequence(ScheduleFetcher(env), sent, ScheduleRequests(years))
    {
      schedules, sentAfter := FetchYears(ScheduleFetcher(env), sent, years);
    }

    /** Fetches the boxscore of every game of `schedule` whose identifier is
        in `ids`, week by week and game by game, each game at most once,
        stopping at the first error. */
    method ScheduleBoxscores(env: Env, sent: seq<Url>, schedule: Schedule, ids: seq<string>) returns (boxscores: Result<seq<Boxscore>>, sentAfter: seq<Url>)
      ensures Step(boxscores, sentAfter) == Sequence(BoxscoreFetcher(env, schedule), sent, Picks(schedule.season.weeks, ids))
    {
      boxscores, sentAfter := FetchPicked(BoxscoreFetcher(env, schedule), sent, schedule.season.weeks, ids);
    }
  }

  /** The loops of `AllSchedules`: every year in order and, within a year,
      every phase of `ScheduleAll` in order, running `fetch` on each; the
      first error ends everything. */
  method FetchYears(fetch: (seq<Url>, ScheduleRequest) -> Step<Result<Schedule>>, sent: seq<Url>, years: seq<string>) returns (schedules: Result<seq<Schedule>>, sentAfter: seq<Url>)
    ensures Step(schedules, sentAfter) == Sequence(fetch, sent, ScheduleRequests(years))
  {
    var fetched: seq<Schedule> := [];
    sentAfter := sent;
    for i := 0 to |years|
      invariant Sequence(fetch, sent, ScheduleRequests(years[..i])) == Step(Ok(fetched), sentAfter)
    {
      ghost var done := ScheduleRequests(years[..i]);
      assert done + YearRequests(years[i], ScheduleAll[..0]) == done;
      for j := 0 to |ScheduleAll|
        invariant Sequence(fetch, sent, done + YearRequests(years[i], ScheduleAll[..j])) == Step(Ok(fetched), sentAfter)
      {
        ghost var before := done + YearRequests(years[i], ScheduleAll[..j]);
        YearRequestsSnoc(done, years[i], ScheduleAll, j);
        var schedule := fetch(sentAfter, ScheduleRequest(years[i], ScheduleAll[j]));
        SequenceSnoc(fetch, sent, before, ScheduleRequest(years[i], ScheduleAll[j]));
        sentAfter := schedule.sent;
        if schedule.result.Err? {
          ScheduleFailureEndsBatch(fetch, sent, years, i, j);
          return Err(schedule.result.error), sentAfter;
        }
        fetched := fetched + [schedule.result.value];
      }
      assert ScheduleAll[..|ScheduleAll|] == ScheduleAll;
      ScheduleRequestsSnoc(years, i + 1);
      assert years[..i + 1][..i] == years[..i];
    }
    assert years[..|years|] == years;
    schedules := Ok(fetched);
  }

  /** The loops of `ScheduleBoxscores`: every week in order, every game of
      the week in order, and for each game a scan of `ids` that runs
      `fetch` on the game at its first matching identifier and then stops
      scanning. The first error ends everything. */
  method FetchPicked(fetch: (seq<Url>, GameRef) -> Step<Result<Boxscore>>, sent: seq<Url>, weeks: seq<Week>, ids: seq<string>) returns (boxscores: Result<seq<Boxscore>>, sentAfter: seq<Url>)
    ensures Step(boxscores, sentAfter) == Sequence(fetch, sent, Picks(weeks, ids))
  {
    var fetched: seq<Boxscore> := [];
    sentAfter := sent;
    for i := 0 to |weeks|
      invariant Sequence(fetch, sent, Picks(weeks[..i], ids)) == Step(Ok(fetched), sentAfter)
    {
      var w := weeks[i];
      ghost var done := Picks(weeks[..i], ids);
      assert done + WeekPicks(w.week, w.games[..0], ids) == done;
      for j := 0 to |w.games|
        invariant Sequence(fetch, sent, done + WeekPicks(w.week, w.games[..j], ids)) == Step(Ok(fetched), sentAfter)
      {
        var g := w.games[j];
        ghost var before := done + WeekPicks(w.week, w.games[..j], ids);
        var k := 0;
        while k < |ids|
          invariant k <= |ids|
          invariant g.id !in ids[..k]
          invariant Sequence(fetch, sent, before) == Step(Ok(fetched), sentAfter)
        {
          if g.id == ids[k] {
            GamePicked(weeks, ids, i, j);
            var boxscore := fetch(sentAfter, GameRef(w.week, g));
            SequenceSnoc(fetch, sent, before, GameRef(w.week, g));
            sentAfter := boxscore.sent;
            if boxscore.result.Err? {
              BoxscoreFailureEndsBatch(fetch, sent, weeks, ids, i, j);
              return Err(boxscore.result.error), sentAfter;
            }
            fetched := fetched + [boxscore.result.value];
            break;
          }
          assert ids[..k + 1] == ids[..k] + [ids[k]];
          k := k + 1;
        }
        if k == |ids| {
          assert ids[..k] == ids;
          GameSkipped(weeks, ids, i, j);
        }
      }
      WeekDone(weeks, ids, i);
    }
    assert weeks[..|weeks|] == weeks;
    boxscores := Ok(fetched);
  }

  lemma PrefixThen<X>(front: seq<X>, part: seq<X>, whole: seq<X>, all: seq<X>)
    requires part <= whole && front + whole <= all
    ensures front + part <= all
  {
    assert front + part == (front + whole)[..|front| + |part|];
  }

  lemma YearRequestsSnoc(done: seq<ScheduleRequest>, year: string, phases: seq<ScheduleType>, j: nat)
    requires j < |phases|
    ensures done + YearRequests(year, phases[..j + 1]) == done + YearRequests(year, phases[..j]) + [ScheduleRequest(year, phases[j])]
  {
  }

  /** A failure part-way through the requests of year i ends the whole batch. */
  lemma ScheduleFailureEndsBatch(fetch: (seq<Url>, ScheduleRequest) -> Step<Result<Schedule>>, sent: seq<Url>, years: seq<string>, i: nat, j: nat)
    requires i < |years| && j < |ScheduleAll|
    requires Sequence(fetch, sent, ScheduleRequests(years[..i]) + YearRequests(years[i], ScheduleAll[..j + 1])).result.Err?
    ensures Sequence(fetch, sent, ScheduleRequests(years)) ==
      Sequence(fetch, sent, ScheduleRequests(years[..i]) + YearRequests(years[i], ScheduleAll[..j + 1]))
  {
    YearRequestsPrefix(years[i], ScheduleAll, j + 1);
    ScheduleRequestsPrefix(years, i + 1, YearRequests(years[i], ScheduleAll[..j + 1]));
    assert years[..i + 1][..i] == years[..i];
    SequenceStopsAtFailure(fetch, sent, ScheduleRequests(years[..i]) + YearRequests(years[i], ScheduleAll[..j + 1]), ScheduleRequests(years));
  }

  /** The requests of the first i - 1 years, followed by a prefix of the
      requests of year i, come first in the requests of all years. */
  lemma ScheduleRequestsPrefix(years: seq<string>, i: nat, part: seq<ScheduleRequest>)
    requires 0 < i <= |years|
    requires part <= YearRequests(years[i - 1], ScheduleAll)
    ensures ScheduleRequests(years[..i - 1]) + part <= ScheduleRequests(years)
  {
    var front := ScheduleRequests(years[..i - 1]);
    var whole := YearRequests(years[i - 1], ScheduleAll);
    ScheduleRequestsSnoc(years, i);
    RequestsOfPrefixYears(years, i);
    PrefixThen(front, part, whole, ScheduleRequests(years));
  }

  lemma ScheduleRequestsSnoc(years: seq<string>, i: nat)
    requires 0 < i <= |years|
    ensures ScheduleRequests(years[..i]) == ScheduleRequests(years[..i - 1]) + YearRequests(years[i - 1], ScheduleAll)
  {
    assert years[..i][..i - 1] == years[..i - 1];
  }

  lemma {:induction false} RequestsOfPrefixYears(years: seq<string>, i: nat)
    requires i <= |years|
    ensures ScheduleRequests(years[..i]) <= ScheduleRequests(years)
    decreases |years|
  {
    if i < |years| {
      var n := |years| - 1;
      assert years[..n][..i] == years[..i];
      RequestsOfPrefixYears(years[..n], i);
    } else {
      assert years[..i] == years;
    }
  }

  lemma YearRequestsPrefix(year: string, phases: seq<ScheduleType>, j: nat)
    requires j <= |phases|
    ensures YearRequests(year, phases[..j]) <= YearRequests(year, phases)
  {
  }

  /** The picks of the first i weeks, with the picks among the first j games
      of the next week, come first in the picks of all weeks. */
  lemma PicksPrefix(weeks: seq<Week>, i: nat, j: nat, ids: seq<string>)
    requires 0 < i <= |weeks| && j <= |weeks[i - 1].games|
    ensures Picks(weeks[..i - 1], ids) + WeekPicks(weeks[i - 1].week, weeks[i - 1].games[..j], ids) <= Picks(weeks, ids)
  {
    var w := weeks[i - 1];
    var front := Picks(weeks[..i - 1], ids);
    var part := WeekPicks(w.week, w.games[..j], ids);
    var whole := WeekPicks(w.week, w.games, ids);
    WeekPicksPrefix(w.week, w.games, j, ids);
    assert weeks[..i][..i - 1] == weeks[..i - 1];
    assert Picks(weeks[..i], ids) == front + whole;
    PicksOfPrefixWeeks(weeks, i, ids);
    PrefixThen(front, part, whole, Picks(weeks, ids));
  }

  /** Visiting game j of week i when its identifier is wanted adds exactly that game. */
  lemma GamePicked(weeks: seq<Week>, ids: seq<string>, i: nat, j: nat)
    requires i < |weeks| && j < |weeks[i].games| && weeks[i].games[j].id in ids
    ensures Picks(weeks[..i], ids) + WeekPicks(weeks[i].week, weeks[i].games[..j + 1], ids) ==
      Picks(weeks[..i], ids) + WeekPicks(weeks[i].week, weeks[i].games[..j], ids) + [GameRef(weeks[i].week, weeks[i].games[j])]
  {
    WeekPicksSnoc(weeks[i].week, weeks[i].games, j, ids);
  }

  /** Visiting game j of week i when its identifier is not wanted adds nothing. */
  lemma GameSkipped(weeks: seq<Week>, ids: seq<string>, i: nat, j: nat)
    requires i < |weeks| && j < |weeks[i].games| && weeks[i].games[j].id !in ids
    ensures Picks(weeks[..i], ids) + WeekPicks(weeks[i].week, weeks[i].games[..j + 1], ids) ==
      Picks(weeks[..i], ids) + WeekPicks(weeks[i].week, weeks[i].games[..j], ids)
  {
    WeekPicksSnoc(weeks[i].week, weeks[i].games, j, ids);
  }

  /** Finishing week i gives the picks of the first i + 1 weeks. */
  lemma WeekDone(weeks: seq<Week>, ids: seq<string>, i: nat)
    requires i < |weeks|
    ensures Picks(weeks[..i], ids) + WeekPicks(weeks[i].week, weeks[i].games[..|weeks[i].games|], ids) == Picks(weeks[..i + 1], ids)
  {
    assert weeks[i].games[..|weeks[i].games|] == weeks[i].games;
    assert weeks[..i + 1][..i] == weeks[..i];
  }

  /** A failed boxscore fetch for game j of week i ends the whole batch. */
  lemma BoxscoreFailureEndsBatch(fetch: (seq<Url>, GameRef) -> Step<Result<Boxscore>>, sent: seq<Url>, weeks: seq<Week>, ids: seq<string>, i: nat, j: nat)
    requires i < |weeks| && j < |weeks[i].games|
    requires Sequence(fetch, sent, Picks(weeks[..i], ids) + WeekPicks(weeks[i].week, weeks[i].games[..j + 1], ids)).result.Err?
    ensures Sequence(fetch, sent, Picks(weeks, ids)) ==
      Sequence(fetch, sent, Picks(weeks[..i], ids) + WeekPicks(weeks[i].week, weeks[i].games[..j + 1], ids))
  {
    PicksPrefix(weeks, i + 1, j + 1, ids);
    assert weeks[..i + 1][..i] == weeks[..i];
    SequenceStopsAtFailure(fetch, sent, Picks(weeks[..i], ids) + WeekPicks(weeks[i].week, weeks[i].games[..j + 1], ids), Picks(weeks, ids));
  }

  lemma WeekPicksSnoc(week: string, games: seq<Game>, j: nat, ids: seq<string>)
    requires j < |games|
    ensures WeekPicks(week, games[..j + 1], ids) ==
      WeekPicks(week, games[..j], ids) + (if games[j].id in ids then [GameRef(week, games[j])] else [])
  {
    assert games[..j + 1][..j] == games[..j];
  }

  lemma {:induction false} PicksOfPrefixWeeks(weeks: seq<Week>, i: nat, ids: seq<string>)
    requires i <= |weeks|
    ensures Picks(weeks[..i], ids) <= Picks(weeks, ids)
    decreases |weeks|
  {
    if i < |weeks| {
      var n := |weeks| - 1;
      assert weeks[..n][..i] == weeks[..i];
      PicksOfPrefixWeeks(weeks[..n], i, ids);
    } else {
      assert weeks[..i] == weeks;
    }
  }

  lemma {:induction false} WeekPicksPrefix(week: string, games: seq<Game>, j: nat, ids: seq<string>)
    requires j <= |games|
    ensures WeekPicks(week, games[..j], ids) <= WeekPicks(week, games, ids)
    decreases |games|
  {
    if j < |games| {
      var n := |games| - 1;
      assert games[..n][..j] == games[..j];
      WeekPicksPrefix(week, games[..n], j, ids);
    } else {
      assert games[..j] == games;
    }
  }
}
