/**
 * What the ncaafb client promises, stated over the model: the shape of each
 * endpoint, the stamping of request context onto fetched records, the
 * error paths, and the order and fail-fast behaviour of the batch calls.
 */
module NcaafbProperties {
  import opened NcaafbTypes
  import opened UrlPaths
  import opened FailFast
  import opened NcaafbApi

  // ---------------------------------------------------------------- endpoints

  /** The '/'-separated segments of the base endpoint. */
  function BaseSegments(a: API): seq<string> {
    ["https:", "", "api.sportsdatallc.org", "ncaafb-" + a.AccessLevel() + "1"]
  }

  /** The base endpoint is `https://api.sportsdatallc.org/ncaafb-p1` in
      production and `.../ncaafb-t1` otherwise; the key and the logging flag
      play no part in it. */
  lemma BaseEndpointTier(a: API)
    ensures a.BaseEndpoint() == "https://api.sportsdatallc.org/ncaafb-" + (if a.production then "p" else "t") + "1"
    ensures forall b: API :: b.production == a.production ==> b.BaseEndpoint() == a.BaseEndpoint()
  {
  }

  /** The base endpoint as its four '/'-separated pieces. */
  lemma BaseEndpointPieces(a: API)
    ensures a.BaseEndpoint() == "https:" + "/" + "" + "/" + "api.sportsdatallc.org" + "/" + ("ncaafb-" + a.AccessLevel() + "1")
  {
  }

  /** Split at '/', the base endpoint is the sportsdatallc host followed by
      the single path segment that names the access tier. */
  lemma BaseEndpointShape(a: API)
    ensures Segments(a.BaseEndpoint()) == BaseSegments(a)
  {
    BaseEndpointPieces(a);
    FourSegments("https:", "", "api.sportsdatallc.org", "ncaafb-" + a.AccessLevel() + "1");
  }

  lemma FourSegments(p: string, q: string, r: string, s: string)
    requires SlashFree(p) && SlashFree(q) && SlashFree(r) && SlashFree(s)
    ensures Segments(p + "/" + q + "/" + r + "/" + s) == [p, q, r, s]
  {
    SegmentsOfSlashFree(p);
    SegmentsOfAppendOne(p, q);
    SegmentsOfAppendOne(p + "/" + q, r);
    SegmentsOfAppendOne(p + "/" + q + "/" + r, s);
  }

  lemma ThreeMoreSegments(base: string, x: string, y: string, z: string)
    requires SlashFree(x) && SlashFree(y) && SlashFree(z)
    ensures Segments(base + "/" + x + "/" + y + "/" + z) == Segments(base) + [x, y, z]
  {
    SegmentsOfAppendOne(base, x);
    SegmentsOfAppendOne(base + "/" + x, y);
    SegmentsOfAppendOne(base + "/" + x + "/" + y, z);
  }

  lemma SixMoreSegments(base: string, x1: string, x2: string, x3: string, x4: string, x5: string, x6: string)
    requires SlashFree(x1) && SlashFree(x2) && SlashFree(x3) && SlashFree(x4) && SlashFree(x5) && SlashFree(x6)
    ensures Segments(base + "/" + x1 + "/" + x2 + "/" + x3 + "/" + x4 + "/" + x5 + "/" + x6) == Segments(base) + [x1, x2, x3, x4, x5, x6]
  {
    ThreeMoreSegments(base, x1, x2, x3);
    ThreeMoreSegments(base + "/" + x1 + "/" + x2 + "/" + x3, x4, x5, x6);
  }

  /** The division endpoint is the base followed by `teams`, the division and
      `hierarchy.xml`; it is built exactly when the URL parser accepts that
      text, and then carries the configured key as `api_key`. */
  lemma DivisionEndpointShape(a: API, env: Env, divisionType: DivisionType)
    requires SlashFree(divisionType)
    ensures Segments(a.DivisionLocation(divisionType)) == BaseSegments(a) + ["teams", divisionType, "hierarchy.xml"]
    ensures a.DivisionEndpoint(env, divisionType).Ok? <==> env.urlParses(a.DivisionLocation(divisionType))
    ensures a.DivisionEndpoint(env, divisionType).Ok? ==>
      a.DivisionEndpoint(env, divisionType).value == Url(a.DivisionLocation(divisionType), a.apiKey)
  {
    var base := a.BaseEndpoint();
    assert a.DivisionLocation(divisionType) == base + "/" + "teams" + "/" + divisionType + "/" + "hierarchy.xml";
    BaseEndpointShape(a);
    ThreeMoreSegments(base, "teams", divisionType, "hierarchy.xml");
  }

  /** The schedule endpoint is the base followed by the year, the schedule
      type and `schedule.xml`. */
  lemma ScheduleEndpointShape(a: API, env: Env, year: string, scheduleType: ScheduleType)
    requires SlashFree(year) && SlashFree(scheduleType)
    ensures Segments(a.ScheduleLocation(year, scheduleType)) == BaseSegments(a) + [year, scheduleType, "schedule.xml"]
    ensures a.ScheduleEndpoint(env, year, scheduleType).Ok? <==> env.urlParses(a.ScheduleLocation(year, scheduleType))
    ensures a.ScheduleEndpoint(env, year, scheduleType).Ok? ==>
      a.ScheduleEndpoint(env, year, scheduleType).value == Url(a.ScheduleLocation(year, scheduleType), a.apiKey)
  {
    var base := a.BaseEndpoint();
    assert a.ScheduleLocation(year, scheduleType) == base + "/" + year + "/" + scheduleType + "/" + "schedule.xml";
    BaseEndpointShape(a);
    ThreeMoreSegments(base, year, scheduleType, "schedule.xml");
  }

  /** The boxscore endpoint is the base followed by year, schedule type,
      week, away team and home team, in that order, then `boxscore.xml`. */
  lemma BoxscoreEndpointShape(a: API, env: Env, year: string, scheduleType: ScheduleType, week: string, awayTeamId: string, homeTeamId: string)
    requires SlashFree(year) && SlashFree(scheduleType) && SlashFree(week) && SlashFree(awayTeamId) && SlashFree(homeTeamId)
    ensures Segments(a.BoxscoreLocation(year, scheduleType, week, awayTeamId, homeTeamId)) ==
      BaseSegments(a) + [year, scheduleType, week, awayTeamId, homeTeamId, "boxscore.xml"]
    ensures a.BoxscoreEndpoint(env, year, scheduleType, week, awayTeamId, homeTeamId).Ok? <==>
      env.urlParses(a.BoxscoreLocation(year, scheduleType, week, awayTeamId, homeTeamId))
    ensures a.BoxscoreEndpoint(env, year, scheduleType, week, awayTeamId, homeTeamId).Ok? ==>
      a.BoxscoreEndpoint(env, year, scheduleType, week, awayTeamId, homeTeamId).value ==
        Url(a.BoxscoreLocation(year, scheduleType, week, awayTeamId, homeTeamId), a.apiKey)
  {
    var base := a.BaseEndpoint();
    assert a.BoxscoreLocation(year, scheduleType, week, awayTeamId, homeTeamId) ==
      base + "/" + year + "/" + scheduleType + "/" + week + "/" + awayTeamId + "/" + homeTeamId + "/" + "boxscore.xml";
    BaseEndpointShape(a);
    SixMoreSegments(base, year, scheduleType, week, awayTeamId, homeTeamId, "boxscore.xml");
  }

  /** Two boxscore requests with slash-free arguments go to the same location
      only if all five arguments agree: the path identifies the game. */
  lemma BoxscoreLocationIdentifiesGame(a: API, env: Env, year: string, scheduleType: ScheduleType, week: string, awayTeamId: string, homeTeamId: string,
                                       year': string, scheduleType': ScheduleType, week': string, awayTeamId': string, homeTeamId': string)
    requires SlashFree(year) && SlashFree(scheduleType) && SlashFree(week) && SlashFree(awayTeamId) && SlashFree(homeTeamId)
    requires SlashFree(year') && SlashFree(scheduleType') && SlashFree(week') && SlashFree(awayTeamId') && SlashFree(homeTeamId')
    requires a.BoxscoreLocation(year, scheduleType, week, awayTeamId, homeTeamId) == a.BoxscoreLocation(year', scheduleType', week', awayTeamId', homeTeamId')
    ensures year == year' && scheduleType == scheduleType' && week == week' && awayTeamId == awayTeamId' && homeTeamId == homeTeamId'
  {
    BoxscoreEndpointShape(a, env, year, scheduleType, week, awayTeamId, homeTeamId);
    BoxscoreEndpointShape(a, env, year', scheduleType', week', awayTeamId', homeTeamId');
    var s := BaseSegments(a) + [year, scheduleType, week, awayTeamId, homeTeamId, "boxscore.xml"];
    var s' := BaseSegments(a) + [year', scheduleType', week', awayTeamId', homeTeamId', "boxscore.xml"];
    assert s == s';
    assert s[4] == s'[4] && s[5] == s'[5] && s[6] == s'[6] && s[7] == s'[7] && s[8] == s'[8];
  }

  // ------------------------------------------------------- single fetches

  /** The shared fetch protocol reports each way a request can go wrong as
      its own error, in the order the client checks them: transport, then
      status, then reading the body. A request goes out only for an endpoint
      that was built, and then exactly that one. */
  lemma GetReportsEachFailure(env: Env, sent: seq<Url>, endpoint: Result<Url>)
    ensures endpoint.Err? ==> Get(env, sent, endpoint) == Step(Err(endpoint.error), sent)
    ensures endpoint.Ok? ==> Get(env, sent, endpoint).sent == sent + [endpoint.value]
    ensures endpoint.Ok? && env.respond(sent, endpoint.value).Unreachable? ==>
      Get(env, sent, endpoint).result == Err(TransportError(env.respond(sent, endpoint.value).reason))
    ensures endpoint.Ok? && env.respond(sent, endpoint.value).Response? && env.respond(sent, endpoint.value).statusCode != 200 ==>
      Get(env, sent, endpoint).result == Err(StatusError(env.respond(sent, endpoint.value).statusCode))
    ensures endpoint.Ok? && env.respond(sent, endpoint.value).Response? && env.respond(sent, endpoint.value).statusCode == 200 ==>
      Get(env, sent, endpoint).result ==
        match env.respond(sent, endpoint.value).body
        case Interrupted(reason) => Err(ReadError(reason))
        case Complete(bytes) => Ok(bytes)
  {
  }

  /** A division fetch passes protocol errors on with no record; once the
      body is read it always returns the decoded record, together with a
      parse error when decoding failed. */
  lemma DivisionDecoding(a: API, env: Env, sent: seq<Url>, divisionType: DivisionType)
    ensures
      var got := Get(env, sent, a.DivisionEndpoint(env, divisionType));
      var r := a.FetchDivision(env, sent, divisionType);
      && r.sent == got.sent
      && (got.result.Err? ==> r.result == DivisionReply(None, Some(got.result.error)))
      && (got.result.Ok? ==>
            var decoded := env.decodeDivision(got.result.value);
            && r.result.division == Some(decoded.value)
            && (decoded.failure.None? <==> r.result.err.None?)
            && (decoded.failure.Some? ==> r.result.err == Some(ParseError(decoded.failure.value))))
  {
  }

  /** A schedule fetch passes protocol errors on unchanged, turns a decoding
      failure into a parse error, and otherwise returns the decoded season
      under the year and phase that were asked for. */
  lemma ScheduleDecoding(a: API, env: Env, sent: seq<Url>, year: string, scheduleType: ScheduleType)
    ensures
      var got := Get(env, sent, a.ScheduleEndpoint(env, year, scheduleType));
      var r := a.FetchSchedule(env, sent, year, scheduleType);
      && r.sent == got.sent
      && (got.result.Err? ==> r.result == Err(got.result.error))
      && (got.result.Ok? ==>
            var decoded := env.decodeSeason(got.result.value);
            r.result == if decoded.failure.Some? then Err(ParseError(decoded.failure.value))
                        else Ok(Schedule(year, scheduleType, decoded.value)))
  {
  }

  /** A boxscore fetch passes protocol errors on unchanged, turns a decoding
      failure into a parse error, and otherwise keeps everything decoded
      except the year, phase and week, which it overwrites with the ones
      that were asked for. */
  lemma BoxscoreDecoding(a: API, env: Env, sent: seq<Url>, year: string, scheduleType: ScheduleType, week: string, awayTeamId: string, homeTeamId: string)
    ensures
      var got := Get(env, sent, a.BoxscoreEndpoint(env, year, scheduleType, week, awayTeamId, homeTeamId));
      var r := a.FetchBoxscore(env, sent, year, scheduleType, week, awayTeamId, homeTeamId);
      && r.sent == got.sent
      && (got.result.Err? ==> r.result == Err(got.result.error))
      && (got.result.Ok? ==>
            var decoded := env.decodeBoxscore(got.result.value);
            r.result == if decoded.failure.Some? then Err(ParseError(decoded.failure.value))
                        else Ok(Boxscore(year, scheduleType, week, decoded.value.stats)))
  {
  }

  // ---------------------------------------------------------- AllDivisions

  /** The requests one division fetch sends, whatever was sent before. */
  function DivisionSends(a: API, env: Env): DivisionType -> seq<Url> {
    (divisionType: DivisionType) => Requested(a.DivisionEndpoint(env, divisionType))
  }

  /** Each division fetch appends exactly its own request to the history. */
  lemma DivisionFetchSends(a: API, env: Env, rs: seq<DivisionType>)
    ensures forall h: seq<Url>, i :: 0 <= i < |rs| ==> a.DivisionFetcher(env)(h, rs[i]).sent == h + DivisionSends(a, env)(rs[i])
  {
    forall h: seq<Url>, i | 0 <= i < |rs| ensures a.DivisionFetcher(env)(h, rs[i]).sent == h + DivisionSends(a, env)(rs[i]) {
      var reply := a.FetchDivision(env, h, rs[i]);
    }
  }

  /** When `AllDivisions` succeeds it returns six records, the i-th being
      what the fetch of the i-th declared division returned with no error,
      and it has sent one request per division, in declared order. */
  lemma AllDivisionsSucceeds(a: API, env: Env, sent: seq<Url>)
    requires Sequence(a.DivisionFetcher(env), sent, DivisionAll).result.Ok?
    ensures
      var r := Sequence(a.DivisionFetcher(env), sent, DivisionAll);
      && |r.result.value| == 6
      && (forall i :: 0 <= i < 6 ==>
            a.FetchDivision(env, Sequence(a.DivisionFetcher(env), sent, DivisionAll[..i]).sent, DivisionAll[i]).result ==
              DivisionReply(Some(r.result.value[i]), None))
      && r.sent == sent + Sends(DivisionSends(a, env), DivisionAll)
  {
    forall i | 0 <= i < 6
      ensures a.FetchDivision(env, Sequence(a.DivisionFetcher(env), sent, DivisionAll[..i]).sent, DivisionAll[i]).result ==
        DivisionReply(Some(Sequence(a.DivisionFetcher(env), sent, DivisionAll).result.value[i]), None)
    {
      DivisionAt(a, env, sent, i);
    }
    DivisionFetchSends(a, env, DivisionAll);
    SequenceSendsOnSuccess(a.DivisionFetcher(env), DivisionSends(a, env), sent, DivisionAll);
  }

  lemma DivisionAt(a: API, env: Env, sent: seq<Url>, i: nat)
    requires Sequence(a.DivisionFetcher(env), sent, DivisionAll).result.Ok? && i < 6
    ensures a.FetchDivision(env, Sequence(a.DivisionFetcher(env), sent, DivisionAll[..i]).sent, DivisionAll[i]).result ==
      DivisionReply(Some(Sequence(a.DivisionFetcher(env), sent, DivisionAll).result.value[i]), None)
  {
    SequenceAt(a.DivisionFetcher(env), sent, DivisionAll, i);
  }

  /** When `AllDivisions` fails, some division k failed after all before it
      succeeded; the batch returns that division's error (a partly decoded
      record is dropped) and has sent the requests of divisions 0..k only. */
  lemma AllDivisionsFailsFast(a: API, env: Env, sent: seq<Url>)
    requires Sequence(a.DivisionFetcher(env), sent, DivisionAll).result.Err?
    ensures
      var r := Sequence(a.DivisionFetcher(env), sent, DivisionAll);
      exists k ::
        && 0 <= k < 6
        && Sequence(a.DivisionFetcher(env), sent, DivisionAll[..k]).result.Ok?
        && var reply := a.FetchDivision(env, Sequence(a.DivisionFetcher(env), sent, DivisionAll[..k]).sent, DivisionAll[k]);
           && reply.result.err == Some(r.result.error)
           && r.sent == sent + Sends(DivisionSends(a, env), DivisionAll[..k + 1])
  {
    DivisionsFailFast(a, env, sent, DivisionAll);
  }

  /** The same for division fetches over any list of divisions. */
  lemma DivisionsFailFast(a: API, env: Env, sent: seq<Url>, rs: seq<DivisionType>)
    requires Sequence(a.DivisionFetcher(env), sent, rs).result.Err?
    ensures
      var r := Sequence(a.DivisionFetcher(env), sent, rs);
      exists k ::
        && 0 <= k < |rs|
        && Sequence(a.DivisionFetcher(env), sent, rs[..k]).result.Ok?
        && var reply := a.FetchDivision(env, Sequence(a.DivisionFetcher(env), sent, rs[..k]).sent, rs[k]);
           && reply.result.err == Some(r.result.error)
           && r.sent == sent + Sends(DivisionSends(a, env), rs[..k + 1])
  {
    var fetch := a.DivisionFetcher(env);
    var sends := DivisionSends(a, env);
    DivisionFetchSends(a, env, rs);
    SequenceSends(fetch, sends, sent, rs);
    var r := Sequence(fetch, sent, rs);
    var k :|
      && 0 <= k < |rs|
      && Sequence(fetch, sent, rs[..k]).result.Ok?
      && fetch(Sequence(fetch, sent, rs[..k]).sent, rs[k]).result.Err?
      && r.result.error == fetch(Sequence(fetch, sent, rs[..k]).sent, rs[k]).result.error
      && r.sent == sent + Sends(sends, rs[..k + 1]);
  }

  /** A server that answers `code` for the hierarchy of division k and an
      empty 200 answer for everything else, with every URL parsing and every
      body decoding. */
  ghost predicate FailsOnlyAt(a: API, env: Env, k: nat, code: int)
  {
    && k < |DivisionAll|
    && code != 200
    && (forall location :: env.urlParses(location))
    && (forall h: seq<Url>, u: Url ::
          env.respond(h, u) == (if u.location == a.DivisionLocation(DivisionAll[k]) then Response(code, Complete([])) else Response(200, Complete([]))))
    && (forall body :: env.decodeDivision(body).failure.None?)
  }

  /** Different divisions have different hierarchy endpoints. */
  lemma DivisionLocationsDistinct(a: API, i: nat, j: nat)
    requires i < |DivisionAll| && j < |DivisionAll|
    requires a.DivisionLocation(DivisionAll[i]) == a.DivisionLocation(DivisionAll[j])
    ensures i == j
  {
    var env := Env(_ => true, (_, _) => Unreachable(""), _ => Decoded(Division(""), None), _ => Decoded(Season([]), None), _ => Decoded(Boxscore("", "", "", ""), None));
    assert forall d :: d in DivisionAll ==> SlashFree(d);
    DivisionEndpointShape(a, env, DivisionAll[i]);
    DivisionEndpointShape(a, env, DivisionAll[j]);
    var si := BaseSegments(a) + ["teams", DivisionAll[i], "hierarchy.xml"];
    var sj := BaseSegments(a) + ["teams", DivisionAll[j], "hierarchy.xml"];
    assert si[5] == sj[5];
  }

  lemma FetchAtFailingServer(a: API, env: Env, k: nat, code: int, h: seq<Url>, divisionType: DivisionType)
    requires FailsOnlyAt(a, env, k, code)
    ensures a.FetchDivision(env, h, divisionType).result ==
      if a.DivisionLocation(divisionType) == a.DivisionLocation(DivisionAll[k]) then DivisionReply(None, Some(StatusError(code)))
      else DivisionReply(Some(env.decodeDivision([]).value), None)
  {
    var u := Url(a.DivisionLocation(divisionType), a.apiKey);
    assert a.DivisionEndpoint(env, divisionType) == Ok(u);
    var got := Get(env, h, Ok(u));
  }

  /** Against that server, a division fetch fails only for division k, and
      then with `code`. */
  lemma OnlyDivisionKFails(a: API, env: Env, k: nat, code: int, h: seq<Url>, i: nat)
    requires FailsOnlyAt(a, env, k, code)
    requires i < |DivisionAll|
    ensures a.FetchDivision(env, h, DivisionAll[i]).result.err.Some? <==> i == k
    ensures i == k ==> a.FetchDivision(env, h, DivisionAll[i]).result.err == Some(StatusError(code))
  {
    FetchAtFailingServer(a, env, k, code, h, DivisionAll[i]);
    if a.DivisionLocation(DivisionAll[i]) == a.DivisionLocation(DivisionAll[k]) {
      DivisionLocationsDistinct(a, i, k);
    }
  }

  /** Against that server every division before k is fetched successfully. */
  lemma FailingServerReachesK(a: API, env: Env, sent: seq<Url>, k: nat, code: int)
    requires FailsOnlyAt(a, env, k, code)
    ensures Sequence(a.DivisionFetcher(env), sent, DivisionAll[..k]).result.Ok?
  {
    var fetch := a.DivisionFetcher(env);
    var front := DivisionAll[..k];
    forall i | 0 <= i < |front| ensures fetch(Sequence(fetch, sent, front[..i]).sent, front[i]).result.Ok? {
      OnlyDivisionKFails(a, env, k, code, Sequence(fetch, sent, front[..i]).sent, i);
    }
    SequenceSucceeds(fetch, sent, front);
  }

  /** Against that server the batch ends with division k's failure. */
  lemma FailingServerEndsAtK(a: API, env: Env, sent: seq<Url>, k: nat, code: int)
    requires FailsOnlyAt(a, env, k, code)
    ensures Sequence(a.DivisionFetcher(env), sent, DivisionAll[..k]).result.Ok?
    ensures Sequence(a.DivisionFetcher(env), sent, DivisionAll).result == Err(StatusError(code))
    ensures Sequence(a.DivisionFetcher(env), sent, DivisionAll).sent ==
      a.DivisionFetcher(env)(Sequence(a.DivisionFetcher(env), sent, DivisionAll[..k]).sent, DivisionAll[k]).sent
  {
    var fetch := a.DivisionFetcher(env);
    FailingServerReachesK(a, env, sent, k, code);
    var h := Sequence(fetch, sent, DivisionAll[..k]).sent;
    OnlyDivisionKFails(a, env, k, code, h, k);
    assert DivisionAll[..k + 1] == DivisionAll[..k] + [DivisionAll[k]];
    SequenceSnoc(fetch, sent, DivisionAll[..k], DivisionAll[k]);
    SequenceStopsAtFailure(fetch, sent, DivisionAll[..k + 1], DivisionAll);
  }

  /** A server that fails only the hierarchy request of division k, with a
      status other than 200: `AllDivisions` returns that status and has sent
      the requests of divisions 0..k and no others. */
  lemma AllDivisionsStopsAtFailingDivision(a: API, env: Env, sent: seq<Url>, k: nat, code: int)
    requires FailsOnlyAt(a, env, k, code)
    ensures
      var r := Sequence(a.DivisionFetcher(env), sent, DivisionAll);
      && r.result == Err(StatusError(code))
      && r.sent == sent + Sends(DivisionSends(a, env), DivisionAll[..k + 1])
  {
    FailingServerEndsAtK(a, env, sent, k, code);
    DivisionsSentUpTo(a, env, sent, DivisionAll, k);
  }

  /** A division batch that ended with division k's history has sent the
      requests of divisions 0..k. */
  lemma DivisionsSentUpTo(a: API, env: Env, sent: seq<Url>, rs: seq<DivisionType>, k: nat)
    requires k < |rs| && Sequence(a.DivisionFetcher(env), sent, rs[..k]).result.Ok?
    requires Sequence(a.DivisionFetcher(env), sent, rs).sent ==
      a.DivisionFetcher(env)(Sequence(a.DivisionFetcher(env), sent, rs[..k]).sent, rs[k]).sent
    ensures Sequence(a.DivisionFetcher(env), sent, rs).sent == sent + Sends(DivisionSends(a, env), rs[..k + 1])
  {
    DivisionFetchSends(a, env, rs);
    SentUpToFailure(a.DivisionFetcher(env), DivisionSends(a, env), sent, rs, k);
  }

  // ---------------------------------------------------------- AllSchedules

  /** `AllSchedules` asks for two schedules per year, year by year, the
      regular season before the post-season: request k is for year k / 2
      and for phase k % 2 of `ScheduleAll`. */
  lemma {:induction false} ScheduleRequestsOrder(years: seq<string>)
    ensures |ScheduleRequests(years)| == 2 * |years|
    ensures forall k :: 0 <= k < |ScheduleRequests(years)| ==>
      ScheduleRequests(years)[k] == ScheduleRequest(years[k / 2], ScheduleAll[k % 2])
    decreases |years|
  {
    if years != [] {
      var n := |years| - 1;
      var front := years[..n];
      ScheduleRequestsOrder(front);
      var r := ScheduleRequests(years);
      var head := ScheduleRequests(front);
      var tail := YearRequests(years[n], ScheduleAll);
      assert r == head + tail;
      forall k | 0 <= k < |r| ensures r[k] == ScheduleRequest(years[k / 2], ScheduleAll[k % 2]) {
        if k < 2 * n {
          assert r[k] == head[k];
          assert front[k / 2] == years[k / 2];
        } else {
          assert r[k] == tail[k - 2 * n];
          assert k / 2 == n && k % 2 == k - 2 * n;
        }
      }
    }
  }

  /** Every schedule `AllSchedules` returns is labelled with the year and
      phase it was fetched for: schedule k has year k / 2 and phase k % 2. */
  lemma AllSchedulesStamped(a: API, env: Env, sent: seq<Url>, years: seq<string>)
    requires Sequence(a.ScheduleFetcher(env), sent, ScheduleRequests(years)).result.Ok?
    ensures
      var schedules := Sequence(a.ScheduleFetcher(env), sent, ScheduleRequests(years)).result.value;
      && |schedules| == 2 * |years|
      && forall k :: 0 <= k < |schedules| ==>
           schedules[k].year == years[k / 2] && schedules[k].scheduleType == ScheduleAll[k % 2]
  {
    var fetch := a.ScheduleFetcher(env);
    var rs := ScheduleRequests(years);
    var schedules := Sequence(fetch, sent, rs).result.value;
    ScheduleRequestsOrder(years);
    forall k | 0 <= k < |schedules| ensures schedules[k].year == years[k / 2] && schedules[k].scheduleType == ScheduleAll[k % 2] {
      SequenceAt(fetch, sent, rs, k);
      var got := a.FetchSchedule(env, Sequence(fetch, sent, rs[..k]).sent, rs[k].year, rs[k].scheduleType);
      assert got == fetch(Sequence(fetch, sent, rs[..k]).sent, rs[k]);
    }
  }

  /** The requests one schedule fetch sends, whatever was sent before. */
  function ScheduleSends(a: API, env: Env): ScheduleRequest -> seq<Url> {
    (q: ScheduleRequest) => Requested(a.ScheduleEndpoint(env, q.year, q.scheduleType))
  }

  /** `AllSchedules` sends the requests of all its schedule calls when it
      succeeds, and those up to and including the failing one when it fails,
      returning that call's error. */
  lemma AllSchedulesSends(a: API, env: Env, sent: seq<Url>, years: seq<string>)
    ensures
      var rs := ScheduleRequests(years);
      var r := Sequence(a.ScheduleFetcher(env), sent, rs);
      && (r.result.Ok? ==> r.sent == sent + Sends(ScheduleSends(a, env), rs))
      && (r.result.Err? ==>
            exists k ::
              && 0 <= k < |rs|
              && Sequence(a.ScheduleFetcher(env), sent, rs[..k]).result.Ok?
              && var failed := a.FetchSchedule(env, Sequence(a.ScheduleFetcher(env), sent, rs[..k]).sent, rs[k].year, rs[k].scheduleType);
                 && failed.result.Err?
                 && r.result.error == failed.result.error
                 && r.sent == sent + Sends(ScheduleSends(a, env), rs[..k + 1]))
  {
    var fetch := a.ScheduleFetcher(env);
    var rs := ScheduleRequests(years);
    forall h: seq<Url>, i | 0 <= i < |rs| ensures fetch(h, rs[i]).sent == h + ScheduleSends(a, env)(rs[i]) {
      var got := a.FetchSchedule(env, h, rs[i].year, rs[i].scheduleType);
    }
    SequenceSends(fetch, ScheduleSends(a, env), sent, rs);
  }

  // ----------------------------------------------------- ScheduleBoxscores

  /** Every game of the season, week by week and game by game in schedule
      order, labelled with its week. */
  function Visits(weeks: seq<Week>): seq<GameRef>
    decreases |weeks|
  {
    if weeks == [] then [] else WeekVisits(weeks[0]) + Visits(weeks[1..])
  }

  function WeekVisits(w: Week): (r: seq<GameRef>)
    ensures |r| == |w.games|
    ensures forall j :: 0 <= j < |r| ==> r[j] == GameRef(w.week, w.games[j])
  {
    seq(|w.games|, j requires 0 <= j < |w.games| => GameRef(w.week, w.games[j]))
  }

  /** The visited games whose identifier is among `ids`, in visiting order. */
  function Wanted(refs: seq<GameRef>, ids: seq<string>): seq<GameRef>
    decreases |refs|
  {
    if refs == [] then []
    else (if refs[0].game.id in ids then [refs[0]] else []) + Wanted(refs[1..], ids)
  }

  lemma {:induction false} WantedAppend(x: seq<GameRef>, y: seq<GameRef>, ids: seq<string>)
    ensures Wanted(x + y, ids) == Wanted(x, ids) + Wanted(y, ids)
    decreases |x|
  {
    if x != [] {
      assert (x + y)[0] == x[0] && (x + y)[1..] == x[1..] + y;
      WantedAppend(x[1..], y, ids);
    } else {
      assert x + y == y;
    }
  }

  lemma {:induction false} VisitsSnoc(weeks: seq<Week>)
    requires weeks != []
    ensures Visits(weeks) == Visits(weeks[..|weeks| - 1]) + WeekVisits(weeks[|weeks| - 1])
    decreases |weeks|
  {
    if |weeks| > 1 {
      var rest := weeks[1..];
      VisitsSnoc(rest);
      assert rest[..|rest| - 1] == weeks[..|weeks| - 1][1..];
      assert weeks[..|weeks| - 1][0] == weeks[0];
      assert rest[|rest| - 1] == weeks[|weeks| - 1];
    } else {
      assert weeks[1..] == [] && weeks[..0] == [];
    }
  }

  lemma {:induction false} WeekPicksAreWanted(week: string, games: seq<Game>, ids: seq<string>)
    ensures WeekPicks(week, games, ids) == Wanted(WeekVisits(Week(week, games)), ids)
    decreases |games|
  {
    if games != [] {
      var n := |games| - 1;
      var g := games[n];
      WeekPicksAreWanted(week, games[..n], ids);
      var all := WeekVisits(Week(week, games));
      var front := WeekVisits(Week(week, games[..n]));
      assert all == front + [GameRef(week, g)];
      WantedAppend(front, [GameRef(week, g)], ids);
      assert Wanted([GameRef(week, g)], ids) == if g.id in ids then [GameRef(week, g)] else [];
    }
  }

  /** The games `ScheduleBoxscores` fetches are exactly the season's games,
      in visiting order, kept when their identifier is among `ids`. */
  lemma {:induction false} PicksAreWantedVisits(weeks: seq<Week>, ids: seq<string>)
    ensures Picks(weeks, ids) == Wanted(Visits(weeks), ids)
    decreases |weeks|
  {
    if weeks != [] {
      var n := |weeks| - 1;
      var w := weeks[n];
      PicksAreWantedVisits(weeks[..n], ids);
      VisitsSnoc(weeks);
      WantedAppend(Visits(weeks[..n]), WeekVisits(w), ids);
      WeekPicksAreWanted(w.week, w.games, ids);
    }
  }

  lemma {:induction false} WantedMembers(refs: seq<GameRef>, ids: seq<string>, x: GameRef)
    ensures x in Wanted(refs, ids) <==> x in refs && x.game.id in ids
    decreases |refs|
  {
    if refs != [] {
      WantedMembers(refs[1..], ids, x);
      assert refs == [refs[0]] + refs[1..];
    }
  }

  /** A game reference is fetched exactly when it is one of the season's
      games and its identifier is among `ids`. */
  lemma PicksMembers(weeks: seq<Week>, ids: seq<string>, x: GameRef)
    ensures x in Picks(weeks, ids) <==> x in Visits(weeks) && x.game.id in ids
  {
    PicksAreWantedVisits(weeks, ids);
    WantedMembers(Visits(weeks), ids, x);
  }

  /** Only which identifiers `ids` holds matters, not their order or
      repetition: a game is fetched once however often its identifier is
      listed. */
  lemma {:induction false} PicksDependOnIdSet(weeks: seq<Week>, ids: seq<string>, ids': seq<string>)
    requires forall id :: id in ids <==> id in ids'
    ensures Picks(weeks, ids) == Picks(weeks, ids')
    decreases |weeks|
  {
    if weeks != [] {
      var n := |weeks| - 1;
      PicksDependOnIdSet(weeks[..n], ids, ids');
      WeekPicksDependOnIdSet(weeks[n].week, weeks[n].games, ids, ids');
    }
  }

  lemma {:induction false} WeekPicksDependOnIdSet(week: string, games: seq<Game>, ids: seq<string>, ids': seq<string>)
    requires forall id :: id in ids <==> id in ids'
    ensures WeekPicks(week, games, ids) == WeekPicks(week, games, ids')
    decreases |games|
  {
    if games != [] {
      WeekPicksDependOnIdSet(week, games[..|games| - 1], ids, ids');
    }
  }

  /** When `ScheduleBoxscores` succeeds it returns one boxscore per picked
      game, in order, each labelled with the schedule's year and phase and
      the week of its game. */
  lemma ScheduleBoxscoresStamped(a: API, env: Env, sent: seq<Url>, schedule: Schedule, ids: seq<string>)
    requires Sequence(a.BoxscoreFetcher(env, schedule), sent, Picks(schedule.season.weeks, ids)).result.Ok?
    ensures
      var picks := Picks(schedule.season.weeks, ids);
      var boxscores := Sequence(a.BoxscoreFetcher(env, schedule), sent, picks).result.value;
      && |boxscores| == |picks|
      && forall k :: 0 <= k < |boxscores| ==>
           && boxscores[k].year == schedule.year
           && boxscores[k].scheduleType == schedule.scheduleType
           && boxscores[k].week == picks[k].week
  {
    var fetch := a.BoxscoreFetcher(env, schedule);
    var picks := Picks(schedule.season.weeks, ids);
    var boxscores := Sequence(fetch, sent, picks).result.value;
    forall k | 0 <= k < |boxscores|
      ensures boxscores[k].year == schedule.year && boxscores[k].scheduleType == schedule.scheduleType && boxscores[k].week == picks[k].week
    {
      SequenceAt(fetch, sent, picks, k);
      var h := Sequence(fetch, sent, picks[..k]).sent;
      var got := a.FetchBoxscore(env, h, schedule.year, schedule.scheduleType, picks[k].week, picks[k].game.awayTeamId, picks[k].game.homeTeamId);
      assert got == fetch(h, picks[k]);
    }
  }

  /** The requests one boxscore fetch of `schedule` sends. */
  function BoxscoreSends(a: API, env: Env, schedule: Schedule): GameRef -> seq<Url> {
    (g: GameRef) => Requested(a.BoxscoreEndpoint(env, schedule.year, schedule.scheduleType, g.week, g.game.awayTeamId, g.game.homeTeamId))
  }

  /** `ScheduleBoxscores` sends one boxscore request per picked game when it
      succeeds, and those up to and including the failing one when it fails,
      returning that fetch's error. */
  lemma ScheduleBoxscoresSends(a: API, env: Env, sent: seq<Url>, schedule: Schedule, ids: seq<string>)
    ensures
      var picks := Picks(schedule.season.weeks, ids);
      var r := Sequence(a.BoxscoreFetcher(env, schedule), sent, picks);
      && (r.result.Ok? ==> r.sent == sent + Sends(BoxscoreSends(a, env, schedule), picks))
      && (r.result.Err? ==>
            exists k ::
              && 0 <= k < |picks|
              && Sequence(a.BoxscoreFetcher(env, schedule), sent, picks[..k]).result.Ok?
              && a.BoxscoreFetcher(env, schedule)(Sequence(a.BoxscoreFetcher(env, schedule), sent, picks[..k]).sent, picks[k]).result.Err?
              && r.result.error == a.BoxscoreFetcher(env, schedule)(Sequence(a.BoxscoreFetcher(env, schedule), sent, picks[..k]).sent, picks[k]).result.error
              && r.sent == sent + Sends(BoxscoreSends(a, env, schedule), picks[..k + 1]))
  {
    var fetch := a.BoxscoreFetcher(env, schedule);
    var picks := Picks(schedule.season.weeks, ids);
    forall h: seq<Url>, i | 0 <= i < |picks| ensures fetch(h, picks[i]).sent == h + BoxscoreSends(a, env, schedule)(picks[i]) {
      var g := picks[i];
      var got := a.FetchBoxscore(env, h, schedule.year, schedule.scheduleType, g.week, g.game.awayTeamId, g.game.homeTeamId);
    }
    SequenceSends(fetch, BoxscoreSends(a, env, schedule), sent, picks);
  }

  /** A season of three weeks holding games g1, g2 / g3 / g4, g5, asked for
      ["g5", "g2"]: the boxscores come in season order, g2 before g5, not in
      the order of the identifiers. */
  lemma PicksFollowSeasonOrder()
    ensures
      var g1 := Game("g1", "a1", "h1");
      var g2 := Game("g2", "a2", "h2");
      var g3 := Game("g3", "a3", "h3");
      var g4 := Game("g4", "a4", "h4");
      var g5 := Game("g5", "a5", "h5");
      var weeks := [Week("1", [g1, g2]), Week("2", [g3]), Week("3", [g4, g5])];
      Picks(weeks, ["g5", "g2"]) == [GameRef("1", g2), GameRef("3", g5)]
  {
    var g1 := Game("g1", "a1", "h1");
    var g2 := Game("g2", "a2", "h2");
    var g3 := Game("g3", "a3", "h3");
    var g4 := Game("g4", "a4", "h4");
    var g5 := Game("g5", "a5", "h5");
    var weeks := [Week("1", [g1, g2]), Week("2", [g3]), Week("3", [g4, g5])];
    var ids := ["g5", "g2"];
    assert "g1" !in ids && "g3" !in ids && "g4" !in ids by {
      assert "g1"[1] != "g5"[1] && "g1"[1] != "g2"[1];
      assert "g3"[1] != "g5"[1] && "g3"[1] != "g2"[1];
      assert "g4"[1] != "g5"[1] && "g4"[1] != "g2"[1];
    }
    assert "g2" in ids && "g5" in ids by {
      assert ids[1] == "g2" && ids[0] == "g5";
    }
    assert WeekPicks("1", [g1, g2], ids) == [GameRef("1", g2)] by {
      assert [g1, g2][..1] == [g1];
      assert [g1][..0] == [];
      assert WeekPicks("1", [g1], ids) == [];
    }
    assert WeekPicks("2", [g3], ids) == [] by {
      assert [g3][..0] == [];
    }
    assert WeekPicks("3", [g4, g5], ids) == [GameRef("3", g5)] by {
      assert [g4, g5][..1] == [g4];
      assert [g4][..0] == [];
      assert WeekPicks("3", [g4], ids) == [];
    }
    assert weeks[..2] == [Week("1", [g1, g2]), Week("2", [g3])];
    assert weeks[..2][..1] == [Week("1", [g1, g2])];
    assert weeks[..2][..1][..0] == [];
    assert Picks(weeks[..2][..1], ids) == [GameRef("1", g2)];
    assert Picks(weeks[..2], ids) == [GameRef("1", g2)];
  }
}
