# ncaafb client, modelled in Dafny

The `ncaafb` package is a Go client for the sportsdatallc.org college
football API. A client holds an API key, an access tier (production or trial)
and a logging flag. From these it builds endpoint URLs for three documents:

- a division's team hierarchy;
- a season schedule;
- a game's boxscore.

It fetches each document with an HTTP GET, insists on status 200, reads the
body and decodes it as XML. It then writes the request's context onto the
decoded record:

- the year and phase on a schedule;
- the year, phase and week on a boxscore.

Three batch calls run these fetches one after another and stop at the first
error:

- `AllDivisions` fetches the six divisions.
- `AllSchedules` fetches both phases of every year asked for.
- `ScheduleBoxscores` fetches the boxscore of every game of a schedule whose
  identifier is in a given list.

The Dafny project has five modules:

- `NcaafbTypes` (`types.dfy`) holds the string-typed enumerations and their
  "all" lists, the records, the error kinds, and `Env`. `Env` is the outside
  world, taken as a parameter:
  - the URL parser's verdict;
  - the HTTP server;
  - the three XML decoders.

  The server answers each request given the list of requests sent before it,
  so every property holds for any server behaviour, including one whose
  answers change from call to call.
- `UrlPaths` (`paths.dfy`) splits a URL text at `/`. Endpoint shapes are
  stated as lists of path segments.
- `FailFast` (`failfast.dfy`) defines `Sequence`, the outcome of running a
  list of fetches in order and stopping at the first error. It also proves
  the general facts the batch calls rely on: results in request order, fail
  fast, and which requests were sent.
- `NcaafbApi` (`api.dfy`) is the client. `API` is an immutable datatype, as
  `NewAPI` builds it and nothing changes it afterwards. It has:
  - the endpoint builders;
  - the three single fetches, as functions that thread the request history;
  - the three batch calls, as methods with the source's loops. Each method
    is proved equal to `Sequence` over the list of requests it makes:
    - `DivisionAll` for `AllDivisions`;
    - `ScheduleRequests` for `AllSchedules`, year by year with `reg` before
      `pst`;
    - `Picks` for `ScheduleBoxscores`, the games whose identifier is wanted,
      in week-then-game order.

    The nested loops of `AllSchedules` and `ScheduleBoxscores` are the
    methods `FetchYears` and `FetchPicked`. They take the single fetch as a
    parameter, so their proofs do not depend on what one fetch does.
- `NcaafbProperties` (`properties.dfy`) states what the client promises:
  - the endpoint shapes;
  - the error paths and the stamping of each fetch;
  - the order, fail-fast behaviour and requests sent of each batch call;
  - an independent description of which games `ScheduleBoxscores` picks.

The code differs from a plain reading of the protocol in two places, and the
model follows the code.

- `Division` does not treat a decoding failure as an error path. It returns
  the partly decoded record and the decoder's error together
  (`ncaafb/api.go:146-148`), where `Schedule` and `Boxscore` return no record.
  `FetchDivision` returns both, as a `DivisionReply`. `AllDivisions` still
  drops everything on that error.
- `ScheduleType` and `DivisionType` are Go string types, not closed
  enumerations. Any string converts to them, so the model makes them `string`
  with the named constants. The endpoint-shape lemmas need each argument to
  be free of `/`, because the path has no other way to keep segments apart.

## Model

| member | source | states |
|---|---|---|
| NcaafbProperties.BaseEndpointTier | ncaafb/api.go:67-79 | the base endpoint is `https://api.sportsdatallc.org/ncaafb-p1` in production and `…/ncaafb-t1` on trial; any two configurations with the same tier share it, whatever their key or logging flag |
| NcaafbProperties.BaseEndpointShape | ncaafb/api.go:74 | split at `/`, the base endpoint is the scheme, an empty segment, the host and one tier segment `ncaafb-<tier>1` |
| NcaafbApi.API.Endpoint | ncaafb/api.go:83-93 | building an endpoint succeeds exactly when the URL parser accepts the text; the resulting URL has that text and carries the configured key as `api_key`; a refused text is a URL error naming that text |
| NcaafbApi.API.DivisionEndpoint | ncaafb/api.go:81-94 | the division endpoint is built exactly when the parser accepts the division location; it is then that location with the configured key, and otherwise a URL error naming that location |
| NcaafbApi.API.ScheduleEndpoint | ncaafb/api.go:96-109 | the schedule endpoint is built exactly when the parser accepts the schedule location; it is then that location with the configured key, and otherwise a URL error naming that location |
| NcaafbApi.API.BoxscoreEndpoint | ncaafb/api.go:111-125 | the boxscore endpoint is built exactly when the parser accepts the boxscore location; it is then that location with the configured key, and otherwise a URL error naming that location |
| NcaafbProperties.DivisionEndpointShape | ncaafb/api.go:81-94 | the division endpoint's path is the base, then `teams`, the division and `hierarchy.xml`; it is built exactly when the parser accepts it, and then it is that text with the configured key |
| NcaafbProperties.ScheduleEndpointShape | ncaafb/api.go:96-109 | the schedule endpoint's path is the base, then the year, the phase and `schedule.xml`, with the configured key |
| NcaafbProperties.BoxscoreEndpointShape | ncaafb/api.go:111-125 | the boxscore endpoint's path is the base, then year, phase, week, away team, home team and `boxscore.xml`, in that order, with the configured key |
| NcaafbProperties.BoxscoreLocationIdentifiesGame | ncaafb/api.go:113 | two boxscore endpoints built from `/`-free arguments are equal only when all five arguments are |
| NcaafbApi.Get | ncaafb/api.go:132-145 | a request is sent exactly when the endpoint was built, and then exactly that one; the body comes back exactly when the server answered 200 with a complete body; an endpoint error is passed on unchanged |
| NcaafbProperties.GetReportsEachFailure | ncaafb/api.go:134-145 | no request leaves for an endpoint that failed to build; a failed GET is a transport error, any status other than 200 is an error carrying that status, an interrupted body is a read error, and otherwise the body is returned |
| NcaafbApi.API.FetchDivision | ncaafb/api.go:127-149 | the history grows by the division request alone; without an error there is always a record; an error comes with a record only when it is a parse error |
| NcaafbProperties.DivisionDecoding | ncaafb/api.go:146-148 | protocol errors give no record; once the body is read the decoded record is always returned, with a parse error exactly when decoding failed |
| NcaafbApi.API.FetchSchedule | ncaafb/api.go:163-191 | the history grows by the schedule request alone; a returned schedule has the requested year and phase |
| NcaafbProperties.ScheduleDecoding | ncaafb/api.go:181-190 | protocol errors pass unchanged; a decoding failure is a parse error with no record; otherwise the decoded season under the year and phase asked for, whatever the document said |
| NcaafbApi.API.FetchBoxscore | ncaafb/api.go:207-234 | the history grows by the boxscore request alone; a returned boxscore has the requested year, phase and week |
| NcaafbProperties.BoxscoreDecoding | ncaafb/api.go:225-233 | protocol errors pass unchanged; a decoding failure is a parse error with no record; otherwise the decoded boxscore with everything kept except year, phase and week, which are overwritten with the requested ones |
| FailFast.Sequence | ncaafb/api.go:151-161 | a successful batch has one result per request |
| FailFast.SequencePrefix | ncaafb/api.go:153-159 | a successful batch's prefixes succeed with the matching prefix of its results |
| FailFast.SequenceAt | ncaafb/api.go:153-159 | in a successful batch result i is what fetch i returned, at the history the first i fetches left |
| FailFast.SequenceSucceeds | ncaafb/api.go:153-159 | a batch succeeds if and only if every fetch succeeds at the history left by those before it |
| FailFast.SequenceStopsAtFailure | ncaafb/api.go:155-157 | once a prefix of the requests has failed, the batch ends exactly as that prefix did, so no later request runs |
| FailFast.SequenceFailsFast | ncaafb/api.go:155-157 | a failed batch failed at one request, after all before it succeeded, and returns that request's error and the history it left |
| FailFast.SequenceSends | ncaafb/api.go:153-159 | when each fetch sends a fixed set of requests, a successful batch sends those of every element and a failed one those up to and including the failing element, with that element's error |
| FailFast.SequenceSendsOnSuccess | ncaafb/api.go:153-159 | when each fetch appends a fixed list of requests, a successful batch has appended those of every element, in order |
| FailFast.SentUpToFailure | ncaafb/api.go:155-157 | a batch that ended with request k's history has appended the requests of elements 0..k, in order |
| NcaafbApi.API.DivisionFetcher | ncaafb/api.go:154-158 | as a batch step, a division fetch sends what the fetch sends; it fails exactly when the reply carries an error, and then with that error, so a partly decoded record is dropped; otherwise it yields the reply's record |
| NcaafbApi.API.AllDivisions | ncaafb/api.go:151-161 | returns exactly the outcome and request history of fetching `DivisionAll` in order with fail-fast |
| NcaafbProperties.AllDivisionsSucceeds | ncaafb/api.go:151-161 | on success: six records, the i-th being what the fetch of the i-th declared division returned without error, and one request per division in declared order |
| NcaafbProperties.AllDivisionsFailsFast | ncaafb/api.go:154-157 | on failure: some division k failed after those before it succeeded; its error is returned, a partly decoded record is dropped, and only the requests of divisions 0..k were sent |
| NcaafbProperties.DivisionsFailFast | ncaafb/api.go:154-157 | the same for a batch of division fetches over any list of divisions: a failure is that of the first failing division's reply, after the requests of the divisions up to it |
| NcaafbProperties.DivisionLocationsDistinct | ncaafb/api.go:81 | the six declared divisions have six different hierarchy endpoints |
| NcaafbProperties.OnlyDivisionKFails | ncaafb/api.go:134-140 | against a server that answers a non-200 status only for division k's hierarchy, a division fetch errs exactly for division k, and then with that status |
| NcaafbProperties.FailingServerEndsAtK | ncaafb/api.go:153-157 | against that server the divisions before k are all fetched, and the batch ends with k's status error and the history k's request left |
| NcaafbProperties.AllDivisionsStopsAtFailingDivision | ncaafb/api.go:151-161 | against that server `AllDivisions` returns exactly that status error after sending the requests of divisions 0..k and no others |
| NcaafbProperties.DivisionsSentUpTo | ncaafb/api.go:153-157 | a division batch over any list that ended with the history left by division k's request has sent the requests of divisions 0..k, in order |
| NcaafbApi.API.AllSchedules | ncaafb/api.go:193-205 | returns exactly the outcome and request history of fetching `ScheduleRequests(years)` in order with fail-fast |
| NcaafbApi.FetchYears | ncaafb/api.go:193-205 | the year-then-phase loops, for any single fetch, return exactly the outcome and history of fetching `ScheduleRequests(years)` in order with fail-fast |
| NcaafbApi.ScheduleRequests | ncaafb/api.go:195-196 | two schedule calls per year asked for |
| NcaafbApi.YearRequests | ncaafb/api.go:196 | one schedule call per phase of the list |
| NcaafbProperties.ScheduleRequestsOrder | ncaafb/api.go:195-197 | there are `2 * |years|` schedule calls, year-major: call k is for year k / 2 and phase k % 2 of `ScheduleAll` (`reg`, then `pst`) |
| NcaafbProperties.AllSchedulesStamped | ncaafb/api.go:193-205 | on success there are `2 * |years|` schedules and schedule k carries year k / 2 and phase k % 2 |
| NcaafbProperties.AllSchedulesSends | ncaafb/api.go:196-200 | all schedule requests are sent on success; on failure those up to and including the failing call, whose error is returned |
| NcaafbApi.API.ScheduleBoxscores | ncaafb/api.go:236-256 | returns exactly the outcome and request history of fetching `Picks(weeks, ids)` in order with fail-fast, each with the schedule's year and phase and its week's label |
| NcaafbApi.FetchPicked | ncaafb/api.go:236-256 | the week, game and identifier loops with their `break`, for any single fetch, return exactly the outcome and history of fetching `Picks(weeks, ids)` in order with fail-fast |
| NcaafbProperties.WeekPicksAreWanted | ncaafb/api.go:239-241 | the games picked from one week are that week's games, in order, kept when their identifier is in `ids` |
| NcaafbProperties.PicksAreWantedVisits | ncaafb/api.go:238-252 | the games picked are all the season's games in week-then-game order, kept when their identifier is in `ids` |
| NcaafbProperties.PicksMembers | ncaafb/api.go:240-241 | a game of a week is picked if and only if it is in the season and its identifier is in `ids` |
| NcaafbProperties.PicksDependOnIdSet | ncaafb/api.go:240-250 | only which identifiers `ids` holds matters, not their order or repetition, so a listed game is fetched once however often it is listed |
| NcaafbProperties.PicksFollowSeasonOrder | ncaafb/api.go:238-252 | weeks `[g1, g2] / [g3] / [g4, g5]` asked for `["g5", "g2"]` give g2 then g5: season order, not the order of `ids` |
| NcaafbProperties.ScheduleBoxscoresStamped | ncaafb/api.go:245-249 | on success there is one boxscore per picked game, in order, each with the schedule's year and phase and its game's week |
| NcaafbProperties.ScheduleBoxscoresSends | ncaafb/api.go:245-248 | on success one boxscore request per picked game, built from the schedule's year and phase, the week and the game's away and home teams; on failure those up to and including the failing one, whose error is returned |

## Left out

- The HTTP GET, `resp.Body.Close` and `ioutil.ReadAll` are network and stream I/O. They are the `respond` oracle, whose answer says whether the body was read completely. Closing the body is not modelled; in the source the body is never closed when the status is not 200.
- The one-second `time.Sleep` before each GET is timing only. Nothing in the result depends on it.
- `xml.Unmarshal` and the XML schemas of the Division, Season and Boxscore documents belong to a foreign library and to the data provider. They are the decoder oracles. Division hierarchies and boxscore contents are opaque strings, and a season is its weeks of games.
- `url.Parse` is the `urlParses` oracle. The query is modelled as the one pair (`api_key`, key), without the percent-encoding that `q.Encode()` applies.
- The `log.Printf` diagnostics gated by the logging flag are output only. The flag is kept in `API` but changes no result.
- The text of each error is not modelled. The status error carries only the status code, and the other errors carry an uninterpreted reason.
- Records are values. The model does not capture the pointer identity of the records the Go code allocates and returns.
- A nil `*API` receiver, a nil `*Schedule` or a schedule whose `Season` is nil makes the Go code panic when it dereferences them (`a.production`, `schedule.Season.Weeks`). The model's `API` and `Schedule` are values that always exist, so these inputs and the panic are not modelled.
- `NewAPI` is the `API` datatype's constructor, so it has no separate member.
- The endpoint-shape lemmas (`NcaafbProperties.DivisionEndpointShape`, `NcaafbProperties.ScheduleEndpointShape`, `NcaafbProperties.BoxscoreEndpointShape`, `NcaafbProperties.BoxscoreLocationIdentifiesGame`) require `/`-free arguments. An argument containing `/` adds path segments, and the source does not guard against that.
- A URL is modelled as the formatted text, not as the `u.String()` of the parsed URL that is sent. For an argument containing `?` or `#`, `url.Parse` moves the rest of the text into the query or the fragment, and `u.String()` re-escapes characters such as spaces or `%`. The endpoint lemmas therefore describe what is sent only for arguments free of `?`, `#`, `%` and characters that path escaping changes.
- NcaafbApi.ScheduleRequests: its own contract states only how many calls it lists. Which year and phase each call is for is stated by `NcaafbProperties.ScheduleRequestsOrder`.
- NcaafbApi.YearRequests: its own contract states only how many calls it lists. Their year and phases are stated, within the whole list, by `NcaafbProperties.ScheduleRequestsOrder`.
