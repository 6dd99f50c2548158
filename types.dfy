/**
 * The values the ncaafb client works with: its string-typed enumerations,
 * the records it returns, the errors it reports, and the outside world it
 * talks to (URL parsing, the HTTP server and the XML decoder), which the
 * model takes as parameters.
 */
module NcaafbTypes {

  datatype Option<+T> = None | Some(value: T)

  /** The error kinds a fetch can end in, each propagated unchanged. */
  datatype Error =
    | UrlError(text: string)          // url.Parse refused the endpoint text
    | TransportError(reason: string)  // the GET itself did not complete
    | StatusError(code: int)          // the server answered with a status other than 200
    | ReadError(reason: string)       // reading the response body failed
    | ParseError(reason: string)      // the body did not decode as the expected XML

  datatype Result<+T> = Ok(value: T) | Err(error: Error)

  /** Go's `AccessLevelType`, `ScheduleType` and `DivisionType` are string
      types: any string converts to them, and the constants below are the
      values the package names. */
  type AccessLevelType = string
  type ScheduleType = string
  type DivisionType = string

  const AccessLevelTrial: AccessLevelType := "t"
  const AccessLevelProduction: AccessLevelType := "p"

  const ScheduleRegular: ScheduleType := "reg"
  const SchedulePostSeason: ScheduleType := "pst"

  /** Both schedule phases, regular season first. */
  const ScheduleAll: seq<ScheduleType> := [ScheduleRegular, SchedulePostSeason]

  const DivisionFBS: DivisionType := "FBS"
  const DivisionFCS: DivisionType := "FCS"
  const DivisionD2: DivisionType := "D2"
  const DivisionD3: DivisionType := "D3"
  const DivisionNAIA: DivisionType := "NAIA"
  const DivisionUSCAA: DivisionType := "USCAA"

  /** All six divisions, in declared order. */
  const DivisionAll: seq<DivisionType> :=
    [DivisionFBS, DivisionFCS, DivisionD2, DivisionD3, DivisionNAIA, DivisionUSCAA]

  /** A game of a season, with the identifiers the boxscore fetch needs. */
  datatype Game = Game(id: string, awayTeamId: string, homeTeamId: string)

  /** One week of a season: its label and its games in schedule order. */
  datatype Week = Week(week: string, games: seq<Game>)

  datatype Season = Season(weeks: seq<Week>)

  /** A decoded season together with the year and phase it was requested for. */
  datatype Schedule = Schedule(year: string, scheduleType: ScheduleType, season: Season)

  /** A game's boxscore. The year, phase and week are written by the client;
      `stats` stands for the rest of the decoded document, which this model
      does not interpret. */
  datatype Boxscore = Boxscore(year: string, scheduleType: ScheduleType, week: string, stats: string)

  /** A division's team hierarchy, uninterpreted. */
  datatype Division = Division(hierarchy: string)

  /** A parsed endpoint: the formatted endpoint text, taken as the URL that
      is sent, plus the single query parameter `api_key`. */
  datatype Url = Url(location: string, apiKey: string)

  type Body = seq<bv8>

  /** Whether reading the response body completed. */
  datatype BodyRead = Complete(bytes: Body) | Interrupted(reason: string)

  /** What one GET gives back. */
  datatype HttpOutcome =
    | Unreachable(reason: string)
    | Response(statusCode: int, body: BodyRead)

  /** What `xml.Unmarshal` leaves in a freshly allocated record: the value
      it filled in (possibly only in part) and the error, if any. */
  datatype Decoded<T> = Decoded(value: T, failure: Option<string>)

  /** The outside world. `respond` answers a request given every request
      sent before it, oldest first, so a server whose answers change from
      call to call is covered. */
  datatype Env = Env(
    urlParses: string -> bool,
    respond: (seq<Url>, Url) -> HttpOutcome,
    decodeDivision: Body -> Decoded<Division>,
    decodeSeason: Body -> Decoded<Season>,
    decodeBoxscore: Body -> Decoded<Boxscore>)

  /** A value computed by talking to the server, with the history of
      requests sent afterwards. */
  datatype Step<T> = Step(result: T, sent: seq<Url>)
}
