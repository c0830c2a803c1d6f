/**
 * Business checks over a fetched tournament (src/services/sports-ru.service.ts).
 */
module SportsRuService {
  import opened Wrappers
  import opened Logging
  import opened Domain
  import opened BotContext
  import opened SportsRepository

  const SeasonInactive := "season_inactive"
  const NoActiveTour := "no_active_tour"
  const UnknownStatus := "unknown"

  const ProcessingMessage := "Processing tournament information request"
  const NoTournamentMessage := "No tournament data available in API response"
  const SeasonInactiveMessage := "Tournament season is not active"
  const ProcessedMessage := "Tournament information processed successfully"
  const FailedMessage := "Failed to process tournament information"

  datatype TournamentStatus = TournamentStatus(isActive: bool, hasActiveTour: bool, status: string)

  /** `currentSeason?.isActive === true && currentSeason?.currentTour !== null`. */
  predicate IsTournamentActive(t: Tournament) {
    && t.currentSeason.Some? && t.currentSeason.value.isActive
    && t.currentSeason.value.currentTour.Some?
  }

  /**
   * `currentSeason?.currentTour !== null`: with no season the optional chain
   * yields `undefined`, which is not `null`, so the answer is true.
   */
  predicate HasActiveTour(t: Tournament) {
    t.currentSeason.None? || t.currentSeason.value.currentTour.Some?
  }

  /** The status summary: `isActive`, `hasActiveTour`, and a status word chosen by an if/else chain. */
  method GetTournamentStatus(t: Tournament) returns (r: TournamentStatus)
    ensures r.isActive == IsTournamentActive(t) && r.hasActiveTour == HasActiveTour(t)
    ensures r.isActive ==> r.hasActiveTour
    ensures t.currentSeason.None? ==> r.hasActiveTour && !r.isActive
    ensures t.currentSeason.None? || !t.currentSeason.value.isActive ==> r.status == SeasonInactive
    ensures t.currentSeason.Some? && t.currentSeason.value.isActive && t.currentSeason.value.currentTour.None?
      ==> r.status == NoActiveTour
    ensures r.isActive ==>
      r.status == (if t.currentSeason.value.currentTour.value.status != "" then t.currentSeason.value.currentTour.value.status
                   else UnknownStatus)
  {
    var isActive := IsTournamentActive(t);
    var hasActiveTour := HasActiveTour(t);
    var status: string;
    if t.currentSeason.None? || !t.currentSeason.value.isActive {
      status := SeasonInactive;
    } else if !hasActiveTour {
      status := NoActiveTour;
    } else {
      var tourStatus := t.currentSeason.value.currentTour.value.status;
      status := if tourStatus != "" then tourStatus else UnknownStatus;
    }
    r := TournamentStatus(isActive, hasActiveTour, status);
  }

  /**
   * `getTournament` of the older repository (src/repositories/sports-ru.repository.ts):
   * `fetched` is what the GraphQL client resolves or rejects with. The
   * response entry dereferences `fantasyQueries`, so a response without it
   * throws inside the same `try`; either way the error is logged and a new
   * error is thrown, shown here as `None`.
   */
  method ReadTournament(fetched: Result<Response, string>, logger: Logger) returns (r: Option<Response>)
    modifies logger
    ensures r.Some? <==> fetched.Success? && fetched.value.fantasyQueries.Some?
    ensures r.Some? ==> r.value == fetched.value
    ensures logger.entries == old(logger.entries) + QueryLog(r.None?)
  {
    logger.Log(Debug, RequestMessage);
    if fetched.Failure? || fetched.value.fantasyQueries.None? {
      logger.Log(ErrorLevel, FailureMessage);
      return None;
    }
    logger.Log(Debug, ResponseMessage);
    r := Some(fetched.value);
  }

  /**
   * `getCurrentTournamentInfo`: a rejected read gives `null`, and so does a
   * missing tournament; an inactive season only adds a warning and the
   * tournament is still returned.
   */
  method GetCurrentTournamentInfo(fetched: Result<Response, string>, logger: Logger) returns (r: Option<Tournament>)
    modifies logger
    ensures r.Some? <==>
      fetched.Success? && fetched.value.fantasyQueries.Some? && fetched.value.fantasyQueries.value.tournament.Some?
    ensures r.Some? ==> r == fetched.value.fantasyQueries.value.tournament
    ensures fetched.Failure? || fetched.value.fantasyQueries.None? ==>
      logger.entries == old(logger.entries) + [LogEntry(Info, ProcessingMessage)] + QueryLog(true)
        + [LogEntry(ErrorLevel, FailedMessage)]
    ensures fetched.Success? && fetched.value.fantasyQueries.Some? && fetched.value.fantasyQueries.value.tournament.None? ==>
      logger.entries == old(logger.entries) + [LogEntry(Info, ProcessingMessage)] + QueryLog(false)
        + [LogEntry(Warn, NoTournamentMessage)]
    ensures r.Some? ==>
      var inactive := r.value.currentSeason.None? || !r.value.currentSeason.value.isActive;
      logger.entries == old(logger.entries) + [LogEntry(Info, ProcessingMessage)] + QueryLog(false)
        + (if inactive then [LogEntry(Warn, SeasonInactiveMessage)] else [])
        + [LogEntry(Info, ProcessedMessage)]
  {
    logger.Log(Info, ProcessingMessage);
    var response := ReadTournament(fetched, logger);
    if response.None? {
      logger.Log(ErrorLevel, FailedMessage);
      return None;
    }
    var tournament := response.value.fantasyQueries.value.tournament;
    if tournament.None? {
      logger.Log(Warn, NoTournamentMessage);
      return None;
    }
    var t := tournament.value;
    if t.currentSeason.None? || !t.currentSeason.value.isActive {
      logger.Log(Warn, SeasonInactiveMessage);
    }
    logger.Log(Info, ProcessedMessage);
    r := tournament;
  }
}
