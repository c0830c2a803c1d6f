/**
 * The fantasy queries (src/repositories/fantasy.repository.ts): each builds
 * its variables from its arguments, runs the query through the base
 * repository and unwraps `fantasyQueries.…` from the response, defaulting to
 * `null` (None) or `[]`.
 */
module FantasyRepository {
  import opened Wrappers
  import opened Logging
  import opened Domain
  import opened SportsRepository

  function OperationDocument(name: string): RequestDocument {
    DocumentObject(Some([Definition(OperationDefinitionKind, Some(name))]))
  }

  const TournamentQuery := OperationDocument("GetTournament")
  const LeagueQuery := OperationDocument("GetLeague")
  const LeagueSquadsQuery := OperationDocument("GetLeagueSquads")

  /** `response?.fantasyQueries?.tournament || null`. */
  function TournamentOf(response: Option<Response>): (r: Option<Tournament>)
    ensures r.Some? <==>
      response.Some? && response.value.fantasyQueries.Some?
      && response.value.fantasyQueries.value.tournament.Some?
    ensures r.Some? ==> r == response.value.fantasyQueries.value.tournament
  {
    match response
    case Some(Response(Some(queries))) => queries.tournament
    case _ => None
  }

  /** `response?.fantasyQueries?.league || null`. */
  function LeagueOf(response: Option<Response>): (r: Option<League>)
    ensures r.Some? <==>
      response.Some? && response.value.fantasyQueries.Some?
      && response.value.fantasyQueries.value.league.Some?
    ensures r.Some? ==> r == response.value.fantasyQueries.value.league
  {
    match response
    case Some(Response(Some(queries))) => queries.league
    case _ => None
  }

  /** Every level of `response?.fantasyQueries?.rating?.squads?.list` is present. */
  predicate HasSquadList(response: Option<Response>) {
    && response.Some? && response.value.fantasyQueries.Some?
    && response.value.fantasyQueries.value.rating.Some?
    && response.value.fantasyQueries.value.rating.value.squads.Some?
    && response.value.fantasyQueries.value.rating.value.squads.value.list.Some?
  }

  /** `response?.fantasyQueries?.rating?.squads?.list || []`. */
  function SquadsOf(response: Option<Response>): (r: seq<SquadEntry>)
    ensures HasSquadList(response) ==>
      r == response.value.fantasyQueries.value.rating.value.squads.value.list.value
    ensures !HasSquadList(response) ==> r == []
  {
    match response
    case Some(Response(Some(FantasyQueries(_, _, Some(Rating(Some(SquadsPage(Some(list))))))))) => list
    case _ => []
  }

  /** The tournament with web name `webname`, or None when the request fails or the envelope lacks it. */
  function GetTournament(repo: SportsRepository, webname: string): (r: Option<Tournament>)
    ensures var out := repo.transport(repo.endpoint, TournamentQuery, TournamentVariables(webname));
      && (out.Failure? ==> r.None?)
      && (out.Success? ==> r == TournamentOf(Some(out.value)))
  {
    TournamentOf(repo.QueryResult(TournamentQuery, TournamentVariables(webname)))
  }

  /** The league with id `id`, or None when the request fails or the envelope lacks it. */
  function GetLeague(repo: SportsRepository, id: string): (r: Option<League>)
    ensures var out := repo.transport(repo.endpoint, LeagueQuery, LeagueVariables(id));
      && (out.Failure? ==> r.None?)
      && (out.Success? ==> r == LeagueOf(Some(out.value)))
  {
    LeagueOf(repo.QueryResult(LeagueQuery, LeagueVariables(id)))
  }

  /** The ranked squads of a league for one rating entity, or [] when the request fails or the envelope lacks them. */
  function GetLeagueSquads(repo: SportsRepository, leagueId: string, entityType: RatingEntityType, entityId: string)
    : (r: seq<SquadEntry>)
    ensures var out := repo.transport(repo.endpoint, LeagueSquadsQuery,
                                      LeagueSquadsVariables(leagueId, entityType, entityId));
      && (out.Failure? ==> r == [])
      && (out.Success? ==> r == SquadsOf(Some(out.value)))
  {
    SquadsOf(repo.QueryResult(LeagueSquadsQuery, LeagueSquadsVariables(leagueId, entityType, entityId)))
  }

  /** The log entries of reading the tournament with web name `webname`. */
  function TournamentReadLog(repo: SportsRepository, webname: string): seq<LogEntry> {
    QueryLog(repo.transport(repo.endpoint, TournamentQuery, TournamentVariables(webname)).Failure?)
  }

  /** The log entries of reading the league with id `id`. */
  function LeagueReadLog(repo: SportsRepository, id: string): seq<LogEntry> {
    QueryLog(repo.transport(repo.endpoint, LeagueQuery, LeagueVariables(id)).Failure?)
  }

  /** `getTournament`: one query, then the tournament unwrapped from the response. */
  method FetchTournament(repo: SportsRepository, webname: string, logger: Logger) returns (t: Option<Tournament>)
    modifies logger
    ensures t == GetTournament(repo, webname)
    ensures logger.entries == old(logger.entries) + TournamentReadLog(repo, webname)
  {
    var response := repo.ExecuteQuery(TournamentQuery, TournamentVariables(webname), logger);
    t := TournamentOf(response);
  }

  /** `getLeague`: one query, then the league unwrapped from the response. */
  method FetchLeague(repo: SportsRepository, id: string, logger: Logger) returns (league: Option<League>)
    modifies logger
    ensures league == GetLeague(repo, id)
    ensures logger.entries == old(logger.entries) + LeagueReadLog(repo, id)
  {
    var response := repo.ExecuteQuery(LeagueQuery, LeagueVariables(id), logger);
    league := LeagueOf(response);
  }

  /** `getLeagueSquads`: one query, then the squad list unwrapped from the response. */
  method FetchLeagueSquads(repo: SportsRepository, leagueId: string, entityType: RatingEntityType, entityId: string,
                           logger: Logger) returns (squads: seq<SquadEntry>)
    modifies logger
    ensures squads == GetLeagueSquads(repo, leagueId, entityType, entityId)
    ensures logger.entries == old(logger.entries)
      + QueryLog(repo.transport(repo.endpoint, LeagueSquadsQuery,
                                LeagueSquadsVariables(leagueId, entityType, entityId)).Failure?)
  {
    var response := repo.ExecuteQuery(LeagueSquadsQuery, LeagueSquadsVariables(leagueId, entityType, entityId), logger);
    squads := SquadsOf(response);
  }
}
