/**
 * The fantasy service the middlewares call (`fantasyService`): reads the RPL
 * tournament and leagues through the fantasy repository, and the predicates
 * that decide whether what was read may be used.
 */
module FantasyService {
  import opened Wrappers
  import opened Logging
  import opened Domain
  import opened SportsRepository
  import opened FantasyRepository
  import SportsRuService

  /** The tournament has a current season and that season is active. */
  predicate HasTournamentActiveSeason(t: Tournament) {
    t.currentSeason.Some? && t.currentSeason.value.isActive
  }

  /** The league's season is active and belongs to the configured RPL tournament. */
  predicate IsLeagueFromActiveRplSeason(league: League, rplWebname: string) {
    league.season.isActive && league.season.tournament.webName == rplWebname
  }

  /** The league's type is `USER`; a `SYSTEM` or missing type is not. */
  predicate IsUserLeague(league: League) {
    league.leagueType == Some(User)
  }

  /**
   * An active tournament in the sense of the status summary always has an
   * active season; the converse needs a current tour.
   */
  lemma ActiveTournamentHasActiveSeason(t: Tournament)
    ensures SportsRuService.IsTournamentActive(t) ==> HasTournamentActiveSeason(t)
    ensures HasTournamentActiveSeason(t) ==>
      (SportsRuService.IsTournamentActive(t) <==> t.currentSeason.value.currentTour.Some?)
  {
  }

  /** Whether a league is a user league says nothing about the RPL check. */
  lemma UserLeagueIsIndependent(league: League, rplWebname: string)
    ensures IsLeagueFromActiveRplSeason(league.(leagueType := Some(User)), rplWebname)
      == IsLeagueFromActiveRplSeason(league.(leagueType := Some(System)), rplWebname)
    ensures IsUserLeague(league.(leagueType := Some(User)))
    ensures !IsUserLeague(league.(leagueType := Some(System))) && !IsUserLeague(league.(leagueType := None))
  {
  }

  class FantasyService {
    const repo: SportsRepository
    /** The configured RPL tournament webname. */
    const rplWebname: string
    /** How many times the RPL tournament was read. */
    ghost var tournamentReads: nat
    /** The league ids read, in order. */
    ghost var leagueReads: seq<string>

    constructor (repo: SportsRepository, rplWebname: string)
      ensures this.repo == repo && this.rplWebname == rplWebname
      ensures tournamentReads == 0 && leagueReads == []
    {
      this.repo := repo;
      this.rplWebname := rplWebname;
      tournamentReads := 0;
      leagueReads := [];
    }

    /** The tournament fetched by the configured webname, or null. */
    method ReadRplTournament(logger: Logger) returns (t: Option<Tournament>)
      modifies this`tournamentReads, logger
      ensures t == GetTournament(repo, rplWebname)
      ensures tournamentReads == old(tournamentReads) + 1
      ensures logger.entries == old(logger.entries) + TournamentReadLog(repo, rplWebname)
    {
      tournamentReads := tournamentReads + 1;
      t := FetchTournament(repo, rplWebname, logger);
    }

    /** The league fetched by id, or null. */
    method ReadLeague(id: string, logger: Logger) returns (league: Option<League>)
      modifies this`leagueReads, logger
      ensures league == GetLeague(repo, id)
      ensures leagueReads == old(leagueReads) + [id]
      ensures logger.entries == old(logger.entries) + LeagueReadLog(repo, id)
    {
      leagueReads := leagueReads + [id];
      league := FetchLeague(repo, id, logger);
    }
  }
}
