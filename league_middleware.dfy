/**
 * `leagueReadMiddleware` (src/middlewares/league.middleware.ts): find the
 * league id from the command argument or the session, read the league, and
 * go on only with a league of the active RPL season, remembering its id in
 * the session.
 */
module LeagueMiddleware {
  import opened Wrappers
  import opened Logging
  import opened Domain
  import opened BotContext
  import opened FantasyRepository
  import opened FantasyService
  import SessionMiddleware

  const LeagueNotFoundMessage := "League not found"

  /**
   * `leagueId`: a non-empty string match, otherwise the session's league id;
   * reading it from an absent session throws.
   */
  function ResolveLeagueId(m: Match, session: Option<SessionData>): (r: Result<Option<string>, Error>)
    ensures m.TextMatch? && m.text != "" ==> r == Success(Some(m.text))
    ensures !(m.TextMatch? && m.text != "") ==>
      && (r.Failure? <==> session.None?)
      && (r.Failure? ==> r.error == SessionMissing)
      && (r.Success? ==> r.value == session.value.leagueId)
  {
    if m.TextMatch? && m.text != "" then Success(Some(m.text))
    else if session.None? then Failure(SessionMissing)
    else Success(session.value.leagueId)
  }

  /** The id to read, when the resolved id is truthy (present and non-empty). */
  function IdToRead(resolved: Result<Option<string>, Error>): (r: Option<string>)
    ensures r.Some? <==> resolved.Success? && resolved.value.Some? && resolved.value.value != ""
    ensures r.Some? ==> r == resolved.value
  {
    if resolved.Success? && resolved.value.Some? && resolved.value.value != "" then resolved.value else None
  }

  /** After session initialisation the id is always resolved without throwing. */
  lemma InitialisedSessionResolves(m: Match, session: Option<SessionData>)
    ensures ResolveLeagueId(m, Some(SessionMiddleware.EnsureSession(session))).Success?
    ensures session.None? && !(m.TextMatch? && m.text != "") ==>
      IdToRead(ResolveLeagueId(m, Some(SessionMiddleware.EnsureSession(session)))).None?
  {
  }

  /** The repository's log entries of the read, when there is one. */
  function ReadLog(service: FantasyService, id: Option<string>): seq<LogEntry>
    reads service
  {
    if id.Some? then LeagueReadLog(service.repo, id.value) else []
  }

  /** Whether the league read lets the chain go on; the league type plays no part. */
  predicate AcceptsLeague(league: Option<League>, rplWebname: string) {
    league.Some? && IsLeagueFromActiveRplSeason(league.value, rplWebname)
  }

  method LeagueReadMiddleware(ctx: Context, service: FantasyService, logger: Logger, downstream: Outcome)
    returns (o: Outcome)
    modifies ctx`league, ctx`session, ctx`nextLog, service`leagueReads, logger
    // reading the session's id from an absent session throws before anything happens
    ensures ResolveLeagueId(ctx.matched, old(ctx.session)).Failure? ==>
      && o == Threw(SessionMissing)
      && ctx.league == old(ctx.league) && ctx.session == old(ctx.session) && ctx.nextLog == old(ctx.nextLog)
      && service.leagueReads == old(service.leagueReads) && logger.entries == old(logger.entries)
    // a league is read exactly when the resolved id is truthy
    ensures var id := IdToRead(ResolveLeagueId(ctx.matched, old(ctx.session)));
      service.leagueReads == old(service.leagueReads) + (if id.Some? then [id.value] else [])
    // an accepted league is stored and its id remembered before next runs
    ensures var resolved := ResolveLeagueId(ctx.matched, old(ctx.session));
      var id := IdToRead(resolved);
      var league := if id.Some? then GetLeague(service.repo, id.value) else None;
      AcceptsLeague(league, service.rplWebname) && old(ctx.session).Some? ==>
        && ctx.league == league
        && ctx.session == Some(old(ctx.session).value.(leagueId := Some(league.value.id)))
        && ctx.nextLog == old(ctx.nextLog) + [ctx.Snap()]
        && o == downstream && logger.entries == old(logger.entries) + ReadLog(service, id)
    // with a matched id but no session, the league is stored and the session write throws
    ensures var resolved := ResolveLeagueId(ctx.matched, old(ctx.session));
      var id := IdToRead(resolved);
      var league := if id.Some? then GetLeague(service.repo, id.value) else None;
      AcceptsLeague(league, service.rplWebname) && old(ctx.session).None? ==>
        && ctx.league == league && ctx.session.None? && ctx.nextLog == old(ctx.nextLog)
        && o == Threw(SessionMissing) && logger.entries == old(logger.entries) + ReadLog(service, id)
    // otherwise nothing is written, next is not called and "League not found" is logged
    ensures var resolved := ResolveLeagueId(ctx.matched, old(ctx.session));
      var id := IdToRead(resolved);
      var league := if id.Some? then GetLeague(service.repo, id.value) else None;
      resolved.Success? && !AcceptsLeague(league, service.rplWebname) ==>
        && ctx.league == old(ctx.league) && ctx.session == old(ctx.session) && ctx.nextLog == old(ctx.nextLog)
        && o == Completed
        && logger.entries == old(logger.entries) + ReadLog(service, id) + [LogEntry(Info, LeagueNotFoundMessage)]
  {
    var leagueId: Option<string>;
    if ctx.matched.TextMatch? && ctx.matched.text != "" {
      leagueId := Some(ctx.matched.text);
    } else {
      if ctx.session.None? {
        return Threw(SessionMissing);
      }
      leagueId := ctx.session.value.leagueId;
    }

    var league: Option<League> := None;
    if leagueId.Some? && leagueId.value != "" {
      league := service.ReadLeague(leagueId.value, logger);
    }

    if league.Some? && IsLeagueFromActiveRplSeason(league.value, service.rplWebname) {
      ctx.league := league;
      if ctx.session.None? {
        return Threw(SessionMissing);
      }
      ctx.session := Some(ctx.session.value.(leagueId := Some(ctx.league.value.id)));
      o := ctx.CallNext(downstream);
    } else {
      logger.Log(Info, LeagueNotFoundMessage);
      o := Completed;
    }
  }
}
