/**
 * `rplReadMiddleware` (src/middlewares/rpl.middleware.ts): read the RPL
 * tournament and go on only when its current season is active.
 */
module RplMiddleware {
  import opened Wrappers
  import opened Logging
  import opened Domain
  import opened BotContext
  import opened FantasyRepository
  import opened FantasyService

  const RplNotFoundMessage := "RPL not found"

  /** Whether the tournament read lets the chain go on. */
  predicate AcceptsRpl(rpl: Option<Tournament>) {
    rpl.Some? && HasTournamentActiveSeason(rpl.value)
  }

  method RplReadMiddleware(ctx: Context, service: FantasyService, logger: Logger, downstream: Outcome)
    returns (o: Outcome)
    modifies ctx`rpl, ctx`nextLog, service`tournamentReads, logger
    ensures service.tournamentReads == old(service.tournamentReads) + 1
    ensures var rpl := GetTournament(service.repo, service.rplWebname);
      AcceptsRpl(rpl) ==>
        && ctx.rpl == rpl && ctx.nextLog == old(ctx.nextLog) + [ctx.Snap()]
        && o == downstream
        && logger.entries == old(logger.entries) + TournamentReadLog(service.repo, service.rplWebname)
    ensures var rpl := GetTournament(service.repo, service.rplWebname);
      !AcceptsRpl(rpl) ==>
        && ctx.rpl == old(ctx.rpl) && ctx.nextLog == old(ctx.nextLog)
        && o == Completed
        && logger.entries == old(logger.entries) + TournamentReadLog(service.repo, service.rplWebname)
             + [LogEntry(Info, RplNotFoundMessage)]
  {
    var rpl := service.ReadRplTournament(logger);
    if rpl.Some? && HasTournamentActiveSeason(rpl.value) {
      ctx.rpl := rpl;
      o := ctx.CallNext(downstream);
    } else {
      logger.Log(Info, RplNotFoundMessage);
      o := Completed;
    }
  }
}
