/**
 * `sessionInitMiddleware` (src/middlewares/session.middleware.ts): give the
 * update an empty session when it has none, then continue the chain.
 */
module SessionMiddleware {
  import opened Wrappers
  import opened BotContext

  /** The session after initialisation: the existing one, or `{}`. */
  function EnsureSession(session: Option<SessionData>): (r: SessionData)
    ensures session.Some? ==> r == session.value
    ensures session.None? ==> r == EmptySession && r.leagueId.None?
  {
    if session.Some? then session.value else EmptySession
  }

  /** Initialising an initialised session changes nothing. */
  lemma EnsureSessionIdempotent(session: Option<SessionData>)
    ensures EnsureSession(Some(EnsureSession(session))) == EnsureSession(session)
  {
  }

  method SessionInitMiddleware(ctx: Context, downstream: Outcome) returns (o: Outcome)
    modifies ctx`session, ctx`nextLog
    ensures ctx.session == Some(EnsureSession(old(ctx.session)))
    ensures ctx.nextLog == old(ctx.nextLog) + [ctx.Snap()]
    ensures o == downstream
  {
    if ctx.session.None? {
      ctx.session := Some(EmptySession);
    }
    o := ctx.CallNext(downstream);
  }
}
