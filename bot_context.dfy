/**
 * The per-update request context the middlewares work on
 * (src/types/context.type.ts) and `next`.
 */
module BotContext {
  import opened Wrappers
  import opened Domain

  /** Per-chat session data: at most a remembered league id. */
  datatype SessionData = SessionData(leagueId: Option<string>)

  const EmptySession := SessionData(None)

  /** The chat an update comes from; `chatType` is "private", "group", "supergroup" or "channel". */
  datatype Chat = Chat(chatType: string)

  /** Which kinds of payload the incoming update carries. */
  datatype Update = Update(hasMessage: bool, hasCallbackQuery: bool, hasInlineQuery: bool)

  /** `ctx.match`: absent, the command's argument text, or a non-string (regex) match. */
  datatype Match = NoMatch | TextMatch(text: string) | RegexMatch

  /** What an `async` step ends with: normal completion or a thrown error. */
  datatype Error =
    | AppError(message: string)
      /** The TypeError of reading or writing `leagueId` on an undefined session. */
    | SessionMissing

  datatype Outcome = Completed | Threw(error: Error)

  /** The parts of the context a middleware may write, as `next` sees them. */
  datatype Snapshot = Snapshot(session: Option<SessionData>, rpl: Option<Tournament>, league: Option<League>)

  class Context {
    const update: Update
    /** `ctx.from?.id`. */
    const fromId: Option<int>
    const chat: Option<Chat>
    const matched: Match
    var session: Option<SessionData>
    var rpl: Option<Tournament>
    var league: Option<League>
    /** One snapshot per call of `next`, taken when it is called. */
    ghost var nextLog: seq<Snapshot>

    constructor (update: Update, fromId: Option<int>, chat: Option<Chat>, matched: Match, session: Option<SessionData>)
      ensures this.update == update && this.fromId == fromId && this.chat == chat && this.matched == matched
      ensures this.session == session && rpl.None? && league.None? && nextLog == []
    {
      this.update := update;
      this.fromId := fromId;
      this.chat := chat;
      this.matched := matched;
      this.session := session;
      rpl := None;
      league := None;
      nextLog := [];
    }

    function Snap(): Snapshot
      reads this
    {
      Snapshot(session, rpl, league)
    }

    /**
     * `await next()`: the rest of the chain runs, seeing the context as it is
     * now, and ends with `downstream`.
     */
    method CallNext(downstream: Outcome) returns (o: Outcome)
      modifies this`nextLog
      ensures nextLog == old(nextLog) + [Snap()]
      ensures o == downstream
    {
      nextLog := nextLog + [Snap()];
      o := downstream;
    }
  }
}
