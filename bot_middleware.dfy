/**
 * The earlier bundle of the three bot-wide middlewares
 * (src/middlewares/bot.middleware.ts), each specified by the model of its
 * separate-file counterpart.
 */
module BotMiddleware {
  import opened Wrappers
  import opened Logging
  import opened BotContext
  import Updates = LoggingMiddleware
  import ChatMiddleware
  import SessionMiddleware

  method LoggingMiddleware(ctx: Context, logger: Logger, downstream: Outcome) returns (o: Outcome)
    modifies ctx`nextLog, logger
    ensures o == downstream
    ensures ctx.nextLog == old(ctx.nextLog) + [ctx.Snap()]
    ensures logger.entries == old(logger.entries)
      + [ Updates.StartEntry(Updates.UpdateType(ctx.update), ctx.fromId)
        , Updates.EndEntry(Updates.UpdateType(ctx.update), downstream) ]
  {
    var updateType := "other";
    if ctx.update.hasMessage {
      updateType := "message";
    } else if ctx.update.hasCallbackQuery {
      updateType := "callback_query";
    } else if ctx.update.hasInlineQuery {
      updateType := "inline_query";
    }
    logger.Log(Debug, "Processing " + updateType + " from user " + Updates.UserIdText(ctx.fromId));
    o := ctx.CallNext(downstream);
    if o.Completed? {
      logger.Log(Debug, updateType + " processed");
    } else {
      logger.Log(ErrorLevel, "Error processing " + updateType);
    }
  }

  method ChatFilterMiddleware(ctx: Context, logger: Logger, downstream: Outcome) returns (o: Outcome)
    modifies ctx`nextLog, logger
    ensures ChatMiddleware.PassesChatFilter(ctx.chat) ==>
      ctx.nextLog == old(ctx.nextLog) + [ctx.Snap()] && o == downstream && logger.entries == old(logger.entries)
    ensures !ChatMiddleware.PassesChatFilter(ctx.chat) ==>
      && ctx.nextLog == old(ctx.nextLog) && o == Completed
      && logger.entries == old(logger.entries)
         + [LogEntry(Info, ChatMiddleware.IgnoringPrefix + ChatMiddleware.ChatTypeText(ctx.chat))]
  {
    if ctx.chat.Some? && ctx.chat.value.chatType == "private" {
      o := ctx.CallNext(downstream);
    } else {
      var chatType := if ctx.chat.Some? then ctx.chat.value.chatType else "undefined";
      logger.Log(Info, "Ignoring message from non-private chat: " + chatType);
      o := Completed;
    }
  }

  method SessionInitMiddleware(ctx: Context, downstream: Outcome) returns (o: Outcome)
    modifies ctx`session, ctx`nextLog
    ensures ctx.session == Some(SessionMiddleware.EnsureSession(old(ctx.session)))
    ensures ctx.nextLog == old(ctx.nextLog) + [ctx.Snap()]
    ensures o == downstream
  {
    if ctx.session.None? {
      ctx.session := Some(SessionData(None));
    }
    o := ctx.CallNext(downstream);
  }
}
