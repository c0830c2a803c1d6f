/**
 * `chatFilterMiddleware` as src/middlewares/filter.middleware.ts declares it
 * a second time; it is specified by the filter of the chat middleware.
 */
module FilterMiddleware {
  import opened Wrappers
  import opened Logging
  import opened BotContext
  import ChatMiddleware

  method ChatFilterMiddleware(ctx: Context, logger: Logger, downstream: Outcome) returns (o: Outcome)
    modifies ctx`nextLog, logger
    ensures ChatMiddleware.PassesChatFilter(ctx.chat) ==>
      ctx.nextLog == old(ctx.nextLog) + [ctx.Snap()] && o == downstream && logger.entries == old(logger.entries)
    ensures !ChatMiddleware.PassesChatFilter(ctx.chat) ==>
      && ctx.nextLog == old(ctx.nextLog) && o == Completed
      && logger.entries == old(logger.entries)
         + [LogEntry(Info, ChatMiddleware.IgnoringPrefix + ChatMiddleware.ChatTypeText(ctx.chat))]
  {
    if ctx.chat.Some? && ctx.chat.value.chatType == "private" {
      o := ctx.CallNext(downstream);
    } else {
      var chatType := if ctx.chat.Some? then ctx.chat.value.chatType else "undefined";
      logger.Log(Info, "Ignoring message from non-private chat: " + chatType);
      o := Completed;
    }
  }
}
