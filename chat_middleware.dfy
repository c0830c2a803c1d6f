/**
 * `chatFilterMiddleware` (src/middlewares/chat.middleware.ts): only updates
 * from private chats go on down the chain.
 */
module ChatMiddleware {
  import opened Wrappers
  import opened Logging
  import opened BotContext

  const PrivateChat := "private"
  const IgnoringPrefix := "Ignoring message from non-private chat: "

  /** `${ctx.chat?.type}`: the chat type, or "undefined" without a chat. */
  function ChatTypeText(chat: Option<Chat>): (r: string)
    ensures chat.Some? ==> r == chat.value.chatType
    ensures chat.None? ==> r == "undefined"
  {
    if chat.Some? then chat.value.chatType else "undefined"
  }

  /** `ctx.chat?.type === 'private'`. */
  predicate PassesChatFilter(chat: Option<Chat>) {
    chat.Some? && chat.value.chatType == PrivateChat
  }

  /** Group, supergroup and channel chats, and a missing chat, are all stopped. */
  lemma OnlyPrivateChatsPass(chat: Option<Chat>)
    ensures PassesChatFilter(chat) <==> chat == Some(Chat("private"))
    ensures !PassesChatFilter(Some(Chat("group"))) && !PassesChatFilter(Some(Chat("supergroup")))
    ensures !PassesChatFilter(Some(Chat("channel"))) && !PassesChatFilter(None)
  {
  }

  method ChatFilterMiddleware(ctx: Context, logger: Logger, downstream: Outcome) returns (o: Outcome)
    modifies ctx`nextLog, logger
    ensures PassesChatFilter(ctx.chat) ==>
      ctx.nextLog == old(ctx.nextLog) + [ctx.Snap()] && o == downstream && logger.entries == old(logger.entries)
    ensures !PassesChatFilter(ctx.chat) ==>
      && ctx.nextLog == old(ctx.nextLog) && o == Completed
      && logger.entries == old(logger.entries) + [LogEntry(Info, IgnoringPrefix + ChatTypeText(ctx.chat))]
  {
    if ctx.chat.Some? && ctx.chat.value.chatType == PrivateChat {
      o := ctx.CallNext(downstream);
    } else {
      logger.Log(Info, IgnoringPrefix + ChatTypeText(ctx.chat));
      o := Completed;
    }
  }
}
