/**
 * `loggingMiddleware` (src/middlewares/logging.middleware.ts): classify the
 * update, log its start, run the rest of the chain, log how it ended and
 * pass a thrown error on unchanged.
 */
module LoggingMiddleware {
  import opened Wrappers
  import opened Logging
  import Text
  import opened BotContext

  const Other := "other"

  /** The update kinds the classifier knows, most important first, with whether `u` carries each. */
  function KindsByPriority(u: Update): seq<(string, bool)> {
    [("message", u.hasMessage), ("callback_query", u.hasCallbackQuery), ("inline_query", u.hasInlineQuery)]
  }

  /** The first kind in `kinds` the update carries, or "other". */
  function FirstPresent(kinds: seq<(string, bool)>): string {
    if |kinds| == 0 then Other
    else if kinds[0].1 then kinds[0].0
    else FirstPresent(kinds[1..])
  }

  /** Over three kinds, the first present one is found by looking at each in turn. */
  lemma {:induction false} FirstPresentOfThree(a: (string, bool), b: (string, bool), c: (string, bool))
    ensures FirstPresent([a, b, c]) == if a.1 then a.0 else if b.1 then b.0 else if c.1 then c.0 else Other
  {
    assert [a, b, c][1..] == [b, c];
    assert FirstPresent([a, b, c]) == if a.1 then a.0 else FirstPresent([b, c]);
    assert [b, c][1..] == [c];
    assert FirstPresent([b, c]) == if b.1 then b.0 else FirstPresent([c]);
    assert [c][1..] == [];
    assert FirstPresent([c]) == if c.1 then c.0 else FirstPresent([]);
  }

  /** The update type: the most important kind the update carries. */
  function UpdateType(u: Update): (r: string)
    ensures r in {"message", "callback_query", "inline_query", "other"}
    ensures r == "other" <==> !u.hasMessage && !u.hasCallbackQuery && !u.hasInlineQuery
    ensures u.hasMessage ==> r == "message"
    ensures !u.hasMessage && u.hasCallbackQuery ==> r == "callback_query"
    ensures !u.hasMessage && !u.hasCallbackQuery && u.hasInlineQuery ==> r == "inline_query"
  {
    FirstPresentOfThree(("message", u.hasMessage), ("callback_query", u.hasCallbackQuery), ("inline_query", u.hasInlineQuery));
    FirstPresent(KindsByPriority(u))
  }

  /** `${ctx.from?.id}`: the user id in decimal, or "undefined" without a sender. */
  function UserIdText(fromId: Option<int>): (r: string)
    ensures fromId.Some? ==> r == Text.IntToString(fromId.value)
    ensures fromId.None? ==> r == "undefined"
  {
    if fromId.Some? then Text.IntToString(fromId.value) else "undefined"
  }

  function StartEntry(updateType: string, fromId: Option<int>): LogEntry {
    LogEntry(Debug, "Processing " + updateType + " from user " + UserIdText(fromId))
  }

  /** The entry written when the chain completed or threw (the elapsed time is left out). */
  function EndEntry(updateType: string, outcome: Outcome): LogEntry {
    if outcome.Completed? then LogEntry(Debug, updateType + " processed")
    else LogEntry(ErrorLevel, "Error processing " + updateType)
  }

  /** The `let updateType` if/else chain, proved to pick the most important kind. */
  method ClassifyUpdate(u: Update) returns (updateType: string)
    ensures updateType == UpdateType(u)
  {
    updateType := Other;
    if u.hasMessage {
      updateType := "message";
    } else if u.hasCallbackQuery {
      updateType := "callback_query";
    } else if u.hasInlineQuery {
      updateType := "inline_query";
    }
  }

  method LoggingMiddleware(ctx: Context, logger: Logger, downstream: Outcome) returns (o: Outcome)
    modifies ctx`nextLog, logger
    ensures o == downstream
    ensures ctx.nextLog == old(ctx.nextLog) + [ctx.Snap()]
    ensures logger.entries == old(logger.entries)
      + [StartEntry(UpdateType(ctx.update), ctx.fromId), EndEntry(UpdateType(ctx.update), downstream)]
  {
    var updateType := ClassifyUpdate(ctx.update);
    logger.Log(Debug, "Processing " + updateType + " from user " + UserIdText(ctx.fromId));
    o := ctx.CallNext(downstream);
    if o.Completed? {
      logger.Log(Debug, updateType + " processed");
    } else {
      logger.Log(ErrorLevel, "Error processing " + updateType);
    }
  }
}
