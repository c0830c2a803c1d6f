/**
 * The application logger (src/utils/logger.ts) as the rest of the model sees
 * it: an append-only list of entries, each a level and a message text.
 */
module Logging {
  datatype Level = Debug | Info | Warn | ErrorLevel

  datatype LogEntry = LogEntry(level: Level, message: string)

  class Logger {
    var entries: seq<LogEntry>

    constructor ()
      ensures entries == []
    {
      entries := [];
    }

    method Log(level: Level, message: string)
      modifies this
      ensures entries == old(entries) + [LogEntry(level, message)]
    {
      entries := entries + [LogEntry(level, message)];
    }
  }
}
