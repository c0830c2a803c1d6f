# UranaBot core, modelled in Dafny

UranaBot is a Telegram bot for the Sports.ru fantasy football game of the
Russian Premier League (RPL). This project models the part of the bot that
makes decisions and builds text:

- **Configuration.** `validateConfig` turns the process environment into a
  configuration or fails with its first error. There are two versions, the
  current one (`utils/config.ts`) and the older one with `parseInt` on `PORT`
  (`config.ts`).
- **Repositories.** The base repository extracts the GraphQL operation name
  and runs queries, logging each request and its response or failure. A
  failed request becomes `null`. The fantasy queries unwrap
  `fantasyQueries.…` from the response, with `null` or `[]` as defaults. The
  transport is an opaque function the repository is given.
- **Formatters.**
  - The league and info texts, with the monospaced squad table (place padded
    to 3 characters, name padded or cut to 23, score padded to 4).
  - The older tournament text, with its case-insensitive tour-status table.
  - The UranaWeb mini-app buttons.
- **Services.**
  - The tournament status summary and the null/return decisions of
    `getCurrentTournamentInfo`.
  - The fantasy-service predicates that gate the middlewares.
- **Middlewares.** These run per update over a mutable request context:
  logging, the private-chat filter (declared three times), session
  initialisation, and reading the RPL tournament and the league.

Each source file is one module. `Wrappers` (Option and Result), `Text` (the
JavaScript string operations used: `padStart`, `padEnd`, number `toString`,
`join`, `split`) and `Domain` (the GraphQL entities) are shared.
`BotContext` holds the request context as a class, and `Logging` the logger:

- `session`, `rpl` and `league` are fields the middlewares assign.
- The logger is a class whose entries are appended; the repositories write
  to it too, so a middleware's log contract includes the request entries of
  the reads it makes.
- `await next()` is `Context.CallNext`. It records a snapshot of the context
  as the rest of the chain sees it and returns the outcome the rest of the
  chain ends with (completion, or a thrown error).

A middleware's contract therefore says:

- whether `next` ran, by how many snapshots were added;
- what the context held when `next` ran;
- what it logged;
- which error escaped.

The `modifies` frame of each middleware lists exactly the fields it may
write.

Notable behaviours of the code that the model keeps:

- With no current season, `getTournamentStatus` reports `hasActiveTour` as
  true. The optional chain yields `undefined`, and `undefined !== null`.
- `leagueReadMiddleware` gates only on "the league's season is active and
  belongs to the configured RPL tournament". Its unit tests import it under
  the name `userLeagueReadMiddleware`
  (`tests/unit/middlewares/league.middleware.test.ts:3`), but the league
  type is never checked (`FantasyService.UserLeagueIsIndependent`).
- `leagueReadMiddleware` reads `ctx.session.leagueId` without a guard. With
  no session this throws a TypeError (`SessionMissing`). When the league id
  came from the command argument, it throws only after `ctx.league` has been
  written.
- The session it stores is updated with the id of the league that was read,
  which need not be the id that was asked for.

The middlewares call `readRplTournament`, `readLeague`,
`hasTournamentActiveSeason` and `isLeagueFromActiveRplSeason` on the fantasy
service. `src/services/fantasy.service.ts` as it stands does not contain
them. The reads are modelled as calls of the fantasy repository with the
configured RPL webname. The predicates are defined as the service's unit
tests assert them.

## Model

| member | source | states |
|---|---|---|
| Text.PadStart | src/formatters/fantasy.formatter.ts:54 | `padStart`: the result has length max(width, \|s\|), ends with `s` and has only spaces before it |
| Text.PadEnd | src/formatters/fantasy.formatter.ts:58 | `padEnd`: the result has length max(width, \|s\|), starts with `s` and has only spaces after it |
| Text.NatToString | src/formatters/fantasy.formatter.ts:54 | `place.toString()`: at least one digit, only digits, no leading zero except for 0 itself |
| Text.NatToStringRoundTrip | src/formatters/fantasy.formatter.ts:54 | reading the decimal text of n back gives n |
| Text.IntToString | src/formatters/fantasy.formatter.ts:59 | `score.toString()`: a minus sign exactly for negative scores, followed by the digits of the magnitude |
| Text.SplitJoin | src/formatters/fantasy.formatter.ts:63 | splitting a `join('\n')` of newline-free lines at newlines gives the lines back |
| Text.CountJoin | src/formatters/fantasy.formatter.ts:63 | joining n newline-free lines puts exactly n-1 newlines in the text |
| FantasyFormatter.FormatRplToInfoCommand | src/formatters/fantasy.formatter.ts:13-17 | the info text: flag and title, a newline, calendar icon and season name (its two lines are stated by `InfoCommandLines`) |
| FantasyFormatter.InfoCommandLines | src/formatters/fantasy.formatter.ts:13-17 | the info text is exactly two lines: the flag and title, then the calendar icon and the season name, or "undefined" without a season |
| FantasyFormatter.FinishedToursCount | src/formatters/fantasy.formatter.ts:29-31 | the count of FINISHED tours is at most the number of tours; it is the total iff every tour is finished and 0 iff none is |
| FantasyFormatter.LeagueHeader | src/formatters/fantasy.formatter.ts:33-38 | the `/league` header, built from its three lines (stated by `LeagueHeaderIsJoin` and `HeaderLinesHaveNoNewline`) |
| FantasyFormatter.FormatLeagueToLeagueCommand | src/formatters/fantasy.formatter.ts:25-43 | the header, an empty line, then the squad list (its lines are stated by `LeagueCommandLines`) |
| FantasyFormatter.LeagueHeaderIsJoin | src/formatters/fantasy.formatter.ts:33-38 | the header is the name line, the squad-count line and the "finished/total tours" line joined by newlines |
| FantasyFormatter.HeaderLinesHaveNoNewline | src/formatters/fantasy.formatter.ts:33-38 | for a newline-free league name, none of the three header lines contains a newline |
| FantasyFormatter.LeagueCommandLines | src/formatters/fantasy.formatter.ts:42 | the league text splits into the three header lines, one empty line, then one line per squad row |
| FantasyFormatter.PlaceField | src/formatters/fantasy.formatter.ts:54 | the place column is at least 3 wide, ends with the place's digits and has only spaces before them |
| FantasyFormatter.NameField | src/formatters/fantasy.formatter.ts:55-58 | the name column is always 23 characters: longer names keep their first 20 characters plus "...", shorter ones are padded with spaces, a 23-character name is kept whole |
| FantasyFormatter.ScoreField | src/formatters/fantasy.formatter.ts:59 | the score column is at least 4 wide, ends with the score's text and has only spaces before it |
| FantasyFormatter.Row | src/formatters/fantasy.formatter.ts:61 | a row is wrapped in backticks and is as long as its three columns plus two separating spaces and two backticks |
| FantasyFormatter.RowColumns | src/formatters/fantasy.formatter.ts:61 | a row holds the place column, a space, the name column, a space and the score column, at fixed offsets |
| FantasyFormatter.RowWidth | src/formatters/fantasy.formatter.ts:54-61 | with places below 1000 and scores from -999 to 9999 every row is exactly 34 characters, so the columns line up |
| FantasyFormatter.PlaceFieldHasNoNewline | src/formatters/fantasy.formatter.ts:54 | the place column never contains a newline |
| FantasyFormatter.NameFieldHasNoNewline | src/formatters/fantasy.formatter.ts:55-58 | a newline-free name gives a newline-free name column |
| FantasyFormatter.ScoreFieldHasNoNewline | src/formatters/fantasy.formatter.ts:59 | the score column never contains a newline |
| FantasyFormatter.FieldOffsets | src/formatters/fantasy.formatter.ts:61 | three fields wrapped in backticks and separated by spaces sit at offsets 1, 2 + the first's length and 3 + the first two lengths |
| FantasyFormatter.RowHasNoNewline | src/formatters/fantasy.formatter.ts:53-62 | a squad with a newline-free name renders as one line |
| FantasyFormatter.RowsHaveNoNewline | src/formatters/fantasy.formatter.ts:52-62 | every row of squads with newline-free names is one line |
| FantasyFormatter.Rows | src/formatters/fantasy.formatter.ts:52-62 | one row per squad, in the order given |
| FantasyFormatter.FormatSquadsToList | src/formatters/fantasy.formatter.ts:51-64 | no squads give the empty text; a single squad gives its row alone |
| FantasyFormatter.SquadListLines | src/formatters/fantasy.formatter.ts:51-64 | the list splits at newlines into exactly the rows, in order, with one newline fewer than squads |
| FantasyFormatter.DigitsHaveNoNewline | src/formatters/fantasy.formatter.ts:54 | a number's decimal text has no newline |
| SportsRuFormatter.FormatTournamentInfo | src/formatters/sports-ru.formatter.ts:16-35 | the tournament text, 2, 3 or 6 lines by season and tour (stated by `InfoLines`, `InfoTextIsJoin` and `TournamentInfoLines`) |
| SportsRuFormatter.InfoLines | src/formatters/sports-ru.formatter.ts:16-35 | no season gives 2 lines ending in "no active season"; a season without a tour gives 3 lines ending in "no active tour"; otherwise 6 lines; the first is always the title line |
| SportsRuFormatter.InfoTextIsJoin | src/formatters/sports-ru.formatter.ts:16-35 | the tournament text is its lines joined by newlines |
| SportsRuFormatter.JoinSix | src/formatters/sports-ru.formatter.ts:29-34 | joining six lines interleaves exactly five separators |
| SportsRuFormatter.TournamentInfoLines | src/formatters/sports-ru.formatter.ts:16-35 | with newline-free fields, the text splits back into exactly those 2, 3 or 6 lines |
| SportsRuFormatter.LinesHaveNoNewline | src/formatters/sports-ru.formatter.ts:16-35 | with newline-free fields, no line of the text contains a newline |
| SportsRuFormatter.SeasonLineHasNoNewline | src/formatters/sports-ru.formatter.ts:30 | a season with newline-free name and year gives a one-line season line |
| SportsRuFormatter.TourLinesHaveNoNewline | src/formatters/sports-ru.formatter.ts:31-34 | newline-free tour fields and dates give four one-line tour lines |
| SportsRuFormatter.NoNewlineConcat | src/formatters/sports-ru.formatter.ts:29-34 | putting two newline-free texts together gives a newline-free text |
| SportsRuFormatter.LowerChar | src/formatters/sports-ru.formatter.ts:41 | Latin A-Z and Cyrillic А-Я move up by 32 to their lower-case letters, Ѐ-Џ up by 80 to ѐ-џ, every other character is kept; a Latin lower-case result comes only from a Latin letter |
| SportsRuFormatter.ToLower | src/formatters/sports-ru.formatter.ts:41 | `toLowerCase` keeps the length and lower-cases each character on its own |
| SportsRuFormatter.LowerCharIdempotent | src/formatters/sports-ru.formatter.ts:41 | lower-casing a lower-cased character changes nothing |
| SportsRuFormatter.ToLowerOfLowerCase | src/formatters/sports-ru.formatter.ts:41 | a text without upper-case Latin or Cyrillic letters is its own lower case |
| SportsRuFormatter.StatusKeysAreLowerCase | src/formatters/sports-ru.formatter.ts:42-49 | every key of the status table is lower case, so each key is reachable through `toLowerCase` |
| SportsRuFormatter.ToLowerIdempotent | src/formatters/sports-ru.formatter.ts:41 | lower-casing a lower-cased text changes nothing |
| SportsRuFormatter.FormatTourStatus | src/formatters/sports-ru.formatter.ts:40-54 | a status whose lower-cased form is one of the six English or Russian keys gets that key's label; any other gets the white circle followed by the status as given |
| SportsRuFormatter.TourStatusIgnoresCase | src/formatters/sports-ru.formatter.ts:41 | two known statuses differing only in case render the same |
| SportsRuFormatter.StatusHasNoNewline | src/formatters/sports-ru.formatter.ts:40-54 | a newline-free status renders as a newline-free label |
| SportsRuFormatter.FormatDate | src/formatters/sports-ru.formatter.ts:59-69 | a missing or empty date gives "not specified"; otherwise the locale rendering, or "invalid date" when that throws |
| SportsRuFormatter.FormatErrorMessage | src/formatters/sports-ru.formatter.ts:74-76 | the error text is the fixed prefix followed by the error, verbatim |
| AppConfig.OrDefault | src/utils/config.ts:50-53 | a set (non-empty) variable is used as given, otherwise the default |
| AppConfig.ValidateConfig | src/utils/config.ts:18-66 | succeeds iff all seven required variables are set; a missing BOT_TOKEN is reported first; on success every field is its variable's value, with "development" and "info" as defaults |
| AppConfig.FirstUnmet | src/utils/config.ts:18-48 | no unmet requirement iff all are met; otherwise the message of the earliest one that is not met, all before it being met |
| AppConfig.SatisfiedOne | src/utils/config.ts:20 | a one-variable requirement holds iff its variable is set |
| AppConfig.SatisfiedTwo | src/utils/config.ts:26 | a two-variable requirement holds iff both are set |
| AppConfig.ValidateReportsFirstUnmet | src/utils/config.ts:18-48 | validation fails exactly when a requirement is unmet, with the message of the first unmet one in the checking order |
| AppConfig.AnyEnvironmentPassesThrough | src/utils/config.ts:50-53 | NODE_ENV and LOG_LEVEL are taken as given, whatever their text; the type cast checks nothing |
| LegacyConfig.TrimStart | src/config.ts:20 | what `parseInt` reads is a suffix of the input that does not start with ECMAScript whitespace or a line terminator, and everything skipped before it is such whitespace |
| LegacyConfig.LeadingDigits | src/config.ts:20 | the longest digit prefix: all digits, and the next character is not one |
| LegacyConfig.DigitIsNotWhitespace | src/config.ts:20 | `parseInt` never skips a digit as whitespace |
| LegacyConfig.ParseInt | src/config.ts:20 | `parseInt(s, 10)`: skip whitespace, an optional sign, then the longest digit run, NaN without digits (stated by `ParseIntSigned` and the lemmas below) |
| LegacyConfig.ParseIntOfDigits | src/config.ts:20 | a digit string parses to its decimal value |
| LegacyConfig.AllDigitsAreLeading | src/config.ts:20 | an all-digit string is its own digit prefix |
| LegacyConfig.ParseIntRoundTrip | src/config.ts:20 | parsing the decimal text of n gives n |
| LegacyConfig.ParseIntStopsAtNonDigit | src/config.ts:20 | parsing stops at the first non-digit ("8080abc" is 8080) |
| LegacyConfig.LeadingDigitsOfConcat | src/config.ts:20 | digits followed by a non-digit have exactly those digits as prefix |
| LegacyConfig.TrimStartSkipsWhitespace | src/config.ts:20 | all leading ECMAScript whitespace is skipped, and nothing after it |
| LegacyConfig.ParseIntSkipsWhitespace | src/config.ts:20 | leading whitespace does not change the parsed value |
| LegacyConfig.ParseIntNegative | src/config.ts:20 | a minus sign before a number that starts with a digit negates it |
| LegacyConfig.ParseIntPositive | src/config.ts:20 | a plus sign before a number that starts with a digit changes nothing |
| LegacyConfig.ParseIntAfterSign | src/config.ts:20 | whitespace, a sign, digits and a non-digit parse to the value of the digits, negated for "-" |
| LegacyConfig.ParseIntSigned | src/config.ts:20 | whitespace, then "-" or "+", digits and a non-digit parse to the negated or plain value of the digits |
| LegacyConfig.ParseIntWithoutDigits | src/config.ts:20 | text with no digit after the whitespace and sign is NaN |
| LegacyConfig.ValidateConfig | src/config.ts:14-34 | fails iff BOT_TOKEN is unset; otherwise the port is `parseInt(PORT)` when PORT is set and 3000 otherwise, the API URL is the fixed Sports.ru endpoint, and the defaults are "development" and "info" |
| LegacyConfig.DigitPortIsUsed | src/config.ts:20 | with a token and a digit PORT, the configured port is that number |
| UranaWebFormatter.UranaWebFormatter.constructor | src/formatters/uranaweb.formatter.ts:12-14 | the base URL is the configured mini-app URL |
| UranaWebFormatter.UranaWebFormatter.CreateDebugButton | src/formatters/uranaweb.formatter.ts:19-21 | one web-app button labelled "Debug Mini App" opening the base URL |
| UranaWebFormatter.UranaWebFormatter.CreateLeagueButton | src/formatters/uranaweb.formatter.ts:27-32 | one button with the league label whose URL is base + "#league/" + league id, from which the league id is read back |
| UranaWebFormatter.LeagueIdOfUrl | src/formatters/uranaweb.formatter.ts:30 | a league id read from a URL is the one the URL was built from |
| UranaWebFormatter.LeagueUrlsDistinguishLeagues | src/formatters/uranaweb.formatter.ts:27-32 | two leagues get the same button URL only if they have the same id |
| SportsRepository.GetOperationName | src/repositories/sports.repository.ts:30-39 | only a document object yields a name, and only when its first definition is an operation definition with a name; that name is returned |
| SportsRepository.OnlyFirstDefinitionCounts | src/repositories/sports.repository.ts:33 | definitions after the first never affect the name |
| SportsRepository.SportsRepository.constructor | src/repositories/sports.repository.ts:13-23 | the endpoint is the API URL followed by the API path, with the two fixed headers |
| SportsRepository.QueryLog | src/repositories/sports.repository.ts:53-70 | a query logs two entries: the debug request entry, then a debug response entry or, exactly when it failed, an error entry |
| SportsRepository.SportsRepository.QueryResult | src/repositories/sports.repository.ts:59-71 | `null` exactly when the request fails, otherwise the response unchanged |
| SportsRepository.SportsRepository.ExecuteQuery | src/repositories/sports.repository.ts:47-73 | the query's result as above, and the log gains the request entry followed by the response or failure entry |
| FantasyRepository.TournamentOf | src/repositories/fantasy.repository.ts:41 | the tournament when response, `fantasyQueries` and tournament are all present, otherwise null |
| FantasyRepository.LeagueOf | src/repositories/fantasy.repository.ts:58 | the league when every step of the path is present, otherwise null |
| FantasyRepository.SquadsOf | src/repositories/fantasy.repository.ts:85 | the squad list when every step of the path is present, otherwise `[]` |
| FantasyRepository.GetTournament | src/repositories/fantasy.repository.ts:33-43 | the tournament query is sent with the webname as id; the result is the tournament of a successful response, null otherwise |
| FantasyRepository.GetLeague | src/repositories/fantasy.repository.ts:50-60 | the league query is sent with the id; the result is the league of a successful response, null otherwise |
| FantasyRepository.GetLeagueSquads | src/repositories/fantasy.repository.ts:69-87 | the squads query is sent with league id, rating entity type and entity id; the result is the squad list, `[]` when anything is missing |
| FantasyRepository.FetchTournament | src/repositories/fantasy.repository.ts:33-43 | the read returns the tournament of `GetTournament` and logs the request and its response or failure |
| FantasyRepository.FetchLeague | src/repositories/fantasy.repository.ts:50-60 | the read returns the league of `GetLeague` and logs the request and its response or failure |
| FantasyRepository.FetchLeagueSquads | src/repositories/fantasy.repository.ts:69-87 | the read returns the squads of `GetLeagueSquads` and logs the request and its response or failure |
| SportsRuService.IsTournamentActive | src/services/sports-ru.service.ts:54-59 | a current season that is active and has a current tour |
| SportsRuService.HasActiveTour | src/services/sports-ru.service.ts:70 | the current tour is not `null`; true without a season, since `undefined !== null` |
| SportsRuService.GetTournamentStatus | src/services/sports-ru.service.ts:54-82 | `isActive` is the activity check and implies `hasActiveTour`; no season counts as having an active tour; the status is "season_inactive", "no_active_tour", or the tour's status with "unknown" for an empty one |
| SportsRuService.ReadTournament | src/repositories/sports-ru.repository.ts:27-45 | the older repository's read: the response is returned iff the request succeeded and carries `fantasyQueries`; otherwise it throws; the log gains the request entry, then the response entry, or the error entry when it throws |
| SportsRuService.GetCurrentTournamentInfo | src/services/sports-ru.service.ts:17-49 | the tournament is returned iff the request succeeded and the tournament is present, even for an inactive season; the log has the start entry, the repository's two entries, then the failure entry, a "no tournament" warning, or an optional inactive-season warning and the success entry |
| FantasyService.ActiveTournamentHasActiveSeason | src/services/sports-ru.service.ts:54-58 | an active tournament has an active season; with an active season, it is active iff it has a current tour |
| FantasyService.HasTournamentActiveSeason | tests/unit/services/fantasy.service.test.ts:53-73 | a current season that is active; no season or an inactive one fails |
| FantasyService.IsLeagueFromActiveRplSeason | tests/unit/services/fantasy.service.test.ts:75-108 | the league's season is active and belongs to the configured RPL tournament |
| FantasyService.IsUserLeague | tests/unit/services/fantasy.service.test.ts:110-126 | the league type is `USER` |
| FantasyService.UserLeagueIsIndependent | tests/unit/services/fantasy.service.test.ts:110-126 | `USER` is a user league while `SYSTEM` and no type are not, and the league type never affects the RPL-season check |
| FantasyService.FantasyService.constructor | src/services/fantasy.service.ts:16-21 | the service reads through the given repository with the configured RPL webname |
| FantasyService.FantasyService.ReadRplTournament | src/services/fantasy.service.ts:16-21 | one read of the tournament by the configured RPL webname, logging the repository's two entries |
| FantasyService.FantasyService.ReadLeague | src/middlewares/league.middleware.ts:22 | one read of the league by the given id, logging the repository's two entries |
| BotContext.Context.CallNext | src/middlewares/session.middleware.ts:13 | `await next()`: the rest of the chain sees the context as it is now and its outcome is passed back |
| Logging.Logger.Log | src/middlewares/rpl.middleware.ts:18 | a log call appends one entry of the given level and text |
| SessionMiddleware.EnsureSession | src/middlewares/session.middleware.ts:10-12 | an existing session is kept as it is; an absent one becomes the empty session |
| SessionMiddleware.EnsureSessionIdempotent | src/middlewares/session.middleware.ts:10-12 | initialising twice gives the same session as once |
| SessionMiddleware.SessionInitMiddleware | src/middlewares/session.middleware.ts:6-14 | the session is initialised, then next runs exactly once and sees it; next's error passes through with the session already initialised; nothing else is written |
| ChatMiddleware.ChatTypeText | src/middlewares/chat.middleware.ts:15 | the chat type, or "undefined" without a chat |
| ChatMiddleware.PassesChatFilter | src/middlewares/chat.middleware.ts:12 | the chat is present and its type is "private" |
| ChatMiddleware.OnlyPrivateChatsPass | src/middlewares/chat.middleware.ts:12 | the filter passes exactly the private chat; group, supergroup, channel and a missing chat are stopped |
| ChatMiddleware.ChatFilterMiddleware | src/middlewares/chat.middleware.ts:8-17 | next runs once, and its outcome passes through, iff the chat is private; otherwise one "ignoring" entry naming the chat type is logged; the context is not written |
| FilterMiddleware.ChatFilterMiddleware | src/middlewares/filter.middleware.ts:8-17 | the same contract as the chat middleware's filter, stated with its predicate |
| LoggingMiddleware.UpdateType | src/middlewares/logging.middleware.ts:14-21 | the first of message, callback_query, inline_query the update carries, in that priority, or "other" when it carries none |
| LoggingMiddleware.FirstPresentOfThree | src/middlewares/logging.middleware.ts:14-21 | over three kinds, the first present one is found by looking at each in turn |
| LoggingMiddleware.ClassifyUpdate | src/middlewares/logging.middleware.ts:14-21 | the if/else chain picks the update type the priority list defines |
| LoggingMiddleware.UserIdText | src/middlewares/logging.middleware.ts:23 | the sender's id in decimal, or "undefined" without a sender |
| LoggingMiddleware.LoggingMiddleware | src/middlewares/logging.middleware.ts:8-34 | next runs exactly once; its outcome, including a thrown error, is passed on unchanged; exactly two entries are logged, the start and then the completion or error entry; the context is not written |
| BotMiddleware.LoggingMiddleware | src/middlewares/bot.middleware.ts:8-34 | the same contract as the logging middleware, in terms of its update type |
| BotMiddleware.ChatFilterMiddleware | src/middlewares/bot.middleware.ts:40-49 | the same contract as the chat middleware's filter |
| BotMiddleware.SessionInitMiddleware | src/middlewares/bot.middleware.ts:55-63 | the same contract as the session middleware, in terms of its initialisation |
| RplMiddleware.AcceptsRpl | src/middlewares/rpl.middleware.ts:14 | a tournament was read and its current season is active |
| RplMiddleware.RplReadMiddleware | src/middlewares/rpl.middleware.ts:9-20 | the tournament is read exactly once, logging the repository's two entries; if it exists with an active season, `ctx.rpl` is set to it and then next runs once and its outcome passes through; otherwise `ctx.rpl` is untouched, next does not run and "RPL not found" is logged after the read's entries |
| LeagueMiddleware.ResolveLeagueId | src/middlewares/league.middleware.ts:13-18 | a non-empty string match is the id; an empty or non-string match falls back to the session's id; with no session that read throws |
| LeagueMiddleware.IdToRead | src/middlewares/league.middleware.ts:21 | a league is read only for a present, non-empty id |
| LeagueMiddleware.InitialisedSessionResolves | src/middlewares/league.middleware.ts:17 | after session initialisation, resolving the id never throws, and a fresh session without a match gives nothing to read |
| LeagueMiddleware.AcceptsLeague | src/middlewares/league.middleware.ts:25 | a league was read and its season is active and belongs to the configured RPL tournament |
| LeagueMiddleware.LeagueReadMiddleware | src/middlewares/league.middleware.ts:9-32 | exactly the truthy resolved id is read, logging the repository's two entries; an active RPL-season league is stored in `ctx.league` and its own id in the session before next runs once; without a session the write throws after `ctx.league` is set; otherwise nothing is written, next does not run and "League not found" is logged |

## Left out

- GraphQL transport and HTTP (`graphql-request`, the base client classes): the request is an opaque function from endpoint, document and variables to a response or a failure.
- Bot wiring, command handlers, process signals and singleton instances (`new X()` exported at module level): they register handlers or forward to the modelled code.
- `src/utils/logger.ts`, timestamps and the metadata objects passed to the logger: a log entry is a level and a message text.
- LoggingMiddleware.LoggingMiddleware: the elapsed time (`Date.now()`) is left out of the completion and error messages, which end after the update type.
- BotMiddleware.LoggingMiddleware: the elapsed time is left out of its messages in the same way.
- SportsRuFormatter.FormatDate: `new Date(...).toLocaleDateString('ru-RU')` is date-library and locale behaviour; it is a parameter that returns the rendered text or reports that it threw.
- SportsRuFormatter.LowerChar: `toLowerCase` is modelled for Latin A-Z and Cyrillic Ѐ-Я only; the rest of Unicode case mapping is not.
- Scores are integers; fractional fantasy scores and their `toString` are not modelled.
- LegacyConfig.ParseIntOfDigits: `parseInt` is exact; the loss of precision beyond 2^53 is not modelled.
- `new Date`, `Date.now` and `process.env` are inputs: the environment is a map parameter.
- The context's other contents (`ctx.reply`, the update payloads) are out of scope, and `next` is opaque: what the rest of the chain does to the context is not modelled.
- The session object is a value here: writing `ctx.session.leagueId` replaces the session, so aliasing of the session object is not modelled.
- `readLeagueSquadsWithSeasonRating` and the squads read of the league command are not part of this model; the repository read they use is (`FantasyRepository.GetLeagueSquads`).
- Text encoding: the sources' emoji and Cyrillic literals are stored as mis-decoded bytes (for example `src/formatters/fantasy.formatter.ts:36` and `src/formatters/sports-ru.formatter.ts:89`); the model uses the intended Unicode texts, for the labels and for the Russian status keys of `src/formatters/sports-ru.formatter.ts:43-49` alike, so the exact bytes a user receives, and whether a Russian status matches its key, are modelled for the intended texts only.
- FantasyFormatter.NameField: JavaScript's `length`, `slice(0, 20)` and `padEnd` count UTF-16 code units, while a Dafny `char` is a Unicode scalar value; for names with characters outside the Basic Multilingual Plane (most emoji) the model cuts and pads by characters, not code units, so its column widths differ from the source's.
- `formatNoDataMessage` and `formatLoadingMessage` return fixed texts; they are modelled as functions with no contract, since there is nothing about them to state.
- Tests that name code absent from the sources (`userLeagueReadMiddleware`, `UranaWebFormatterFactory`, a "Дебаг Приложения" label) are not modelled; the model follows the sources.
- Code generation, GraphQL query documents beyond their operation names, and tooling scripts are not modelled.
