/**
 * The base GraphQL repository (src/repositories/sports.repository.ts): the
 * endpoint it talks to, operation-name extraction for logging, and a query
 * call that turns every transport failure into `null`.
 */
module SportsRepository {
  import opened Wrappers
  import opened Logging
  import opened Domain
  import AppConfig

  /** One definition of a parsed GraphQL document. */
  datatype Definition = Definition(kind: string, name: Option<string>)

  /**
   * What `client.request` accepts: a query string, `null`/`undefined`, or an
   * object. `definitions` is `None` when the object has no such key or holds
   * `null`/`undefined` there; both read as `undefined`.
   */
  datatype RequestDocument =
    | QueryString(text: string)
    | NullDocument
    | DocumentObject(definitions: Option<seq<Definition>>)

  /** The variables of the three queries the bot sends. */
  datatype Variables =
    | NoVariables
    | TournamentVariables(id: string)
    | LeagueVariables(id: string)
    | LeagueSquadsVariables(leagueId: string, entityType: RatingEntityType, entityId: string)

  /**
   * The network as seen from the repository: the answer to a request posted
   * to an endpoint, or the error the GraphQL client rejects with.
   */
  type Transport = (string, RequestDocument, Variables) -> Result<Response, string>

  const OperationDefinitionKind := "OperationDefinition"

  /** The fixed request headers. */
  const Headers: seq<(string, string)> :=
    [("User-Agent", "Uranabot/1.0"), ("Content-Type", "application/json")]

  const RequestMessage := "Making GraphQL request to Sports.ru API"
  const ResponseMessage := "Sports.ru API response received"
  const FailureMessage := "Sports.ru API request failed"

  /**
   * What one query writes to the log: the request entry, then the response
   * entry, or an error entry when the request failed.
   */
  function QueryLog(failed: bool): (r: seq<LogEntry>)
    ensures |r| == 2 && r[0] == LogEntry(Debug, RequestMessage)
    ensures r[1].level == ErrorLevel <==> failed
    ensures r[1].level == Debug <==> !failed
  {
    [LogEntry(Debug, RequestMessage),
     if failed then LogEntry(ErrorLevel, FailureMessage) else LogEntry(Debug, ResponseMessage)]
  }

  /**
   * The operation name used in log entries: the name of the first definition
   * when the document is an object whose first definition is an operation.
   */
  function GetOperationName(query: RequestDocument): (r: Option<string>)
    ensures !query.DocumentObject? ==> r == None
    ensures r.Some? <==>
      && query.DocumentObject? && query.definitions.Some? && |query.definitions.value| > 0
      && query.definitions.value[0].kind == OperationDefinitionKind
      && query.definitions.value[0].name.Some?
    ensures r.Some? ==> r == query.definitions.value[0].name
  {
    match query
    case DocumentObject(Some(defs)) =>
      if |defs| > 0 && defs[0].kind == OperationDefinitionKind then defs[0].name else None
    case _ => None
  }

  /** Only the first definition is looked at: whatever follows it does not matter. */
  lemma OnlyFirstDefinitionCounts(d: Definition, rest: seq<Definition>)
    ensures GetOperationName(DocumentObject(Some([d] + rest))) == GetOperationName(DocumentObject(Some([d])))
  {
  }

  class SportsRepository {
    /** The GraphQL endpoint: API base URL followed by the API path. */
    const endpoint: string
    const headers: seq<(string, string)>
    const transport: Transport

    constructor (config: AppConfig.Config, transport: Transport)
      ensures endpoint == config.sportsApiUrl + config.sportsApiPath
      ensures headers == Headers && this.transport == transport
    {
      endpoint := config.sportsApiUrl + config.sportsApiPath;
      headers := Headers;
      this.transport := transport;
    }

    /**
     * What `executeQuery` resolves to: a transport failure becomes `null`
     * (None), a successful response is returned unchanged.
     */
    function QueryResult(query: RequestDocument, variables: Variables): (r: Option<Response>)
      ensures r.None? <==> transport(endpoint, query, variables).Failure?
      ensures r.Some? ==> r.value == transport(endpoint, query, variables).value
    {
      match transport(endpoint, query, variables)
      case Success(response) => Some(response)
      case Failure(_) => None
    }

    /** `executeQuery`: log the request, send it, log the response or the failure; never throws. */
    method ExecuteQuery(query: RequestDocument, variables: Variables, logger: Logger) returns (r: Option<Response>)
      modifies logger
      ensures r == QueryResult(query, variables)
      ensures logger.entries == old(logger.entries) + QueryLog(r.None?)
    {
      logger.Log(Debug, RequestMessage);
      var outcome := transport(endpoint, query, variables);
      if outcome.Success? {
        logger.Log(Debug, ResponseMessage);
        r := Some(outcome.value);
      } else {
        logger.Log(ErrorLevel, FailureMessage);
        r := None;
      }
    }
  }
}
