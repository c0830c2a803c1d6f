/**
 * The entities the bot reads from the Sports.ru fantasy GraphQL API and the
 * response envelope (`{ fantasyQueries: { tournament | league | rating } }`)
 * they arrive in. Every field the API may return as `null` is an Option.
 */
module Domain {
  import opened Wrappers

  /** The statistics object of a season: its display name and year. */
  datatype StatObject = StatObject(name: string, year: string)

  /** A tour of a tournament season; `status` is the API's status string. */
  datatype Tour = Tour(
    id: string,
    name: string,
    status: string,
    startedAt: Option<string>,
    finishedAt: Option<string>)

  datatype Season = Season(
    id: string,
    isActive: bool,
    totalSquadsCount: nat,
    statObject: StatObject,
    currentTour: Option<Tour>)

  datatype Tournament = Tournament(
    id: string,
    metaTitle: string,
    description: string,
    currentSeason: Option<Season>)

  /** The league type enum of the API; `null` is `None` where it is used. */
  datatype LeagueType = User | System

  datatype LeagueTour = LeagueTour(id: string, status: string)

  datatype LeagueTournament = LeagueTournament(id: string, webName: string)

  datatype LeagueSeason = LeagueSeason(
    id: string,
    isActive: bool,
    tournament: LeagueTournament,
    tours: seq<LeagueTour>)

  datatype League = League(
    id: string,
    name: string,
    leagueType: Option<LeagueType>,
    totalSquadsCount: nat,
    season: LeagueSeason)

  datatype Squad = Squad(id: string, name: string)

  /** A squad's rank and points for one rating entity (season or tour). */
  datatype ScoreInfo = ScoreInfo(place: nat, score: int)

  datatype SquadEntry = SquadEntry(squad: Squad, scoreInfo: ScoreInfo)

  /** The granularity at which a rating is computed. */
  datatype RatingEntityType = SeasonRating | TourRating

  /** `rating.squads`, which holds the page of ranked squads. */
  datatype SquadsPage = SquadsPage(list: Option<seq<SquadEntry>>)

  datatype Rating = Rating(squads: Option<SquadsPage>)

  datatype FantasyQueries = FantasyQueries(
    tournament: Option<Tournament>,
    league: Option<League>,
    rating: Option<Rating>)

  /** The body of a GraphQL response. */
  datatype Response = Response(fantasyQueries: Option<FantasyQueries>)
}
