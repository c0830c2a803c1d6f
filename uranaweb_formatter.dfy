/**
 * Inline keyboards that open the UranaWeb mini app
 * (src/formatters/uranaweb.formatter.ts).
 */
module UranaWebFormatter {
  import opened Wrappers
  import opened Domain
  import AppConfig

  /** A Telegram inline button that opens a web app at `url`. */
  datatype Button = WebAppButton(text: string, url: string)

  /** `inline_keyboard`: rows of buttons. */
  datatype InlineKeyboard = InlineKeyboard(rows: seq<seq<Button>>)

  const DebugLabel := "Debug Mini App"
  const LeagueLabel := "Посмотреть Лигу"
  const LeagueFragment := "#league/"

  /** A keyboard of one row holding one web-app button. */
  predicate IsSingleButton(k: InlineKeyboard) {
    |k.rows| == 1 && |k.rows[0]| == 1
  }

  class UranaWebFormatter {
    /** The mini app's address; fixed when the formatter is built. */
    const baseUrl: string

    constructor (config: AppConfig.Config)
      ensures baseUrl == config.uranaWebAppUrl
    {
      baseUrl := config.uranaWebAppUrl;
    }

    /** A single "Debug Mini App" button that opens the app's base address. */
    function CreateDebugButton(): (k: InlineKeyboard)
      ensures IsSingleButton(k)
      ensures k.rows[0][0].text == DebugLabel && k.rows[0][0].url == baseUrl
    {
      InlineKeyboard([[WebAppButton(DebugLabel, baseUrl)]])
    }

    /** A single "view league" button that opens the league's page of the app. */
    function CreateLeagueButton(league: League): (k: InlineKeyboard)
      ensures IsSingleButton(k)
      ensures k.rows[0][0].text == LeagueLabel
      ensures k.rows[0][0].url == baseUrl + LeagueFragment + league.id
      ensures LeagueIdOfUrl(baseUrl, k.rows[0][0].url) == Some(league.id)
    {
      var url := baseUrl + LeagueFragment + league.id;
      assert url[..|baseUrl + LeagueFragment|] == baseUrl + LeagueFragment;
      assert url[|baseUrl + LeagueFragment|..] == league.id;
      InlineKeyboard([[WebAppButton(LeagueLabel, url)]])
    }
  }

  /** The league id a league-page address carries, if it is one under `base`. */
  function LeagueIdOfUrl(base: string, url: string): (r: Option<string>)
    ensures r.Some? ==> url == base + LeagueFragment + r.value
  {
    var prefix := base + LeagueFragment;
    if |prefix| <= |url| && url[..|prefix|] == prefix then
      assert url == prefix + url[|prefix|..];
      Some(url[|prefix|..])
    else None
  }

  /** Two leagues get the same button address only when they have the same id. */
  lemma LeagueUrlsDistinguishLeagues(f: UranaWebFormatter, a: League, b: League)
    requires f.CreateLeagueButton(a).rows[0][0].url == f.CreateLeagueButton(b).rows[0][0].url
    ensures a.id == b.id
  {
    var ka, kb := f.CreateLeagueButton(a), f.CreateLeagueButton(b);
    assert Some(a.id) == LeagueIdOfUrl(f.baseUrl, ka.rows[0][0].url);
  }
}
