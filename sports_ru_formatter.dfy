/**
 * The older tournament renderer (src/formatters/sports-ru.formatter.ts):
 * tournament and tour text, the case-insensitive tour-status table, dates
 * and the fixed user messages.
 */
module SportsRuFormatter {
  import opened Wrappers
  import opened Text
  import opened Domain

  const TitleIcon := "🏆 "
  const NoActiveSeasonLine := "❌ Нет активного сезона"
  const SeasonLabel := "📅 Сезон: "
  const NoActiveTourLine := "❌ Нет активного тура"
  const TourLabel := "🎯 Текущий тур: "
  const StatusLabel := "📊 Статус: "
  const StartLabel := "⏰ Начало: "
  const EndLabel := "⏰ Окончание: "

  const ActiveLabel := "🟢 Активен"
  const FinishedLabel := "🔴 Завершен"
  const UpcomingLabel := "🟡 Предстоящий"
  const UnmappedPrefix := "⚪ "

  const NotSpecified := "Не указано"
  const InvalidDate := "Некорректная дата"
  const ErrorPrefix := "❌ Произошла ошибка: "
  const NoDataMessage := "📭 Данные о турнире временно недоступны. Попробуйте позже."
  const LoadingMessage := "⏳ Загружаю информацию о турнире..."

  /**
   * The case-insensitive status table: each lower-cased key (English and
   * Russian) and the label it renders as.
   */
  const StatusLabels: map<string, string> := map[
    "active" := ActiveLabel, "активен" := ActiveLabel,
    "finished" := FinishedLabel, "завершен" := FinishedLabel,
    "upcoming" := UpcomingLabel, "предстоящий" := UpcomingLabel]

  /** `toLowerCase` on one character: Latin A-Z and Cyrillic Ѐ-Я. */
  function LowerChar(c: char): (r: char)
    ensures 'A' <= c <= 'Z' ==> 'a' <= r <= 'z' && r as int - c as int == 32
    ensures 'А' <= c <= 'Я' ==> 'а' <= r <= 'я' && r as int - c as int == 32
    ensures 'Ѐ' <= c <= 'Џ' ==> 'ѐ' <= r <= 'џ' && r as int - c as int == 80
    ensures !('A' <= c <= 'Z' || 'Ѐ' <= c <= 'Я') ==> r == c
    ensures 'a' <= r <= 'z' ==> 'a' <= c <= 'z' || 'A' <= c <= 'Z'
  {
    if 'A' <= c <= 'Z' then (c as int + 32) as char
    else if 'А' <= c <= 'Я' then (c as int + 32) as char
    else if 'Ѐ' <= c <= 'Џ' then (c as int + 80) as char
    else c
  }

  /** `s.toLowerCase()`, character by character. */
  function ToLower(s: string): (r: string)
    ensures |r| == |s|
    ensures forall i :: 0 <= i < |s| ==> r[i] == LowerChar(s[i])
  {
    if s == [] then [] else [LowerChar(s[0])] + ToLower(s[1..])
  }

  lemma LowerCharIdempotent(c: char)
    ensures LowerChar(LowerChar(c)) == LowerChar(c)
  {
  }

  /** A string with no upper-case Latin or Cyrillic letter is its own lower case. */
  lemma ToLowerOfLowerCase(s: string)
    requires forall i :: 0 <= i < |s| ==> !('A' <= s[i] <= 'Z' || 'Ѐ' <= s[i] <= 'Я')
    ensures ToLower(s) == s
  {
    assert forall i :: 0 <= i < |s| ==> ToLower(s)[i] == s[i];
  }

  /** Every key of the status table is already lower case, so lower-cased statuses can hit it. */
  lemma StatusKeysAreLowerCase()
    ensures forall k :: k in StatusLabels ==> ToLower(k) == k
  {
    forall k | k in StatusLabels ensures ToLower(k) == k {
      if k == "active" || k == "finished" || k == "upcoming" {
        ToLowerOfLowerCase(k);
      } else if k == "активен" {
        ToLowerOfLowerCase(k);
      } else if k == "завершен" {
        ToLowerOfLowerCase(k);
      } else {
        assert k == "предстоящий";
        ToLowerOfLowerCase(k);
      }
    }
  }

  /** Lower-casing twice is lower-casing once. */
  lemma ToLowerIdempotent(s: string)
    ensures ToLower(ToLower(s)) == ToLower(s)
  {
    forall i | 0 <= i < |s| ensures ToLower(ToLower(s))[i] == ToLower(s)[i] {
      LowerCharIdempotent(s[i]);
    }
  }

  /**
   * The status label: a status whose lower-cased form is in the table gets the
   * table's label; any other status is shown after a white circle with its
   * original casing.
   */
  function FormatTourStatus(status: string): (r: string)
    ensures ToLower(status) in StatusLabels ==> r == StatusLabels[ToLower(status)]
    ensures ToLower(status) !in StatusLabels ==> r == UnmappedPrefix + status
  {
    var key := ToLower(status);
    if key == "active" || key == "активен" then ActiveLabel
    else if key == "finished" || key == "завершен" then FinishedLabel
    else if key == "upcoming" || key == "предстоящий" then UpcomingLabel
    else UnmappedPrefix + status
  }

  /** Two statuses that differ only in case render the same label when the table knows them. */
  lemma TourStatusIgnoresCase(s: string, t: string)
    requires ToLower(s) == ToLower(t) && ToLower(s) in StatusLabels
    ensures FormatTourStatus(s) == FormatTourStatus(t)
  {
  }

  /**
   * A date, or "not specified" when it is null, undefined or empty. The
   * locale rendering is a parameter; `None` from it stands for a thrown error.
   */
  function FormatDate(date: Option<string>, localeDate: string -> Option<string>): (r: string)
    ensures date.None? || date == Some("") ==> r == NotSpecified
    ensures date.Some? && date.value != "" ==>
      r == (if localeDate(date.value).Some? then localeDate(date.value).value else InvalidDate)
  {
    match date
    case None => NotSpecified
    case Some(d) =>
      if d == "" then NotSpecified
      else match localeDate(d)
        case Some(text) => text
        case None => InvalidDate
  }

  function TitleLine(t: Tournament): string {
    TitleIcon + t.metaTitle
  }

  function SeasonLine(s: Season): string {
    SeasonLabel + s.statObject.name + " (" + s.statObject.year + ")"
  }

  function TourLines(tour: Tour, localeDate: string -> Option<string>): seq<string> {
    [ TourLabel + tour.name,
      StatusLabel + FormatTourStatus(tour.status),
      StartLabel + FormatDate(tour.startedAt, localeDate),
      EndLabel + FormatDate(tour.finishedAt, localeDate) ]
  }

  /**
   * The tournament text as the source's template literals build it: the
   * title, then the "no active season" line; or the title, the season line
   * and the "no active tour" line; or the title, the season line and the
   * tour's name, status, start and end.
   */
  function FormatTournamentInfo(t: Tournament, localeDate: string -> Option<string>): string {
    match t.currentSeason
    case None => TitleLine(t) + "\n" + NoActiveSeasonLine
    case Some(season) =>
      match season.currentTour
      case None => TitleLine(t) + "\n" + SeasonLine(season) + "\n" + NoActiveTourLine
      case Some(tour) =>
        var l := TourLines(tour, localeDate);
        TitleLine(t) + "\n" + SeasonLine(season) + "\n" + l[0] + "\n" + l[1] + "\n" + l[2] + "\n" + l[3]
  }

  /** The lines of the tournament text: two without a season, three without a tour, else six. */
  function InfoLines(t: Tournament, localeDate: string -> Option<string>): (r: seq<string>)
    ensures t.currentSeason.None? ==> |r| == 2 && r[1] == NoActiveSeasonLine
    ensures t.currentSeason.Some? && t.currentSeason.value.currentTour.None? ==>
      |r| == 3 && r[1] == SeasonLine(t.currentSeason.value) && r[2] == NoActiveTourLine
    ensures t.currentSeason.Some? && t.currentSeason.value.currentTour.Some? ==> |r| == 6
    ensures r[0] == TitleLine(t)
  {
    match t.currentSeason
    case None => [TitleLine(t), NoActiveSeasonLine]
    case Some(season) =>
      match season.currentTour
      case None => [TitleLine(t), SeasonLine(season), NoActiveTourLine]
      case Some(tour) => [TitleLine(t), SeasonLine(season)] + TourLines(tour, localeDate)
  }

  lemma {:induction false} JoinSix(p: seq<string>, sep: string)
    requires |p| == 6
    ensures Join(p, sep) == p[0] + sep + p[1] + sep + p[2] + sep + p[3] + sep + p[4] + sep + p[5]
  {
    var j3 := Join(p[3..], sep);
    assert p[3..] == [p[3], p[4], p[5]];
    JoinThree(p[3], p[4], p[5], sep);
    assert p[2..][1..] == p[3..];
    var j2 := Join(p[2..], sep);
    assert j2 == p[2] + sep + j3;
    assert p[1..][1..] == p[2..];
    var j1 := Join(p[1..], sep);
    assert j1 == p[1] + sep + j2;
    assert Join(p, sep) == p[0] + sep + j1;
  }

  lemma InfoTextIsJoin(t: Tournament, localeDate: string -> Option<string>)
    ensures FormatTournamentInfo(t, localeDate) == Join(InfoLines(t, localeDate), "\n")
  {
    var p := InfoLines(t, localeDate);
    match t.currentSeason
    case None =>
      assert p[1..] == [NoActiveSeasonLine];
    case Some(season) =>
      match season.currentTour
      case None =>
        JoinThree(p[0], p[1], p[2], "\n");
      case Some(tour) =>
        var l := TourLines(tour, localeDate);
        assert p == [p[0], p[1], l[0], l[1], l[2], l[3]];
        JoinSix(p, "\n");
  }

  /** No field the text shows contains a newline. */
  predicate SingleLineFields(t: Tournament, localeDate: string -> Option<string>) {
    && '\n' !in t.metaTitle
    && (t.currentSeason.Some? ==>
      var s := t.currentSeason.value;
      && '\n' !in s.statObject.name && '\n' !in s.statObject.year
      && (s.currentTour.Some? ==>
        var tour := s.currentTour.value;
        && '\n' !in tour.name && '\n' !in tour.status
        && '\n' !in FormatDate(tour.startedAt, localeDate)
        && '\n' !in FormatDate(tour.finishedAt, localeDate)))
  }

  lemma NoNewlineConcat(a: string, b: string)
    requires '\n' !in a && '\n' !in b
    ensures '\n' !in a + b
  {
  }

  /**
   * The rendered text splits back into its lines: with no season it is the
   * title and the "no active season" line, with no tour the title, the
   * season line and the "no active tour" line, otherwise six lines.
   */
  lemma TournamentInfoLines(t: Tournament, localeDate: string -> Option<string>)
    requires SingleLineFields(t, localeDate)
    ensures Split(FormatTournamentInfo(t, localeDate), '\n') == InfoLines(t, localeDate)
  {
    var p := InfoLines(t, localeDate);
    InfoTextIsJoin(t, localeDate);
    LinesHaveNoNewline(t, localeDate);
    SplitJoin(p, '\n');
  }

  lemma SeasonLineHasNoNewline(s: Season)
    requires '\n' !in s.statObject.name && '\n' !in s.statObject.year
    ensures '\n' !in SeasonLine(s)
  {
    NoNewlineConcat(SeasonLabel, s.statObject.name);
    NoNewlineConcat(SeasonLabel + s.statObject.name, " (");
    NoNewlineConcat(SeasonLabel + s.statObject.name + " (", s.statObject.year);
    NoNewlineConcat(SeasonLabel + s.statObject.name + " (" + s.statObject.year, ")");
  }

  lemma TourLinesHaveNoNewline(tour: Tour, localeDate: string -> Option<string>)
    requires '\n' !in tour.name && '\n' !in tour.status
    requires '\n' !in FormatDate(tour.startedAt, localeDate) && '\n' !in FormatDate(tour.finishedAt, localeDate)
    ensures forall i :: 0 <= i < 4 ==> '\n' !in TourLines(tour, localeDate)[i]
  {
    NoNewlineConcat(TourLabel, tour.name);
    StatusHasNoNewline(tour.status);
    NoNewlineConcat(StatusLabel, FormatTourStatus(tour.status));
    NoNewlineConcat(StartLabel, FormatDate(tour.startedAt, localeDate));
    NoNewlineConcat(EndLabel, FormatDate(tour.finishedAt, localeDate));
  }

  lemma LinesHaveNoNewline(t: Tournament, localeDate: string -> Option<string>)
    requires SingleLineFields(t, localeDate)
    ensures forall i :: 0 <= i < |InfoLines(t, localeDate)| ==> '\n' !in InfoLines(t, localeDate)[i]
  {
    var p := InfoLines(t, localeDate);
    NoNewlineConcat(TitleIcon, t.metaTitle);
    assert '\n' !in p[0];
    if t.currentSeason.Some? {
      var s := t.currentSeason.value;
      SeasonLineHasNoNewline(s);
      assert '\n' !in p[1];
      if s.currentTour.Some? {
        var l := TourLines(s.currentTour.value, localeDate);
        TourLinesHaveNoNewline(s.currentTour.value, localeDate);
        assert p == [p[0], p[1], l[0], l[1], l[2], l[3]];
      }
    }
  }

  lemma StatusHasNoNewline(status: string)
    requires '\n' !in status
    ensures '\n' !in FormatTourStatus(status)
  {
    if ToLower(status) !in StatusLabels {
      NoNewlineConcat(UnmappedPrefix, status);
    }
  }

  /** The error text is the fixed prefix followed by the error, verbatim. */
  function FormatErrorMessage(error: string): (r: string)
    ensures |r| == |ErrorPrefix| + |error|
    ensures r[..|ErrorPrefix|] == ErrorPrefix && r[|ErrorPrefix|..] == error
  {
    ErrorPrefix + error
  }

  /** The fixed "no data" message. */
  function FormatNoDataMessage(): string {
    NoDataMessage
  }

  /** The fixed "loading" message. */
  function FormatLoadingMessage(): string {
    LoadingMessage
  }
}
