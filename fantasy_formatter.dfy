/**
 * Chat texts for the `/info` and `/league` commands: the RPL info text, the
 * league header and the fixed-width squad table (src/formatters/fantasy.formatter.ts).
 */
module FantasyFormatter {
  import opened Wrappers
  import opened Text
  import opened Domain

  const RplTitleIcon := "🇷🇺 "
  const SeasonIcon := "📅 "
  const LeagueIcon := "📊 "
  const SquadsLabel := "👥 Команд: "
  const ToursIcon := "⏳ "
  const ToursFinishedSuffix := " туров завершено"
  /** What a JavaScript template literal prints for `undefined`. */
  const Undefined := "undefined"
  const FinishedStatus := "FINISHED"

  const PlaceWidth := 3
  const NameWidth := 23
  const NameKeep := 20
  const Ellipsis := "..."
  const ScoreWidth := 4

  /** Text of the `/info` command: title line, then the current season's name. */
  function FormatRplToInfoCommand(rpl: Tournament): string {
    RplTitleIcon + rpl.metaTitle + "\n" + SeasonIcon + SeasonNameOrUndefined(rpl)
  }

  /** `rpl.currentSeason?.statObject.name` as a template literal renders it. */
  function SeasonNameOrUndefined(rpl: Tournament): string {
    match rpl.currentSeason
    case Some(season) => season.statObject.name
    case None => Undefined
  }

  /** Without newlines in the title and season name, the info text is exactly two lines. */
  lemma InfoCommandLines(rpl: Tournament)
    requires '\n' !in rpl.metaTitle && '\n' !in SeasonNameOrUndefined(rpl)
    ensures Split(FormatRplToInfoCommand(rpl), '\n')
         == [RplTitleIcon + rpl.metaTitle, SeasonIcon + SeasonNameOrUndefined(rpl)]
  {
    var l1, l2 := RplTitleIcon + rpl.metaTitle, SeasonIcon + SeasonNameOrUndefined(rpl);
    assert FormatRplToInfoCommand(rpl) == l1 + ['\n'] + l2;
    SplitNoSeparator(l2, '\n');
    SplitAtFirst(l1, '\n', l2);
  }

  /** Number of tours whose status is exactly "FINISHED". */
  function FinishedToursCount(tours: seq<LeagueTour>): (r: nat)
    ensures r <= |tours|
    ensures r == |tours| <==> forall i :: 0 <= i < |tours| ==> tours[i].status == FinishedStatus
    ensures r == 0 <==> forall i :: 0 <= i < |tours| ==> tours[i].status != FinishedStatus
  {
    if tours == [] then 0
    else (if tours[0].status == FinishedStatus then 1 else 0) + FinishedToursCount(tours[1..])
  }

  /** The three header lines of the `/league` text. */
  function LeagueHeaderLines(league: League): seq<string> {
    [ LeagueIcon + league.name,
      SquadsLabel + NatToString(league.totalSquadsCount),
      ToursIcon + NatToString(FinishedToursCount(league.season.tours)) + "/"
        + NatToString(|league.season.tours|) + ToursFinishedSuffix ]
  }

  /** The `/league` header: league name, squad count, finished/total tours. */
  function LeagueHeader(league: League): string {
    var lines := LeagueHeaderLines(league);
    lines[0] + "\n" + lines[1] + "\n" + lines[2]
  }

  /** Text of the `/league` command: the header, a blank line, then the squad table. */
  function FormatLeagueToLeagueCommand(league: League, squads: seq<SquadEntry>): string {
    LeagueHeader(league) + "\n\n" + FormatSquadsToList(squads)
  }

  /** The place column: the decimal place, right-aligned in 3 characters, never cut. */
  function PlaceField(place: nat): (r: string)
    ensures |r| == if |NatToString(place)| >= PlaceWidth then |NatToString(place)| else PlaceWidth
    ensures r[|r| - |NatToString(place)|..] == NatToString(place)
    ensures forall i :: 0 <= i < |r| - |NatToString(place)| ==> r[i] == ' '
  {
    PadStart(NatToString(place), PlaceWidth)
  }

  /** The score column: the decimal score, right-aligned in 4 characters, never cut. */
  function ScoreField(score: int): (r: string)
    ensures |r| == if |IntToString(score)| >= ScoreWidth then |IntToString(score)| else ScoreWidth
    ensures r[|r| - |IntToString(score)|..] == IntToString(score)
    ensures forall i :: 0 <= i < |r| - |IntToString(score)| ==> r[i] == ' '
  {
    PadStart(IntToString(score), ScoreWidth)
  }

  /** The name column: always 23 characters; longer names keep 20 and get "...". */
  function NameField(name: string): (r: string)
    ensures |r| == NameWidth
    ensures |name| > NameWidth ==> r[..NameKeep] == name[..NameKeep] && r[NameKeep..] == Ellipsis
    ensures |name| <= NameWidth ==> r[..|name|] == name
    ensures |name| <= NameWidth ==> forall i :: |name| <= i < NameWidth ==> r[i] == ' '
    ensures |name| == NameWidth ==> r == name
  {
    if |name| > NameWidth then name[..NameKeep] + Ellipsis else PadEnd(name, NameWidth)
  }

  /** One table row: a backtick, place, space, name, space, score, a backtick. */
  function Row(e: SquadEntry): (r: string)
    ensures |r| == |PlaceField(e.scoreInfo.place)| + NameWidth + |ScoreField(e.scoreInfo.score)| + 4
    ensures r[0] == '`' && r[|r| - 1] == '`'
  {
    "`" + PlaceField(e.scoreInfo.place) + " " + NameField(e.squad.name) + " "
      + ScoreField(e.scoreInfo.score) + "`"
  }

  /** Where three fields sit in the text that wraps them in backticks and separates them by spaces. */
  lemma {:induction false} FieldOffsets(p: string, n: string, s: string)
    ensures var r := "`" + p + " " + n + " " + s + "`";
      && |r| == |p| + |n| + |s| + 4
      && r[1..1 + |p|] == p
      && r[1 + |p|] == ' '
      && r[2 + |p|..2 + |p| + |n|] == n
      && r[2 + |p| + |n|] == ' '
      && r[3 + |p| + |n|..|r| - 1] == s
  {
    var a := "`" + p;
    var b := a + " " + n;
    var c := b + " " + s;
    var r := c + "`";
    assert r == "`" + p + " " + n + " " + s + "`";
    assert r[1..1 + |p|] == a[1..];
    assert r[2 + |p|..2 + |p| + |n|] == b[2 + |p|..];
    assert r[3 + |p| + |n|..|r| - 1] == c[3 + |p| + |n|..];
  }

  /** Each column sits at a fixed offset of its row, separated by single spaces. */
  lemma RowColumns(e: SquadEntry)
    ensures var r, p, s := Row(e), PlaceField(e.scoreInfo.place), ScoreField(e.scoreInfo.score);
      && r[1..1 + |p|] == p
      && r[1 + |p|] == ' '
      && r[2 + |p|..2 + |p| + NameWidth] == NameField(e.squad.name)
      && r[2 + |p| + NameWidth] == ' '
      && r[3 + |p| + NameWidth..|r| - 1] == s
  {
    FieldOffsets(PlaceField(e.scoreInfo.place), NameField(e.squad.name), ScoreField(e.scoreInfo.score));
  }

  /** With place below 1000 and a score of at most four characters, every row is 34 characters. */
  lemma RowWidth(e: SquadEntry)
    requires e.scoreInfo.place < 1000 && -999 <= e.scoreInfo.score <= 9999
    ensures |Row(e)| == 34
  {
    NatToStringLength(e.scoreInfo.place, 3);
    if e.scoreInfo.score >= 0 {
      NatToStringLength(e.scoreInfo.score, 4);
    } else {
      NatToStringLength(-e.scoreInfo.score, 3);
    }
  }

  /** One row per squad, in input order. */
  function Rows(squads: seq<SquadEntry>): (r: seq<string>)
    ensures |r| == |squads|
    ensures forall i :: 0 <= i < |squads| ==> r[i] == Row(squads[i])
  {
    seq(|squads|, i requires 0 <= i < |squads| => Row(squads[i]))
  }

  /** The squad table: the rows joined by newlines. */
  function FormatSquadsToList(squads: seq<SquadEntry>): (r: string)
    ensures squads == [] ==> r == ""
    ensures |squads| == 1 ==> r == Row(squads[0])
  {
    Join(Rows(squads), "\n")
  }

  predicate NoNewlineInNames(squads: seq<SquadEntry>) {
    forall i :: 0 <= i < |squads| ==> '\n' !in squads[i].squad.name
  }

  lemma DigitsHaveNoNewline(s: string)
    requires AllDigits(s)
    ensures '\n' !in s
  {
    forall i | 0 <= i < |s| ensures s[i] != '\n' {
      assert IsDigit(s[i]);
    }
  }

  lemma PlaceFieldHasNoNewline(place: nat)
    ensures '\n' !in PlaceField(place)
  {
    var p, t := PlaceField(place), NatToString(place);
    DigitsHaveNoNewline(t);
    forall i | 0 <= i < |p| ensures p[i] != '\n' {
      if i >= |p| - |t| {
        assert p[i] == t[i - (|p| - |t|)];
      }
    }
  }

  lemma ScoreFieldHasNoNewline(score: int)
    ensures '\n' !in ScoreField(score)
  {
    var s, t := ScoreField(score), IntToString(score);
    DigitsHaveNoNewline(NatToString(if score < 0 then -score else score));
    forall i | 0 <= i < |s| ensures s[i] != '\n' {
      if i >= |s| - |t| {
        assert s[i] == t[i - (|s| - |t|)];
        if score < 0 && i > |s| - |t| {
          assert t[i - (|s| - |t|)] == t[1..][i - (|s| - |t|) - 1];
        }
      }
    }
  }

  lemma NameFieldHasNoNewline(name: string)
    requires '\n' !in name
    ensures '\n' !in NameField(name)
  {
    var n := NameField(name);
    forall i | 0 <= i < |n| ensures n[i] != '\n' {
      if |name| > NameWidth {
        if i < NameKeep { assert n[i] == name[i]; } else { assert n[i] == Ellipsis[i - NameKeep]; }
      } else if i < |name| {
        assert n[i] == name[i];
      }
    }
  }

  lemma RowHasNoNewline(e: SquadEntry)
    requires '\n' !in e.squad.name
    ensures '\n' !in Row(e)
  {
    var p, n, s := PlaceField(e.scoreInfo.place), NameField(e.squad.name), ScoreField(e.scoreInfo.score);
    PlaceFieldHasNoNewline(e.scoreInfo.place);
    ScoreFieldHasNoNewline(e.scoreInfo.score);
    NameFieldHasNoNewline(e.squad.name);
    var r := Row(e);
    assert r == "`" + p + " " + n + " " + s + "`";
    forall i | 0 <= i < |r| ensures r[i] != '\n' {
      if 1 <= i < 1 + |p| {
        assert r[i] == p[i - 1];
      } else if 2 + |p| <= i < 2 + |p| + |n| {
        assert r[i] == n[i - 2 - |p|];
      } else if 3 + |p| + |n| <= i < |r| - 1 {
        assert r[i] == s[i - 3 - |p| - |n|];
      }
    }
  }

  lemma RowsHaveNoNewline(squads: seq<SquadEntry>)
    requires NoNewlineInNames(squads)
    ensures forall i :: 0 <= i < |squads| ==> '\n' !in Rows(squads)[i]
  {
    forall i | 0 <= i < |squads| ensures '\n' !in Rows(squads)[i] {
      RowHasNoNewline(squads[i]);
    }
  }

  /**
   * Splitting the table at newlines gives back exactly one row per squad, in
   * input order, and the table holds one newline fewer than it has squads.
   */
  lemma SquadListLines(squads: seq<SquadEntry>)
    requires |squads| >= 1 && NoNewlineInNames(squads)
    ensures Split(FormatSquadsToList(squads), '\n') == Rows(squads)
    ensures Count(FormatSquadsToList(squads), '\n') == |squads| - 1
  {
    RowsHaveNoNewline(squads);
    SplitJoin(Rows(squads), '\n');
    CountJoin(Rows(squads), '\n');
  }

  lemma HeaderLinesHaveNoNewline(league: League)
    requires '\n' !in league.name
    ensures forall i :: 0 <= i < 3 ==> '\n' !in LeagueHeaderLines(league)[i]
  {
    DigitsHaveNoNewline(NatToString(league.totalSquadsCount));
    DigitsHaveNoNewline(NatToString(FinishedToursCount(league.season.tours)));
    DigitsHaveNoNewline(NatToString(|league.season.tours|));
  }

  lemma LeagueHeaderIsJoin(league: League)
    ensures LeagueHeader(league) == Join(LeagueHeaderLines(league), "\n")
  {
    var h := LeagueHeaderLines(league);
    JoinThree(h[0], h[1], h[2], "\n");
  }

  /**
   * The `/league` text is the three header lines, one empty line, then one
   * line per squad (or one more empty line when there are no squads).
   */
  lemma LeagueCommandLines(league: League, squads: seq<SquadEntry>)
    requires '\n' !in league.name && NoNewlineInNames(squads)
    ensures Split(FormatLeagueToLeagueCommand(league, squads), '\n')
         == LeagueHeaderLines(league) + [""] + (if squads == [] then [""] else Rows(squads))
  {
    var h := LeagueHeaderLines(league);
    var body := if squads == [] then [""] else Rows(squads);
    assert Join(body, "\n") == FormatSquadsToList(squads);
    LeagueHeaderIsJoin(league);
    HeaderLinesHaveNoNewline(league);
    if squads != [] { RowsHaveNoNewline(squads); }
    SplitBlocks(h, body, '\n');
  }
}
