/**
 * The `league_stats` command: look a summoner up by name, fetch their
 * champion masteries, and show the first three as three aligned columns
 * (numbered champion names, mastery points, parenthesised levels) in one
 * embed. The Riot API answers are inputs to the model.
 */
module Riot {
  import opened Wrappers
  import opened Text
  import opened Embeds
  import opened Io

  /** One champion mastery; `champion` is the champion's display text. */
  datatype Mastery = Mastery(champion: string, points: int, level: int)

  datatype Summoner = Summoner(id: string, name: string, profileIconId: int)

  /** The answer to a summoner lookup by name. */
  datatype SummonerLookup = SummonerError | NoSummoner | FoundSummoner(summoner: Summoner)

  /** The answer to a champion mastery lookup by summoner id. */
  datatype MasteryLookup = MasteryError | Masteries(list: seq<Mastery>)

  /** How many masteries the reply shows. */
  const Shown: nat := 3

  const NotFound: string := "Could not find a summoner with that name"
  const SummonerFailed: string := "Failed to get summoner"
  const MasteriesFailed: string := "Failed to get champion masteries"
  const IconBase: string := "http://ddragon.leagueoflegends.com/cdn/10.20.1/img/profileicon/"

  /**
   * The panic of a slice `[..end]` taken from a shorter sequence: the message
   * names the requested end first and the actual length last, both in decimal.
   */
  function SliceEndPanic(end: nat, len: nat): (msg: string)
    ensures var e := |NatToString(end)|; var l := |NatToString(len)|;
      |msg| == 16 + e + 34 + l && msg[..16] == "range end index "
      && var first := msg[16..16 + e]; var last := msg[|msg| - l..];
      (forall k :: 0 <= k < e ==> IsDigit(first[k])) && DigitsValue(first) == end
      && (forall k :: 0 <= k < l ==> IsDigit(last[k])) && DigitsValue(last) == len
  {
    NatToStringRoundTrip(end);
    NatToStringRoundTrip(len);
    var msg := "range end index " + NatToString(end) + " out of range for slice of length " + NatToString(len);
    assert msg[16..16 + |NatToString(end)|] == NatToString(end);
    assert msg[|msg| - |NatToString(len)|..] == NatToString(len);
    "range end index " + NatToString(end) + " out of range for slice of length " + NatToString(len)
  }

  // ---------------------------------------------------------------------------
  // The three columns
  // ---------------------------------------------------------------------------

  /** Row `i` of the champion column: the 1-based rank, `) `, then the champion. */
  function NameRow(i: nat, m: Mastery): (r: string)
    ensures var n := NatToString(i + 1);
      |r| == |n| + 2 + |m.champion| && r[..|n|] == n && r[|n|..|n| + 2] == ") " && r[|n| + 2..] == m.champion
  {
    NatToString(i + 1) + ") " + m.champion
  }

  /** A row of the points column: the points in decimal, on one line. */
  function PointsRow(m: Mastery): (r: string)
    ensures |r| > 0 && '\n' !in r
    ensures r[0] == '-' <==> m.points < 0
  {
    IntToStringPlain(m.points);
    IntToString(m.points)
  }

  /** A row of the level column: the level in decimal between parentheses, on one line. */
  function LevelRow(m: Mastery): (r: string)
    ensures |r| >= 3 && r[0] == '(' && r[|r| - 1] == ')' && '\n' !in r
    ensures r[1..|r| - 1] == IntToString(m.level)
  {
    IntToStringPlain(m.level);
    "(" + IntToString(m.level) + ")"
  }

  /** The champion column, row by row: row `i` is mastery `i` ranked `i + 1`. */
  function NameRows(top: seq<Mastery>): (rows: seq<string>)
    ensures |rows| == |top|
    ensures forall i :: 0 <= i < |top| ==> rows[i] == NameRow(i, top[i])
  {
    seq(|top|, i requires 0 <= i < |top| => NameRow(i, top[i]))
  }

  /** The points column, row by row. */
  function PointsRows(top: seq<Mastery>): (rows: seq<string>)
    ensures |rows| == |top|
    ensures forall i :: 0 <= i < |top| ==> rows[i] == PointsRow(top[i])
  {
    seq(|top|, i requires 0 <= i < |top| => PointsRow(top[i]))
  }

  /** The level column, row by row. */
  function LevelRows(top: seq<Mastery>): (rows: seq<string>)
    ensures |rows| == |top|
    ensures forall i :: 0 <= i < |top| ==> rows[i] == LevelRow(top[i])
  {
    seq(|top|, i requires 0 <= i < |top| => LevelRow(top[i]))
  }

  lemma RowsSnoc(top: seq<Mastery>, i: nat)
    requires i < |top|
    ensures NameRows(top[..i + 1]) == NameRows(top[..i]) + [NameRow(i, top[i])]
    ensures PointsRows(top[..i + 1]) == PointsRows(top[..i]) + [PointsRow(top[i])]
    ensures LevelRows(top[..i + 1]) == LevelRows(top[..i]) + [LevelRow(top[i])]
  {
    assert top[..i + 1][..i] == top[..i];
  }

  /** What one turn of the loop appends to each column: the next mastery's line. */
  lemma ColumnsStep(top: seq<Mastery>, i: nat)
    requires i < |top|
    ensures Terminated(NameRows(top[..i + 1])) == Terminated(NameRows(top[..i])) + (NameRow(i, top[i]) + "\n")
    ensures Terminated(PointsRows(top[..i + 1])) == Terminated(PointsRows(top[..i])) + (PointsRow(top[i]) + "\n")
    ensures Terminated(LevelRows(top[..i + 1])) == Terminated(LevelRows(top[..i])) + (LevelRow(top[i]) + "\n")
  {
    RowsSnoc(top, i);
    TerminatedSnoc(NameRows(top[..i]), NameRow(i, top[i]));
    TerminatedSnoc(PointsRows(top[..i]), PointsRow(top[i]));
    TerminatedSnoc(LevelRows(top[..i]), LevelRow(top[i]));
  }

  /**
   * The loop of `league_stats` over the shown masteries: one builder per
   * column, each pushed one line per mastery, in order.
   */
  method MasteryColumns(top: seq<Mastery>) returns (names: string, points: string, levels: string)
    ensures names == Terminated(NameRows(top))
    ensures points == Terminated(PointsRows(top))
    ensures levels == Terminated(LevelRows(top))
  {
    var championColumn := new MessageBuilder();
    var pointsColumn := new MessageBuilder();
    var levelColumn := new MessageBuilder();
    for i := 0 to |top|
      invariant championColumn.content == Terminated(NameRows(top[..i]))
      invariant pointsColumn.content == Terminated(PointsRows(top[..i]))
      invariant levelColumn.content == Terminated(LevelRows(top[..i]))
    {
      var mastery := top[i];
      ColumnsStep(top, i);
      championColumn.Push(NameRow(i, mastery) + "\n");
      pointsColumn.Push(PointsRow(mastery) + "\n");
      levelColumn.Push(LevelRow(mastery) + "\n");
    }
    assert top[..|top|] == top;
    names, points, levels := championColumn.Build(), pointsColumn.Build(), levelColumn.Build();
  }

  /** Champion display texts that fit on one line. */
  predicate OneLineChampions(top: seq<Mastery>)
  {
    forall i :: 0 <= i < |top| ==> '\n' !in top[i].champion
  }

  lemma NameRowOneLine(i: nat, m: Mastery)
    requires '\n' !in m.champion
    ensures '\n' !in NameRow(i, m)
  {
    var prefix := NatToString(i + 1) + ") ";
    forall k | 0 <= k < |prefix| ensures prefix[k] != '\n' {
      if k < |NatToString(i + 1)| { assert IsDigit(NatToString(i + 1)[k]); }
    }
    assert NameRow(i, m) == prefix + m.champion;
  }

  /**
   * Each column has one line per shown mastery, in order: reading the
   * column back line by line gives the rows of masteries 0, 1, 2, ...
   */
  lemma ColumnsLineUp(top: seq<Mastery>)
    requires OneLineChampions(top)
    ensures Lines(Terminated(NameRows(top))) == NameRows(top)
    ensures Lines(Terminated(PointsRows(top))) == PointsRows(top)
    ensures Lines(Terminated(LevelRows(top))) == LevelRows(top)
    ensures CountNewlines(Terminated(NameRows(top))) == |top|
    ensures CountNewlines(Terminated(PointsRows(top))) == |top|
    ensures CountNewlines(Terminated(LevelRows(top))) == |top|
  {
    forall i | 0 <= i < |top| ensures '\n' !in NameRows(top)[i] {
      NameRowOneLine(i, top[i]);
    }
    forall i | 0 <= i < |top| ensures '\n' !in PointsRows(top)[i] && '\n' !in LevelRows(top)[i] {
      IntToStringPlain(top[i].points);
      IntToStringPlain(top[i].level);
    }
    LinesOfTerminated(NameRows(top));
    LinesOfTerminated(PointsRows(top));
    LinesOfTerminated(LevelRows(top));
    TerminatedShape(NameRows(top));
    TerminatedShape(PointsRows(top));
    TerminatedShape(LevelRows(top));
  }

  /** The champion lines of a three-mastery reply are numbered `1) `, `2) `, `3) `. */
  lemma NumberedFromOne(top: seq<Mastery>)
    requires |top| == Shown
    ensures NameRows(top)[0][..3] == "1) "
    ensures NameRows(top)[1][..3] == "2) "
    ensures NameRows(top)[2][..3] == "3) "
  {
    assert NatToString(1) == "1" && NatToString(2) == "2" && NatToString(3) == "3";
  }

  /** Reading the number at the start of champion line `i` gives `i + 1`. */
  lemma LineNumberReadsBack(top: seq<Mastery>, i: nat)
    requires i < |top|
    ensures var n := NatToString(i + 1);
      NameRows(top)[i][..|n|] == n && DigitsValue(n) == i + 1
  {
    NatToStringRoundTrip(i + 1);
    var n := NatToString(i + 1);
    assert NameRow(i, top[i]) == n + (") " + top[i].champion);
  }

  /** A level line is the level in parentheses: reading between them gives the level back. */
  lemma LevelReadsBack(m: Mastery)
    requires m.level >= 0
    ensures var r := LevelRow(m);
      |r| >= 3 && r[0] == '(' && r[|r| - 1] == ')'
      && (forall k :: 1 <= k < |r| - 1 ==> IsDigit(r[k]))
      && DigitsValue(r[1..|r| - 1]) == m.level
  {
    var r := LevelRow(m);
    assert r[1..|r| - 1] == NatToString(m.level);
    NatToStringRoundTrip(m.level);
  }

  /** A points line is the decimal text of the points: reading it gives the points back. */
  lemma PointsReadBack(m: Mastery)
    requires m.points >= 0
    ensures var r := PointsRow(m);
      (forall k :: 0 <= k < |r| ==> IsDigit(r[k])) && DigitsValue(r) == m.points
  {
    NatToStringRoundTrip(m.points);
  }

  // ---------------------------------------------------------------------------
  // The reply
  // ---------------------------------------------------------------------------

  function StatsTitle(name: string): (title: string)
    ensures |title| == |name| + 8
    ensures title[..|name|] == name && title[|name|..] == "'s Stats"
  {
    name + "'s Stats"
  }

  /** The summoner's profile icon on Data Dragon. */
  function ProfileIconUrl(id: int): (url: string)
    ensures |url| == |IconBase| + |IntToString(id)| + 4
    ensures url[..|IconBase|] == IconBase && url[|url| - 4..] == ".png"
    ensures url[|IconBase|..|url| - 4] == IntToString(id)
  {
    IconBase + IntToString(id) + ".png"
  }

  lemma NatToStringInjective(a: nat, b: nat)
    requires NatToString(a) == NatToString(b)
    ensures a == b
  {
    NatToStringRoundTrip(a);
    NatToStringRoundTrip(b);
  }

  /** Decimal text is unambiguous: distinct integers print differently. */
  lemma IntToStringInjective(a: int, b: int)
    requires IntToString(a) == IntToString(b)
    ensures a == b
  {
    if a >= 0 {
      assert b >= 0;
      NatToStringInjective(a, b);
    } else {
      assert b < 0;
      assert NatToString(-a) == IntToString(a)[1..] == IntToString(b)[1..] == NatToString(-b);
      NatToStringInjective(-a, -b);
    }
  }

  /** Distinct icon ids give distinct thumbnails: the id can be read back from the URL. */
  lemma ProfileIconUrlInjective(a: int, b: int)
    requires ProfileIconUrl(a) == ProfileIconUrl(b)
    ensures a == b
  {
    var u := ProfileIconUrl(a);
    assert IntToString(a) == u[|IconBase|..|u| - 4];
    assert IntToString(b) == u[|IconBase|..|u| - 4];
    IntToStringInjective(a, b);
  }

  /** The embed's fields: a heading, then the three columns side by side. */
  function MasteryFields(top: seq<Mastery>): (fields: seq<EmbedField>)
    ensures |fields| == 4
    ensures fields[0] == EmbedField("**-Masteries-**", ":mage:", false)
    ensures fields[1].name == "Champion" && fields[2].name == "Points" && fields[3].name == "Level"
    ensures fields[1].inline && fields[2].inline && fields[3].inline
  {
    [EmbedField("**-Masteries-**", ":mage:", false),
     EmbedField("Champion", Terminated(NameRows(top)), true),
     EmbedField("Points", Terminated(PointsRows(top)), true),
     EmbedField("Level", Terminated(LevelRows(top)), true)]
  }

  /** Every column of a reply has one line per shown mastery, line `i` of each from mastery `i`. */
  lemma ReplyAligned(top: seq<Mastery>)
    requires OneLineChampions(top)
    ensures var fields := MasteryFields(top);
      Lines(fields[1].value) == NameRows(top)
      && Lines(fields[2].value) == PointsRows(top)
      && Lines(fields[3].value) == LevelRows(top)
  {
    ColumnsLineUp(top);
  }

  /** The embed of `league_stats`. */
  method StatsEmbed(summoner: Summoner, names: string, points: string, levels: string) returns (data: EmbedData)
    ensures data == EmbedData(Some(StatsTitle(summoner.name)), Some("(WIP)"), Some(DarkPurple),
                              Some(ProfileIconUrl(summoner.profileIconId)),
                              [EmbedField("**-Masteries-**", ":mage:", false),
                               EmbedField("Champion", names, true),
                               EmbedField("Points", points, true),
                               EmbedField("Level", levels, true)])
  {
    var embed := new Embed.Default();
    embed.SetTitle(StatsTitle(summoner.name));
    embed.SetColour(DarkPurple);
    embed.SetThumbnail(ProfileIconUrl(summoner.profileIconId));
    embed.SetDescription("(WIP)");
    embed.AddField("**-Masteries-**", ":mage:", false);
    embed.AddField("Champion", names, true);
    embed.AddField("Points", points, true);
    embed.AddField("Level", levels, true);
    data := embed.Data();
  }

  /**
   * `league_stats`: the first argument names the summoner; `summoners` and
   * `masteriesOf` are the Riot API's answers by name and by summoner id.
   */
  method LeagueStats(args: seq<string>, summoners: string -> SummonerLookup, masteriesOf: string -> MasteryLookup)
    returns (run: Run)
    ensures args == [] ==> run == Run([], Panicked(UnwrapPanic))
    ensures args != [] && summoners(args[0]).SummonerError? ==> run == Run([], Panicked(SummonerFailed))
    ensures args != [] && summoners(args[0]).NoSummoner? ==> run == Run([SendText(NotFound)], Panicked(NotFound))
    ensures args != [] && summoners(args[0]).FoundSummoner? ==>
      var summoner := summoners(args[0]).summoner;
      match masteriesOf(summoner.id)
      case MasteryError => run == Run([], Panicked(MasteriesFailed))
      case Masteries(list) =>
        if |list| < Shown then run == Run([], Panicked(SliceEndPanic(Shown, |list|)))
        else run == Run([SendEmbed(EmbedData(Some(StatsTitle(summoner.name)), Some("(WIP)"), Some(DarkPurple),
                                             Some(ProfileIconUrl(summoner.profileIconId)),
                                             MasteryFields(list[..Shown])))], Completed)
  {
    if args == [] {
      return Run([], Panicked(UnwrapPanic));
    }
    var summoner: Summoner;
    match summoners(args[0]) {
      case SummonerError =>
        return Run([], Panicked(SummonerFailed));
      case NoSummoner =>
        return Run([SendText(NotFound)], Panicked(NotFound));
      case FoundSummoner(s) =>
        summoner := s;
    }
    var masteries: seq<Mastery>;
    match masteriesOf(summoner.id) {
      case MasteryError =>
        return Run([], Panicked(MasteriesFailed));
      case Masteries(list) =>
        masteries := list;
    }
    if |masteries| < Shown {
      return Run([], Panicked(SliceEndPanic(Shown, |masteries|)));
    }
    var names, points, levels := MasteryColumns(masteries[..Shown]);
    var data := StatsEmbed(summoner, names, points, levels);
    run := Run([SendEmbed(data)], Completed);
  }
}
