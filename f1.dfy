/**
 * The Formula 1 standings commands. The Ergast API answers with a JSON
 * document; the handler picks the ranked list out of it and builds one
 * display column per field: for the first ten entries, the field's JSON
 * text with every double quote removed, one entry per line. The columns
 * become the inline fields of one embed.
 */
module F1 {
  import opened Wrappers
  import opened Text
  import opened Json
  import opened Embeds
  import opened Io

  /** Every column shows the first ten entries of the standings. */
  const Rows: nat := 10

  const ConstructorStandingsUrl: string := "https://ergast.com/api/f1/current/constructorStandings.json"
  const DriverStandingsUrl: string := "https://ergast.com/api/f1/current/driverStandings.json"
  const F1Logo: string := "https://1000logos.net/wp-content/uploads/2020/02/F1-Logo-500x281.png"

  // The field each column shows, relative to one standings entry.
  const ConstructorName: Path := [Key("Constructor"), Key("name")]
  const Points: Path := [Key("points")]
  const DriverFamilyName: Path := [Key("Driver"), Key("familyName")]
  const DriverConstructor: Path := [Key("Constructors"), Index(0), Key("name")]

  /** Where the ranked list named `list` sits in an Ergast standings document. */
  function StandingsPath(list: string): (path: Path)
    ensures |path| == 5 && path[0] == Key("MRData") && path[3] == Index(0) && path[4] == Key(list)
  {
    [Key("MRData"), Key("StandingsTable"), Key("StandingsLists"), Index(0), Key(list)]
  }

  /** The ranked list named `list` of a standings document (`Null` when any step is missing). */
  function Standings(doc: Json, list: string): (r: Json)
    ensures Field(doc, "MRData") == Null ==> r == Null
  {
    assert StandingsPath(list) == [Key("MRData")] + StandingsPath(list)[1..];
    GetAppend(doc, [Key("MRData")], StandingsPath(list)[1..]);
    Get(doc, StandingsPath(list))
  }

  /**
   * Row `i` of the column showing `path`: the value at `path` in entry `i`,
   * rendered as JSON text with every `"` removed. It is one line without quotes.
   */
  function Cell(info: Json, i: nat, path: Path): (c: string)
    ensures '"' !in c && '\n' !in c
  {
    var text := Render(Get(Elem(info, i), path));
    RenderPrintable(Get(Elem(info, i), path));
    ReplaceAllKeepsAbsent(text, "\"", "", '\n');
    StripQuotes(text)
  }

  /** The first `n` rows of the column showing `path`. */
  function Cells(info: Json, path: Path, n: nat): (cells: seq<string>)
    ensures |cells| == n
    ensures forall i :: 0 <= i < n ==> cells[i] == Cell(info, i, path)
  {
    seq(n, i requires 0 <= i < n => Cell(info, i, path))
  }

  lemma CellsSnoc(info: Json, path: Path, n: nat)
    ensures Cells(info, path, n + 1) == Cells(info, path, n) + [Cell(info, n, path)]
  {
  }

  /** The text of a column: its ten rows, each followed by a line break. */
  function ColumnText(info: Json, path: Path): string
  {
    Terminated(Cells(info, path, Rows))
  }

  /**
   * The column builder shared by the five `get_*` functions of f1.rs: push
   * `"{row}\n"` for each of the entries 0 to 9, in order.
   */
  method Column(info: Json, path: Path) returns (col: string)
    ensures col == ColumnText(info, path)
  {
    var builder := new MessageBuilder();
    for i := 0 to Rows
      invariant builder.content == Terminated(Cells(info, path, i))
    {
      var row := StripQuotes(Render(Get(Elem(info, i), path)));
      builder.Push(row + "\n");
      CellsSnoc(info, path, i);
      TerminatedSnoc(Cells(info, path, i), row);
    }
    col := builder.Build();
  }

  method GetConstructorNames(info: Json) returns (col: string)
    ensures col == ColumnText(info, ConstructorName)
  {
    col := Column(info, ConstructorName);
  }

  method GetConstructorPoints(info: Json) returns (col: string)
    ensures col == ColumnText(info, Points)
  {
    col := Column(info, Points);
  }

  method GetDriverNames(info: Json) returns (col: string)
    ensures col == ColumnText(info, DriverFamilyName)
  {
    col := Column(info, DriverFamilyName);
  }

  method GetDriverConstructors(info: Json) returns (col: string)
    ensures col == ColumnText(info, DriverConstructor)
  {
    col := Column(info, DriverConstructor);
  }

  method GetDriverPoints(info: Json) returns (col: string)
    ensures col == ColumnText(info, Points)
  {
    col := Column(info, Points);
  }

  // ---------------------------------------------------------------------------
  // What a column shows
  // ---------------------------------------------------------------------------

  /**
   * A column is exactly ten lines, line `i` being row `i` (from entry `i`),
   * and it ends with a line break and holds no double quote.
   */
  lemma ColumnShape(info: Json, path: Path)
    ensures Lines(ColumnText(info, path)) == Cells(info, path, Rows)
    ensures |Lines(ColumnText(info, path))| == Rows
    ensures CountNewlines(ColumnText(info, path)) == Rows
    ensures |ColumnText(info, path)| > 0 && ColumnText(info, path)[|ColumnText(info, path)| - 1] == '\n'
    ensures '"' !in ColumnText(info, path)
  {
    var cells := Cells(info, path, Rows);
    LinesOfTerminated(cells);
    TerminatedShape(cells);
    TerminatedAvoids(cells, '"');
  }

  /**
   * Splitting a column at its line breaks gives its rows back: the first
   * fact of `ColumnShape` alone, so that the reply-alignment lemmas below
   * need not carry the other four.
   */
  lemma ColumnLines(info: Json, path: Path)
    ensures Lines(ColumnText(info, path)) == Cells(info, path, Rows)
  {
    LinesOfTerminated(Cells(info, path, Rows));
  }

  /** An entry past the end of the list (or a list that is not an array) shows as `null`. */
  lemma MissingEntryShowsNull(info: Json, i: nat, path: Path)
    requires !(info.Arr? && i < |info.items|)
    ensures Cell(info, i, path) == "null"
  {
    GetNull(path);
    StripQuotesIdentity("null");
  }

  /** When the standings document lacks any step of the path to the list, every row shows `null`. */
  lemma MissingStandingsShowNull(doc: Json, list: string, k: nat, i: nat, path: Path)
    requires k <= 5 && Get(doc, StandingsPath(list)[..k]) == Null
    ensures Standings(doc, list) == Null
    ensures Cell(Standings(doc, list), i, path) == "null"
  {
    var p := StandingsPath(list);
    assert p == p[..k] + p[k..];
    GetPastMissing(doc, p[..k], p[k..]);
    MissingEntryShowsNull(Null, i, path);
  }

  /** An entry that lacks a step of the field path (a missing key, an empty array) shows as `null`. */
  lemma MissingFieldShowsNull(info: Json, i: nat, path: Path, k: nat)
    requires k <= |path| && Get(Elem(info, i), path[..k]) == Null
    ensures Cell(info, i, path) == "null"
  {
    assert path == path[..k] + path[k..];
    GetPastMissing(Elem(info, i), path[..k], path[k..]);
    StripQuotesIdentity("null");
  }

  /** A field holding plain text (no quote, backslash or control character) shows exactly that text. */
  lemma PlainStringCell(info: Json, i: nat, path: Path, s: string)
    requires Get(Elem(info, i), path) == Str(s) && Plain(s)
    ensures Cell(info, i, path) == s
  {
    RenderPlainString(s);
    StripQuotesOfQuoted(s);
  }

  /** Row `i` reads the document along one path: the list, then entry `i`, then the column's field. */
  lemma CellOfDocument(doc: Json, list: string, i: nat, path: Path)
    ensures Cell(Standings(doc, list), i, path)
         == StripQuotes(Render(Get(doc, StandingsPath(list) + [Index(i)] + path)))
  {
    var p := StandingsPath(list);
    assert p + [Index(i)] + path == p + ([Index(i)] + path);
    GetAppend(doc, p, [Index(i)] + path);
    assert ([Index(i)] + path)[1..] == path;
  }

  // ---------------------------------------------------------------------------
  // The standings replies
  // ---------------------------------------------------------------------------

  /**
   * Every field of a reply has exactly ten lines, and line `i` of field `k`
   * is row `i` of the column showing `paths[k]`: all lines `i` come from the
   * same standings entry `i`.
   */
  predicate RowsFromEntries(fields: seq<EmbedField>, info: Json, paths: seq<Path>)
  {
    |fields| == |paths|
    && forall k :: 0 <= k < |fields| ==> Lines(fields[k].value) == Cells(info, paths[k], Rows)
  }

  /** Fields that each hold the column of their path show the rows of the same entries. */
  lemma ColumnsShowEntries(fields: seq<EmbedField>, info: Json, paths: seq<Path>)
    requires |fields| == |paths|
    requires forall k :: 0 <= k < |fields| ==> fields[k].value == ColumnText(info, paths[k])
    ensures RowsFromEntries(fields, info, paths)
  {
    forall k | 0 <= k < |fields| ensures Lines(fields[k].value) == Cells(info, paths[k], Rows) {
      ColumnShape(info, paths[k]);
    }
  }

  /** The fields of the constructor reply, as `constructor_standings` lays them out. */
  function ConstructorFields(info: Json): (fields: seq<EmbedField>)
    ensures |fields| == 2 && fields[0].name == "Constructor" && fields[1].name == "Points"
    ensures fields[0].inline && fields[1].inline
    ensures fields[0].value == ColumnText(info, ConstructorName) && fields[1].value == ColumnText(info, Points)
  {
    [EmbedField("Constructor", ColumnText(info, ConstructorName), true),
     EmbedField("Points", ColumnText(info, Points), true)]
  }

  /** The fields of the driver reply, as `driver_standings` lays them out. */
  function DriverFields(info: Json): (fields: seq<EmbedField>)
    ensures |fields| == 3 && fields[0].name == "Name" && fields[1].name == "Constructor" && fields[2].name == "Points"
    ensures fields[0].inline && fields[1].inline && fields[2].inline
    ensures fields[0].value == ColumnText(info, DriverFamilyName)
         && fields[1].value == ColumnText(info, DriverConstructor)
         && fields[2].value == ColumnText(info, Points)
  {
    [EmbedField("Name", ColumnText(info, DriverFamilyName), true),
     EmbedField("Constructor", ColumnText(info, DriverConstructor), true),
     EmbedField("Points", ColumnText(info, Points), true)]
  }

  /** Both constructor columns have ten lines, line `i` of each coming from constructor `i`. */
  lemma ConstructorReplyAligned(info: Json)
    ensures RowsFromEntries(ConstructorFields(info), info, [ConstructorName, Points])
  {
    var fields := ConstructorFields(info);
    var paths := [ConstructorName, Points];
    ColumnLines(info, ConstructorName);
    ColumnLines(info, Points);
    forall k | 0 <= k < 2 ensures Lines(fields[k].value) == Cells(info, paths[k], Rows) {
      if k == 0 {
        assert fields[0].value == ColumnText(info, paths[0]);
      } else {
        assert fields[1].value == ColumnText(info, paths[1]);
      }
    }
  }

  /** All three driver columns have ten lines, line `i` of each coming from driver `i`. */
  lemma DriverReplyAligned(info: Json)
    ensures RowsFromEntries(DriverFields(info), info, [DriverFamilyName, DriverConstructor, Points])
  {
    var fields := DriverFields(info);
    var paths := [DriverFamilyName, DriverConstructor, Points];
    ColumnLines(info, DriverFamilyName);
    ColumnLines(info, DriverConstructor);
    ColumnLines(info, Points);
    forall k | 0 <= k < 3 ensures Lines(fields[k].value) == Cells(info, paths[k], Rows) {
      if k == 0 {
        assert fields[0].value == ColumnText(info, paths[0]);
      } else if k == 1 {
        assert fields[1].value == ColumnText(info, paths[1]);
      } else {
        assert fields[2].value == ColumnText(info, paths[2]);
      }
    }
  }

  /** The embed of `constructor_standings`: title, colour, logo, then the two columns side by side. */
  method ConstructorEmbed(names: string, points: string) returns (data: EmbedData)
    ensures data == EmbedData(Some("Current Constructor Standings"), None, Some(DarkPurple), Some(F1Logo),
                              [EmbedField("Constructor", names, true), EmbedField("Points", points, true)])
  {
    var embed := new Embed.Default();
    embed.SetTitle("Current Constructor Standings");
    embed.SetColour(DarkPurple);
    embed.SetThumbnail(F1Logo);
    embed.AddField("Constructor", names, true);
    embed.AddField("Points", points, true);
    data := embed.Data();
  }

  /** The embed of `driver_standings`: title, colour, logo, then the three columns side by side. */
  method DriverEmbed(names: string, constructors: string, points: string) returns (data: EmbedData)
    ensures data == EmbedData(Some("Current Driver Standings"), None, Some(DarkPurple), Some(F1Logo),
                              [EmbedField("Name", names, true), EmbedField("Constructor", constructors, true),
                               EmbedField("Points", points, true)])
  {
    var embed := new Embed.Default();
    embed.SetTitle("Current Driver Standings");
    embed.SetColour(DarkPurple);
    embed.SetThumbnail(F1Logo);
    embed.AddField("Name", names, true);
    embed.AddField("Constructor", constructors, true);
    embed.AddField("Points", points, true);
    data := embed.Data();
  }

  /** `constructor_standings`: fetch, build the name and points columns, send one embed. */
  method ConstructorStandings(download: Download) returns (run: Run)
    ensures !download.Parsed() ==> run == Run([HttpGet(ConstructorStandingsUrl)], Panicked(UnwrapPanic))
    ensures download.Parsed() ==>
      var info := Standings(download.body.value, "ConstructorStandings");
      && run.outcome == Completed
      && run.events == [HttpGet(ConstructorStandingsUrl), SendEmbed(EmbedData(
           Some("Current Constructor Standings"), None, Some(DarkPurple), Some(F1Logo),
           ConstructorFields(info)))]
      && RowsFromEntries(run.events[1].embed.fields, info, [ConstructorName, Points])
  {
    if !download.Parsed() {
      return Run([HttpGet(ConstructorStandingsUrl)], Panicked(UnwrapPanic));
    }
    var info := Standings(download.body.value, "ConstructorStandings");
    var names := GetConstructorNames(info);
    var points := GetConstructorPoints(info);

    var data := ConstructorEmbed(names, points);
    run := Run([HttpGet(ConstructorStandingsUrl), SendEmbed(data)], Completed);
    ConstructorReplyAligned(info);
  }

  /** `driver_standings`: fetch, build the name, constructor and points columns, send one embed. */
  method DriverStandings(download: Download) returns (run: Run)
    ensures !download.Parsed() ==> run == Run([HttpGet(DriverStandingsUrl)], Panicked(UnwrapPanic))
    ensures download.Parsed() ==>
      var info := Standings(download.body.value, "DriverStandings");
      && run.outcome == Completed
      && run.events == [HttpGet(DriverStandingsUrl), SendEmbed(EmbedData(
           Some("Current Driver Standings"), None, Some(DarkPurple), Some(F1Logo),
           DriverFields(info)))]
      && RowsFromEntries(run.events[1].embed.fields, info, [DriverFamilyName, DriverConstructor, Points])
  {
    if !download.Parsed() {
      return Run([HttpGet(DriverStandingsUrl)], Panicked(UnwrapPanic));
    }
    var info := Standings(download.body.value, "DriverStandings");
    var names := GetDriverNames(info);
    var constructors := GetDriverConstructors(info);
    var points := GetDriverPoints(info);

    var data := DriverEmbed(names, constructors, points);
    run := Run([HttpGet(DriverStandingsUrl), SendEmbed(data)], Completed);
    DriverReplyAligned(info);
  }
}
