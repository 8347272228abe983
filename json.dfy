/**
 * The part of serde_json's `Value` that the bot uses: the value tree, the
 * total indexing operators `v["key"]` and `v[i]` (which yield `Null` instead
 * of failing), and `to_string`, the compact serialisation the bot displays.
 */
module Json {
  import opened Text

  /** A parsed JSON value. Objects keep their entries in order; numbers are integers. */
  datatype Json =
    | Null
    | Bool(b: bool)
    | Num(n: int)
    | Str(s: string)
    | Arr(items: seq<Json>)
    | Obj(entries: seq<(string, Json)>)

  /** One step of a path: an object key or an array position. */
  datatype Segment = Key(name: string) | Index(i: nat)

  type Path = seq<Segment>

  /** The value stored under `key` in an entry list, or `Null` when no entry has that key. */
  function Lookup(entries: seq<(string, Json)>, key: string): (r: Json)
    ensures (forall k :: 0 <= k < |entries| ==> entries[k].0 != key) ==> r == Null
    ensures r != Null ==> exists k :: 0 <= k < |entries| && entries[k] == (key, r)
  {
    if entries == [] then Null
    else if entries[0].0 == key then entries[0].1
    else Lookup(entries[1..], key)
  }

  /** The first entry is found when it has the key. */
  lemma LookupHead(key: string, v: Json, rest: seq<(string, Json)>)
    ensures Lookup([(key, v)] + rest, key) == v
  {
  }

  /** An entry with another key is passed over. */
  lemma LookupSkip(entry: (string, Json), rest: seq<(string, Json)>, key: string)
    requires entry.0 != key
    ensures Lookup([entry] + rest, key) == Lookup(rest, key)
  {
    assert ([entry] + rest)[1..] == rest;
  }

  /** serde_json's `v["key"]`: `Null` unless `v` is an object with that key. */
  function Field(v: Json, key: string): (r: Json)
    ensures !v.Obj? ==> r == Null
  {
    if v.Obj? then Lookup(v.entries, key) else Null
  }

  /** serde_json's `v[i]`: `Null` unless `v` is an array with more than `i` elements. */
  function Elem(v: Json, i: nat): (r: Json)
    ensures v.Arr? && i < |v.items| ==> r == v.items[i]
    ensures !(v.Arr? && i < |v.items|) ==> r == Null
  {
    if v.Arr? && i < |v.items| then v.items[i] else Null
  }

  /** One indexing step. */
  function Step(v: Json, seg: Segment): Json
  {
    match seg
    case Key(k) => Field(v, k)
    case Index(i) => Elem(v, i)
  }

  /** A chain of indexing operators, `v[s0][s1]...`, applied left to right. */
  function Get(v: Json, path: Path): (r: Json)
    ensures path == [] ==> r == v
    ensures path != [] && !v.Obj? && !v.Arr? ==> r == Null
    decreases |path|
  {
    if path == [] then v else Get(Step(v, path[0]), path[1..])
  }

  /** Indexing into `Null` gives `Null` whatever the path: a missing segment is never an error. */
  lemma {:induction false} GetNull(path: Path)
    ensures Get(Null, path) == Null
  {
    if path != [] {
      assert Step(Null, path[0]) == Null;
      GetNull(path[1..]);
    }
  }

  /** Following `p + q` is following `p` and then `q`. */
  lemma {:induction false} GetAppend(v: Json, p: Path, q: Path)
    ensures Get(v, p + q) == Get(Get(v, p), q)
    decreases |p|
  {
    if p == [] {
      assert p + q == q;
    } else {
      assert (p + q)[0] == p[0];
      assert (p + q)[1..] == p[1..] + q;
      GetAppend(Step(v, p[0]), p[1..], q);
    }
  }

  /** Once a prefix of the path reaches `Null`, the whole path yields `Null`. */
  lemma GetPastMissing(v: Json, p: Path, q: Path)
    requires Get(v, p) == Null
    ensures Get(v, p + q) == Null
  {
    GetAppend(v, p, q);
    GetNull(q);
  }

  // ---------------------------------------------------------------------------
  // to_string
  // ---------------------------------------------------------------------------

  const HexDigits: string := "0123456789abcdef"

  /** serde_json's escape of one character inside a string literal. */
  function EscapeChar(c: char): (r: string)
    ensures r == [c] <==> c != '"' && c != '\\' && (c as int) >= 0x20
    ensures r != [c] ==> |r| >= 2 && r[0] == '\\'
  {
    if c == '"' then "\\\""
    else if c == '\\' then "\\\\"
    else if c == '\n' then "\\n"
    else if c == '\r' then "\\r"
    else if c == '\t' then "\\t"
    else if c as int == 0x08 then "\\b"
    else if c as int == 0x0C then "\\f"
    else if (c as int) < 0x20 then "\\u00" + [HexDigits[c as int / 16], HexDigits[c as int % 16]]
    else [c]
  }

  /** The escaped text of a string: never shorter, and empty only for the empty string. */
  function Escape(s: string): (r: string)
    ensures |r| >= |s|
    ensures r == [] <==> s == []
  {
    if s == [] then "" else EscapeChar(s[0]) + Escape(s[1..])
  }

  /** A string literal as serde_json writes it. */
  function Quote(s: string): string
  {
    "\"" + Escape(s) + "\""
  }

  /** Comma-separated concatenation. */
  function Join(parts: seq<string>): string
  {
    if parts == [] then ""
    else if |parts| == 1 then parts[0]
    else parts[0] + "," + Join(parts[1..])
  }

  /** serde_json's `Value::to_string`: compact JSON text. */
  function Render(v: Json): (r: string)
    ensures |r| > 0
    ensures v.Str? ==> |r| >= 2 && r[0] == '"' && r[|r| - 1] == '"'
    ensures v.Arr? ==> |r| >= 2 && r[0] == '[' && r[|r| - 1] == ']'
    ensures v.Obj? ==> |r| >= 2 && r[0] == '{' && r[|r| - 1] == '}'
    ensures v.Num? ==> (r[0] == '-' <==> v.n < 0)
    decreases v
  {
    match v
    case Null => "null"
    case Bool(b) => if b then "true" else "false"
    case Num(n) => IntToString(n)
    case Str(s) => Quote(s)
    case Arr(items) =>
      "[" + Join(seq(|items|, i requires 0 <= i < |items| => Render(items[i]))) + "]"
    case Obj(entries) =>
      "{" + Join(seq(|entries|, i requires 0 <= i < |entries| => Quote(entries[i].0) + ":" + Render(entries[i].1))) + "}"
  }

  // ---------------------------------------------------------------------------
  // Facts about the rendered text
  // ---------------------------------------------------------------------------

  /** No control character: the text stays on one line. */
  predicate Printable(s: string)
  {
    forall k :: 0 <= k < |s| ==> (s[k] as int) >= 0x20
  }

  /** Text that serde_json copies unchanged into a string literal. */
  predicate Plain(s: string)
  {
    forall k :: 0 <= k < |s| ==> s[k] != '"' && s[k] != '\\' && (s[k] as int) >= 0x20
  }

  lemma PrintableAppend(a: string, b: string)
    requires Printable(a) && Printable(b)
    ensures Printable(a + b)
  {
    forall k | 0 <= k < |a + b| ensures ((a + b)[k] as int) >= 0x20 {
      if k < |a| { assert (a + b)[k] == a[k]; } else { assert (a + b)[k] == b[k - |a|]; }
    }
  }

  lemma PrintableHasNoNewline(s: string)
    requires Printable(s)
    ensures '\n' !in s
  {
    forall k | 0 <= k < |s| ensures s[k] != '\n' {
      assert (s[k] as int) >= 0x20;
    }
  }

  lemma HexEscapePrintable(n: nat)
    requires n < 0x20
    ensures Printable("\\u00" + [HexDigits[n / 16], HexDigits[n % 16]])
  {
    assert forall d :: d in HexDigits ==> (d as int) >= 0x30;
    assert HexDigits[n / 16] in HexDigits && HexDigits[n % 16] in HexDigits;
  }

  /** Every escape is printable: control characters become backslash sequences. */
  lemma EscapeCharPrintable(c: char)
    ensures Printable(EscapeChar(c))
  {
    if c == '"' || c == '\\' || c == '\n' || c == '\r' || c == '\t' || c as int == 0x08 || c as int == 0x0C {
    } else if (c as int) < 0x20 {
      HexEscapePrintable(c as int);
    }
  }

  lemma {:induction false} EscapePrintable(s: string)
    ensures Printable(Escape(s))
  {
    if s != [] {
      EscapePrintable(s[1..]);
      EscapeCharPrintable(s[0]);
      PrintableAppend(EscapeChar(s[0]), Escape(s[1..]));
    }
  }

  lemma QuotePrintable(s: string)
    ensures Printable(Quote(s))
  {
    EscapePrintable(s);
    PrintableAppend("\"", Escape(s));
    PrintableAppend("\"" + Escape(s), "\"");
  }

  lemma {:induction false} JoinPrintable(parts: seq<string>)
    requires forall k :: 0 <= k < |parts| ==> Printable(parts[k])
    ensures Printable(Join(parts))
  {
    if |parts| > 1 {
      JoinPrintable(parts[1..]);
      PrintableAppend(parts[0], ",");
      PrintableAppend(parts[0] + ",", Join(parts[1..]));
    }
  }

  /** Rendered JSON never contains a control character; in particular it is one line of text. */
  lemma {:induction false} RenderPrintable(v: Json)
    ensures Printable(Render(v))
    ensures '\n' !in Render(v)
    decreases v
  {
    match v {
      case Null =>
      case Bool(b) =>
      case Num(n) =>
        var r := IntToString(n);
        forall k | 0 <= k < |r| ensures (r[k] as int) >= 0x20 {
          if k > 0 || n >= 0 { assert IsDigit(r[k]); }
        }
      case Str(s) => QuotePrintable(s);
      case Arr(items) =>
        var parts := seq(|items|, i requires 0 <= i < |items| => Render(items[i]));
        forall k | 0 <= k < |parts| ensures Printable(parts[k]) {
          RenderPrintable(items[k]);
        }
        JoinPrintable(parts);
        PrintableAppend("[", Join(parts));
        PrintableAppend("[" + Join(parts), "]");
      case Obj(entries) =>
        var parts := seq(|entries|, i requires 0 <= i < |entries| => Quote(entries[i].0) + ":" + Render(entries[i].1));
        forall k | 0 <= k < |parts| ensures Printable(parts[k]) {
          RenderPrintable(entries[k].1);
          QuotePrintable(entries[k].0);
          PrintableAppend(Quote(entries[k].0), ":");
          PrintableAppend(Quote(entries[k].0) + ":", Render(entries[k].1));
        }
        JoinPrintable(parts);
        PrintableAppend("{", Join(parts));
        PrintableAppend("{" + Join(parts), "}");
    }
    PrintableHasNoNewline(Render(v));
  }

  lemma EscapeCharPlain(c: char)
    requires c != '"' && c != '\\' && (c as int) >= 0x20
    ensures EscapeChar(c) == [c]
  {
  }

  /** Plain text is not altered by escaping. */
  lemma {:induction false} EscapePlain(s: string)
    requires Plain(s)
    ensures Escape(s) == s
  {
    if s != [] {
      EscapeCharPlain(s[0]);
      assert Plain(s[1..]);
      EscapePlain(s[1..]);
      assert s == [s[0]] + s[1..];
    }
  }

  /** A plain string renders as itself between double quotes. */
  lemma RenderPlainString(s: string)
    requires Plain(s)
    ensures Render(Str(s)) == "\"" + s + "\""
    ensures '"' !in s
  {
    EscapePlain(s);
    forall k | 0 <= k < |s| ensures s[k] != '"' { }
  }
}
