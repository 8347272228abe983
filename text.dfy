/**
 * String operations of the Rust standard library that the bot's formatting
 * code relies on: `str::replace`, `str::trim`, `format!("{}\n", ..)` line
 * building, and the decimal `Display` of integers.
 */
module Text {

  // ---------------------------------------------------------------------------
  // str::replace
  // ---------------------------------------------------------------------------

  /** `pat` occurs in `s` starting at index `i`. */
  predicate OccursAt(s: string, pat: string, i: nat)
  {
    i + |pat| <= |s| && s[i..i + |pat|] == pat
  }

  /**
   * Rust's `s.replace(pat, rep)`: scan left to right and replace every
   * non-overlapping occurrence of `pat` by `rep`.
   */
  function ReplaceAll(s: string, pat: string, rep: string): (r: string)
    requires |pat| > 0
    ensures rep == pat ==> r == s
    ensures |rep| == |pat| ==> |r| == |s|
    decreases |s|
  {
    if |s| < |pat| then s
    else if s[..|pat|] == pat then rep + ReplaceAll(s[|pat|..], pat, rep)
    else [s[0]] + ReplaceAll(s[1..], pat, rep)
  }

  /** Replacing a one-character pattern by text without that character leaves none of it. */
  lemma {:induction false} ReplaceAllRemovesChar(s: string, c: char, rep: string)
    requires c !in rep
    ensures c !in ReplaceAll(s, [c], rep)
    decreases |s|
  {
    if |s| >= 1 {
      if s[..1] == [c] {
        ReplaceAllRemovesChar(s[1..], c, rep);
      } else {
        assert s[0] != c by { assert s[..1][0] == s[0]; }
        ReplaceAllRemovesChar(s[1..], c, rep);
      }
    }
  }

  /** A character that is in neither the subject nor the replacement is not in the result. */
  lemma {:induction false} ReplaceAllKeepsAbsent(s: string, pat: string, rep: string, c: char)
    requires |pat| > 0 && c !in s && c !in rep
    ensures c !in ReplaceAll(s, pat, rep)
    decreases |s|
  {
    if |s| >= |pat| {
      if s[..|pat|] == pat {
        ReplaceAllKeepsAbsent(s[|pat|..], pat, rep, c);
      } else {
        ReplaceAllKeepsAbsent(s[1..], pat, rep, c);
      }
    }
  }

  /** When the pattern never occurs, replacing changes nothing. */
  lemma {:induction false} ReplaceAllAbsentPattern(s: string, pat: string, rep: string)
    requires |pat| > 0
    requires forall i: nat :: !OccursAt(s, pat, i)
    ensures ReplaceAll(s, pat, rep) == s
    decreases |s|
  {
    if |s| >= |pat| {
      assert !OccursAt(s, pat, 0);
      forall i: nat ensures !OccursAt(s[1..], pat, i) {
        assert !OccursAt(s, pat, i + 1);
        if i + |pat| <= |s| - 1 {
          assert s[i + 1..i + 1 + |pat|] == s[1..][i..i + |pat|];
        }
      }
      ReplaceAllAbsentPattern(s[1..], pat, rep);
    }
  }

  /** Replacing a one-character pattern distributes over concatenation. */
  lemma {:induction false} ReplaceCharAppend(s: string, t: string, c: char, rep: string)
    ensures ReplaceAll(s + t, [c], rep) == ReplaceAll(s, [c], rep) + ReplaceAll(t, [c], rep)
    decreases |s|
  {
    if s != [] {
      assert (s + t)[..1] == s[..1];
      assert (s + t)[1..] == s[1..] + t;
      ReplaceCharAppend(s[1..], t, c, rep);
    } else {
      assert s + t == t;
    }
  }

  /** Where the pattern does not start the subject, the scan keeps the first character and moves on. */
  lemma ReplaceAllSkip(s: string, pat: string, rep: string)
    requires |pat| > 0 && |s| > 0 && !OccursAt(s, pat, 0)
    ensures ReplaceAll(s, pat, rep) == [s[0]] + ReplaceAll(s[1..], pat, rep)
  {
    if |s| < |pat| {
      assert s == [s[0]] + s[1..];
    }
  }

  /** One character that differs from the pattern's is enough to rule out an occurrence. */
  lemma NoOccurrenceAt(s: string, pat: string, k: nat)
    requires k < |pat|
    requires |s| < |pat| || s[k] != pat[k]
    ensures !OccursAt(s, pat, 0)
  {
    if |s| >= |pat| {
      assert s[..|pat|][k] == s[k];
    }
  }

  /** Where the pattern starts the subject, it is replaced and the scan resumes after it. */
  lemma ReplaceAllMatch(s: string, pat: string, rep: string)
    requires |pat| > 0 && OccursAt(s, pat, 0)
    ensures ReplaceAll(s, pat, rep) == rep + ReplaceAll(s[|pat|..], pat, rep)
  {
  }

  /** A leading occurrence of the pattern is replaced and the scan resumes after it. */
  lemma ReplaceAllFront(pat: string, x: string, rep: string)
    requires |pat| > 0
    ensures ReplaceAll(pat + x, pat, rep) == rep + ReplaceAll(x, pat, rep)
  {
    var s := pat + x;
    assert s[..|pat|] == pat;
    assert s[|pat|..] == x;
  }

  /** A leading character that cannot start the pattern is kept as it is. */
  lemma ReplaceAllKeepFront(c: char, x: string, pat: string, rep: string)
    requires |pat| > 0 && c != pat[0]
    ensures ReplaceAll([c] + x, pat, rep) == [c] + ReplaceAll(x, pat, rep)
  {
    var s := [c] + x;
    NoOccurrenceAt(s, pat, 0);
    ReplaceAllSkip(s, pat, rep);
    assert s[1..] == x;
  }

  /** Every character of the result comes from the subject or from the replacement. */
  lemma {:induction false} ReplaceAllChars(s: string, pat: string, rep: string)
    requires |pat| > 0
    ensures forall c :: c in ReplaceAll(s, pat, rep) ==> c in s || c in rep
    decreases |s|
  {
    if |s| >= |pat| {
      if s[..|pat|] == pat {
        ReplaceAllChars(s[|pat|..], pat, rep);
        forall c | c in s[|pat|..] ensures c in s {
          var k :| 0 <= k < |s[|pat|..]| && s[|pat|..][k] == c;
          assert s[|pat| + k] == c;
        }
      } else {
        ReplaceAllChars(s[1..], pat, rep);
        assert s == [s[0]] + s[1..];
      }
    }
  }

  /** Rust's `s.replace('"', "")`, used on every rendered JSON value the bot displays. */
  function StripQuotes(s: string): (r: string)
    ensures '"' !in r
    ensures forall c :: c != '"' && c in s ==> c in r
    ensures forall c :: c in r ==> c in s
  {
    ReplaceAllRemovesChar(s, '"', "");
    StripQuotesKeeps(s);
    ReplaceAll(s, "\"", "")
  }

  lemma {:induction false} StripQuotesKeeps(s: string)
    ensures forall c :: c != '"' && c in s ==> c in ReplaceAll(s, "\"", "")
    ensures forall c :: c in ReplaceAll(s, "\"", "") ==> c in s
    decreases |s|
  {
    if |s| >= 1 {
      StripQuotesKeeps(s[1..]);
      assert s == [s[0]] + s[1..];
      if s[..1] == "\"" {
        assert s[0] == '"' by { assert s[..1][0] == s[0]; }
      }
    }
  }

  /** A leading quote is removed. */
  lemma StripQuotesFront(t: string)
    ensures StripQuotes("\"" + t) == StripQuotes(t)
  {
    ReplaceAllFront("\"", t, "");
  }

  /** A leading character other than a quote is kept. */
  lemma StripQuotesKeepFront(c: char, t: string)
    requires c != '"'
    ensures StripQuotes([c] + t) == [c] + StripQuotes(t)
  {
    ReplaceAllKeepFront(c, t, "\"", "");
  }

  /** Quotes around quote-free text are exactly what stripping removes. */
  lemma StripQuotesOfQuoted(s: string)
    requires '"' !in s
    ensures StripQuotes("\"" + s + "\"") == s
  {
    StripQuotesIdentity(s);
    ReplaceCharAppend("\"" + s, "\"", '"', "");
    ReplaceCharAppend("\"", s, '"', "");
  }

  /** Removing quotes from text that has none is the identity, so stripping is idempotent. */
  lemma StripQuotesIdentity(s: string)
    requires '"' !in s
    ensures StripQuotes(s) == s
  {
    forall i: nat ensures !OccursAt(s, "\"", i) {
      if i + 1 <= |s| {
        assert s[i..i + 1][0] == s[i];
        assert s[i] in s;
      }
    }
    ReplaceAllAbsentPattern(s, "\"", "");
  }

  // ---------------------------------------------------------------------------
  // str::trim
  // ---------------------------------------------------------------------------

  /** Rust's `char::is_whitespace`: the Unicode `White_Space` property. */
  predicate IsWhitespace(c: char)
  {
    var n := c as int;
    (0x09 <= n <= 0x0D) || n == 0x20 || n == 0x85 || n == 0xA0 || n == 0x1680
    || (0x2000 <= n <= 0x200A) || n == 0x2028 || n == 0x2029 || n == 0x202F
    || n == 0x205F || n == 0x3000
  }

  /** `r` neither starts nor ends with whitespace. */
  predicate Tight(r: string)
  {
    r == [] || (!IsWhitespace(r[0]) && !IsWhitespace(r[|r| - 1]))
  }

  /** `s[i..j]` is what remains of `s` once whitespace is cut off at both ends. */
  predicate TrimmedAt(s: string, i: nat, j: nat)
  {
    i <= j <= |s|
    && (forall k :: 0 <= k < i ==> IsWhitespace(s[k]))
    && (forall k :: j <= k < |s| ==> IsWhitespace(s[k]))
    && (i < j ==> !IsWhitespace(s[i]) && !IsWhitespace(s[j - 1]))
  }

  /** The first index at or after `i` that does not hold whitespace (or `|s|`). */
  function TrimStart(s: string, i: nat): (n: nat)
    requires i <= |s|
    ensures i <= n <= |s|
    ensures forall k :: i <= k < n ==> IsWhitespace(s[k])
    ensures n == |s| || !IsWhitespace(s[n])
    decreases |s| - i
  {
    if i == |s| || !IsWhitespace(s[i]) then i else TrimStart(s, i + 1)
  }

  /** The least `n` no smaller than `lo` such that `s[n..j]` is all whitespace. */
  function TrimEnd(s: string, lo: nat, j: nat): (n: nat)
    requires lo <= j <= |s|
    ensures lo <= n <= j
    ensures forall k :: n <= k < j ==> IsWhitespace(s[k])
    ensures n == lo || !IsWhitespace(s[n - 1])
  {
    if j == lo || !IsWhitespace(s[j - 1]) then j else TrimEnd(s, lo, j - 1)
  }

  /** Rust's `str::trim`: strip leading and trailing whitespace. */
  function Trim(s: string): (r: string)
    ensures exists i: nat, j: nat :: TrimmedAt(s, i, j) && r == s[i..j]
  {
    var i := TrimStart(s, 0);
    var j := TrimEnd(s, i, |s|);
    assert TrimmedAt(s, i, j);
    s[i..j]
  }

  /** Only one infix of `s` is a trim of it, so `Trim`'s contract determines its result. */
  lemma TrimUnique(s: string, i: nat, j: nat)
    requires TrimmedAt(s, i, j)
    ensures s[i..j] == Trim(s)
  {
    var i' := TrimStart(s, 0);
    var j' := TrimEnd(s, i', |s|);
    if i < j {
      assert i' == i;
      assert j' == j;
    } else {
      assert i' == |s|;
    }
  }

  /** The result of trimming neither starts nor ends with whitespace. */
  lemma TrimTight(s: string)
    ensures Tight(Trim(s))
  {
    var i := TrimStart(s, 0);
    var j := TrimEnd(s, i, |s|);
    if i < j {
      assert s[i..j][0] == s[i];
      assert s[i..j][j - i - 1] == s[j - 1];
    }
  }

  /** Trimming only removes characters: whatever is in the result was in the input. */
  lemma TrimChars(s: string)
    ensures forall c :: c in Trim(s) ==> c in s
  {
    var i := TrimStart(s, 0);
    var j := TrimEnd(s, i, |s|);
    var t := s[i..j];
    forall c | c in t ensures c in s {
      var k :| 0 <= k < |t| && t[k] == c;
      assert s[i + k] == c;
    }
  }

  /** Trimming twice is trimming once. */
  lemma TrimIdempotent(s: string)
    ensures Trim(Trim(s)) == Trim(s)
  {
    var t := Trim(s);
    TrimTight(s);
    assert t[0..|t|] == t;
    assert TrimmedAt(t, 0, |t|);
    TrimUnique(t, 0, |t|);
  }

  // ---------------------------------------------------------------------------
  // Newline-terminated columns (`format!("{}\n", ..)` pushed once per row)
  // ---------------------------------------------------------------------------

  /** The text of a column: every row followed by one line break. */
  function Terminated(rows: seq<string>): (r: string)
  {
    if rows == [] then "" else rows[0] + "\n" + Terminated(rows[1..])
  }

  /** Appending one more row appends that row and a line break. */
  lemma {:induction false} TerminatedSnoc(rows: seq<string>, row: string)
    ensures Terminated(rows + [row]) == Terminated(rows) + row + "\n"
  {
    if rows == [] {
      assert rows + [row] == [row];
    } else {
      assert (rows + [row])[1..] == rows[1..] + [row];
      TerminatedSnoc(rows[1..], row);
    }
  }

  /** Index of the first line break in `s`, or `|s|` when there is none. */
  function LineEnd(s: string): (k: nat)
    ensures k <= |s|
    ensures forall m :: 0 <= m < k ==> s[m] != '\n'
    ensures k < |s| ==> s[k] == '\n'
    decreases |s|
  {
    if s == [] || s[0] == '\n' then 0 else 1 + LineEnd(s[1..])
  }

  /** The rows of a displayed column: the text split after each line break. */
  function Lines(s: string): (rows: seq<string>)
    decreases |s|
  {
    if s == [] then []
    else
      var k := LineEnd(s);
      if k == |s| then [s] else [s[..k]] + Lines(s[k + 1..])
  }

  /** The first line break of `head + rest` is the one `rest` starts with. */
  lemma LineEndAfterHead(head: string, rest: string)
    requires '\n' !in head && |rest| > 0 && rest[0] == '\n'
    ensures LineEnd(head + rest) == |head|
  {
    var s := head + rest;
    forall m | 0 <= m < |head| ensures s[m] != '\n' {
      assert s[m] == head[m];
      assert head[m] in head;
    }
    assert s[|head|] == rest[0];
  }

  /** A line with no break of its own, followed by a break, splits off as the first row. */
  lemma SplitAtBreak(head: string, tail: string)
    requires '\n' !in head
    ensures Lines(head + "\n" + tail) == [head] + Lines(tail)
  {
    var s := head + "\n" + tail;
    assert s == head + ("\n" + tail);
    LineEndAfterHead(head, "\n" + tail);
    assert s[..|head|] == head;
    assert s[|head| + 1..] == tail;
  }

  /** Splitting a column built from rows that hold no line break gives the rows back. */
  lemma {:induction false} LinesOfTerminated(rows: seq<string>)
    requires forall k :: 0 <= k < |rows| ==> '\n' !in rows[k]
    ensures Lines(Terminated(rows)) == rows
  {
    if rows != [] {
      SplitAtBreak(rows[0], Terminated(rows[1..]));
      LinesOfTerminated(rows[1..]);
    }
  }

  /** The number of line breaks in `s`. */
  function CountNewlines(s: string): (n: nat)
    ensures n <= |s|
  {
    if s == [] then 0 else (if s[0] == '\n' then 1 else 0) + CountNewlines(s[1..])
  }

  lemma {:induction false} CountNewlinesAppend(a: string, b: string)
    ensures CountNewlines(a + b) == CountNewlines(a) + CountNewlines(b)
  {
    if a != [] {
      assert (a + b)[1..] == a[1..] + b;
      CountNewlinesAppend(a[1..], b);
    } else {
      assert a + b == b;
    }
  }

  lemma {:induction false} CountNewlinesNone(s: string)
    requires '\n' !in s
    ensures CountNewlines(s) == 0
  {
    if s != [] {
      assert s[0] in s;
      assert forall c :: c in s[1..] ==> c in s;
      CountNewlinesNone(s[1..]);
    }
  }

  /** A column of `n` one-line rows holds exactly `n` line breaks and, unless empty, ends with one. */
  lemma {:induction false} TerminatedShape(rows: seq<string>)
    requires forall k :: 0 <= k < |rows| ==> '\n' !in rows[k]
    ensures CountNewlines(Terminated(rows)) == |rows|
    ensures rows != [] ==> |Terminated(rows)| > 0 && Terminated(rows)[|Terminated(rows)| - 1] == '\n'
  {
    if rows != [] {
      TerminatedShape(rows[1..]);
      assert Terminated(rows) == rows[0] + ("\n" + Terminated(rows[1..]));
      CountNewlinesNone(rows[0]);
      CountNewlinesAppend(rows[0], "\n" + Terminated(rows[1..]));
      CountNewlinesAppend("\n", Terminated(rows[1..]));
    }
  }

  /** A character missing from every row is missing from the column, except the line break itself. */
  lemma {:induction false} TerminatedAvoids(rows: seq<string>, c: char)
    requires c != '\n'
    requires forall k :: 0 <= k < |rows| ==> c !in rows[k]
    ensures c !in Terminated(rows)
  {
    if rows != [] {
      TerminatedAvoids(rows[1..], c);
    }
  }

  // ---------------------------------------------------------------------------
  // Integer Display
  // ---------------------------------------------------------------------------

  predicate IsDigit(c: char)
  {
    '0' <= c <= '9'
  }

  function DigitChar(d: nat): (c: char)
    requires d < 10
    ensures IsDigit(c)
  {
    ['0', '1', '2', '3', '4', '5', '6', '7', '8', '9'][d]
  }

  /** Decimal digits of `n`, most significant first, with no leading zero. */
  function NatToString(n: nat): (r: string)
    ensures |r| > 0
    ensures forall k :: 0 <= k < |r| ==> IsDigit(r[k])
    ensures |r| > 1 ==> r[0] != '0'
  {
    if n < 10 then [DigitChar(n)] else NatToString(n / 10) + [DigitChar(n % 10)]
  }

  /** Value of a string of decimal digits. */
  function DigitsValue(s: string): (v: nat)
    requires forall k :: 0 <= k < |s| ==> IsDigit(s[k])
  {
    if s == [] then 0
    else
      assert IsDigit(s[|s| - 1]);
      10 * DigitsValue(s[..|s| - 1]) + (s[|s| - 1] as int - '0' as int)
  }

  /** Reading the decimal text back gives the number: `NatToString` loses nothing. */
  lemma {:induction false} NatToStringRoundTrip(n: nat)
    ensures DigitsValue(NatToString(n)) == n
  {
    if n >= 10 {
      NatToStringRoundTrip(n / 10);
      var s := NatToString(n);
      assert s[..|s| - 1] == NatToString(n / 10);
    }
  }

  /** Rust's `Display` for signed integers: a minus sign before the digits of a negative value. */
  function IntToString(i: int): (r: string)
    ensures |r| > 0
    ensures forall k :: 0 < k < |r| ==> IsDigit(r[k])
    ensures i < 0 <==> r[0] == '-'
    ensures i >= 0 ==> IsDigit(r[0])
  {
    if i < 0 then "-" + NatToString(-i) else NatToString(i)
  }

  /** A decimal integer is printed on one line and contains no quote or backslash. */
  lemma IntToStringPlain(i: int)
    ensures '\n' !in IntToString(i) && '"' !in IntToString(i) && '\\' !in IntToString(i)
  {
    var r := IntToString(i);
    forall k | 0 <= k < |r| ensures r[k] != '\n' && r[k] != '"' && r[k] != '\\' {
      if k > 0 || i >= 0 { assert IsDigit(r[k]); }
    }
  }
}
