/**
 * The `/text` command: the option value is sent to the OpenAI chat
 * completions endpoint, a placeholder message is shown while the answer is
 * generated, and the placeholder is then edited to show the answer's text
 * after a fixed chain of replacements and a trim.
 */
module OpenAi {
  import opened Wrappers
  import opened Text
  import opened Json
  import opened Io
  import Dispatch

  const Model: string := "gpt-3.5-turbo-0301"
  const Url: string := "https://api.openai.com/v1/chat/completions"
  const MaxTokens: int := 2000

  const NoResponse: string := "Did not receive a response from Open Ai :("
  const NoText: string := "Could not pass text to AI"

  /** Text shown inside a code block, as `format!("```{}```", ..)` writes it. */
  function CodeBlock(text: string): (r: string)
    ensures |r| == |text| + 6 && r[..3] == "```" && r[3..|r| - 3] == text && r[|r| - 3..] == "```"
  {
    "```" + text + "```"
  }

  const Placeholder: string := CodeBlock("Please wait... Fetching response...")

  // ---------------------------------------------------------------------------
  // The request body (`create_request`)
  // ---------------------------------------------------------------------------

  /** The path of the prompt text inside a request body. */
  const PromptPath: Path := [Key("messages"), Index(0), Key("content")]

  /**
   * The `json!` body of the request, with its keys in serde_json's sorted
   * order. The prompt is the option value's JSON text followed by a period.
   */
  function RequestBody(val: Json): (body: Json)
    ensures Get(body, [Key("model")]) == Str(Model)
    ensures Get(body, [Key("max_tokens")]) == Num(MaxTokens)
    ensures Field(body, "messages").Arr? && |Field(body, "messages").items| == 1
    ensures Get(body, [Key("messages"), Index(0), Key("role")]) == Str("user")
    ensures Get(body, PromptPath) == Str(Render(val) + ".")
  {
    var prompt := Str(Render(val) + ".");
    TopLevelPaths(Message(prompt));
    MessagePaths(prompt);
    Body(Message(prompt))
  }

  /** The one message of a request, asking as the user. */
  function Message(prompt: Json): (message: Json)
    ensures Field(message, "content") == prompt && Field(message, "role") == Str("user")
  {
    MessageFields(prompt);
    Obj([("content", prompt), ("role", Str("user"))])
  }

  /** A request body around its one message. */
  function Body(message: Json): (body: Json)
    ensures Field(body, "model") == Str(Model) && Field(body, "max_tokens") == Num(MaxTokens)
    ensures Field(body, "messages") == Arr([message])
  {
    BodyFields(message);
    Obj([("max_tokens", Num(MaxTokens)), ("messages", Arr([message])), ("model", Str(Model))])
  }

  /** The model, the token limit and the message list are found at the top of a body. */
  lemma TopLevelPaths(message: Json)
    ensures Get(Body(message), [Key("model")]) == Str(Model)
    ensures Get(Body(message), [Key("max_tokens")]) == Num(MaxTokens)
    ensures Field(Body(message), "messages") == Arr([message])
  {
    BodyFields(message);
    GetKeys(Body(message), Key("model"), []);
    GetKeys(Body(message), Key("max_tokens"), []);
  }

  /** The role and the prompt are found through the message list. */
  lemma MessagePaths(prompt: Json)
    ensures Get(Body(Message(prompt)), [Key("messages"), Index(0), Key("role")]) == Str("user")
    ensures Get(Body(Message(prompt)), [Key("messages"), Index(0), Key("content")]) == prompt
  {
    MessageFields(prompt);
    ThroughMessages(Message(prompt), "role");
    ThroughMessages(Message(prompt), "content");
  }

  /** A key under the first message is looked up in that message. */
  lemma ThroughMessages(message: Json, key: string)
    ensures Get(Body(message), [Key("messages"), Index(0), Key(key)]) == Field(message, key)
  {
    var path := [Key("messages"), Index(0), Key(key)];
    calc {
      Get(Body(message), path);
      { assert path[0] == Key("messages") && path[1..] == [Index(0), Key(key)]; }
      Get(Field(Body(message), "messages"), [Index(0), Key(key)]);
      { BodyFields(message); }
      Get(Arr([message]), [Index(0), Key(key)]);
      { assert [Index(0), Key(key)][1..] == [Key(key)]; }
      Get(message, [Key(key)]);
      { assert [Key(key)][1..] == []; }
      Field(message, key);
    }
  }

  /** The two entries of the one message, each found under its own key. */
  lemma MessageFields(text: Json)
    ensures Field(Obj([("content", text), ("role", Str("user"))]), "content") == text
    ensures Field(Obj([("content", text), ("role", Str("user"))]), "role") == Str("user")
  {
    var content := ("content", text);
    var role := ("role", Str("user"));
    assert [content, role] == [content] + [role];
    LookupHead("content", text, [role]);
    assert |"content"| != |"role"|;
    LookupSkip(content, [role], "role");
    LookupHead("role", Str("user"), []);
    assert [role] == [role] + [];
  }

  /** The three entries of the body, each found under its own key. */
  lemma BodyFields(message: Json)
    ensures Field(Obj([("max_tokens", Num(MaxTokens)), ("messages", Arr([message])), ("model", Str(Model))]), "max_tokens") == Num(MaxTokens)
    ensures Field(Obj([("max_tokens", Num(MaxTokens)), ("messages", Arr([message])), ("model", Str(Model))]), "messages") == Arr([message])
    ensures Field(Obj([("max_tokens", Num(MaxTokens)), ("messages", Arr([message])), ("model", Str(Model))]), "model") == Str(Model)
  {
    var tokens := ("max_tokens", Num(MaxTokens));
    var messages := ("messages", Arr([message]));
    var model := ("model", Str(Model));
    assert [tokens, messages, model] == [tokens] + ([messages] + [model]);
    assert [messages] + [model] == [messages, model];
    LookupHead("max_tokens", Num(MaxTokens), [messages, model]);
    assert |"max_tokens"| != |"messages"| && |"max_tokens"| != |"model"| && |"messages"| != |"model"|;
    LookupSkip(tokens, [messages, model], "messages");
    LookupHead("messages", Arr([message]), [model]);
    LookupSkip(tokens, [messages, model], "model");
    LookupSkip(messages, [model], "model");
    LookupHead("model", Str(Model), []);
    assert [model] == [model] + [];
  }

  /** Following a path one segment at a time. */
  lemma GetKeys(v: Json, seg: Segment, rest: Path)
    ensures Get(v, [seg] + rest) == Get(Step(v, seg), rest)
  {
    assert ([seg] + rest)[1..] == rest;
  }

  /** A prompt typed as plain text reaches the model between double quotes, then the period. */
  lemma PromptOfPlainText(s: string)
    requires Plain(s)
    ensures Get(RequestBody(Str(s)), PromptPath) == Str("\"" + s + "\".")
  {
    RenderPlainString(s);
    assert "\"" + s + "\"" + "." == "\"" + s + "\".";
  }

  // ---------------------------------------------------------------------------
  // parse_text
  // ---------------------------------------------------------------------------

  /** Where the answer's text sits in a chat completion. */
  const ContentPath: Path := [Key("choices"), Index(0), Key("message"), Key("content")]

  /**
   * The replacement chain and trim applied to the JSON text of the answer:
   * escaped blank lines, then escaped line breaks, become spaces; escaped
   * quotes, then all remaining quotes, are removed; the result is trimmed.
   */
  function Sanitise(rendered: string): (r: string)
    ensures '"' !in r
    ensures Tight(r)
  {
    var blankLines := ReplaceAll(rendered, "\\n\\n", " ");
    var lineBreaks := ReplaceAll(blankLines, "\\n", " ");
    var escapedQuotes := ReplaceAll(lineBreaks, "\\\"", "");
    var unquoted := StripQuotes(escapedQuotes);
    TrimChars(unquoted);
    TrimTight(unquoted);
    Trim(unquoted)
  }

  /** A result free of line breaks stays free of them: the answer is shown on one line. */
  lemma SanitiseOneLine(rendered: string)
    requires '\n' !in rendered
    ensures '\n' !in Sanitise(rendered)
  {
    var blankLines := ReplaceAll(rendered, "\\n\\n", " ");
    var lineBreaks := ReplaceAll(blankLines, "\\n", " ");
    var escapedQuotes := ReplaceAll(lineBreaks, "\\\"", "");
    ReplaceAllKeepsAbsent(rendered, "\\n\\n", " ", '\n');
    ReplaceAllKeepsAbsent(blankLines, "\\n", " ", '\n');
    ReplaceAllKeepsAbsent(lineBreaks, "\\\"", "", '\n');
    TrimChars(StripQuotes(escapedQuotes));
  }

  /** `parse_text`'s argument: the body text, given here already parsed (`None` when it is not JSON), or a read error. */
  datatype BodyText = BodyOk(json: Option<Json>) | BodyErr

  /** What `parse_text` produces: the text to show, or a panic. */
  datatype Parsed = Shown(text: string) | Fails(message: string)

  function ParseText(response: BodyText): (p: Parsed)
    ensures response == BodyErr ==> p == Shown(NoResponse)
    ensures p.Fails? <==> response == BodyOk(None)
    ensures p.Fails? ==> p.message == UnwrapPanic
    ensures response.BodyOk? && p.Shown? ==> '"' !in p.text && '\n' !in p.text && Tight(p.text)
  {
    match response
    case BodyErr => Shown(NoResponse)
    case BodyOk(None) => Fails(UnwrapPanic)
    case BodyOk(Some(v)) =>
      var rendered := Render(Get(v, ContentPath));
      RenderPrintable(Get(v, ContentPath));
      SanitiseOneLine(rendered);
      Shown(Sanitise(rendered))
  }

  /** An answer without the content path (an error object, say) is shown as the text `null`. */
  lemma MissingContentShowsNull(v: Json)
    requires Get(v, ContentPath) == Null
    ensures ParseText(BodyOk(Some(v))) == Shown("null")
  {
    assert Render(Get(v, ContentPath)) == "null";
    SanitiseNull();
  }

  /** The replacements and the trim leave the text `null` as it is. */
  lemma SanitiseNull()
    ensures Sanitise("null") == "null"
  {
    var s := "null";
    NoBackslashUnchanged(s, "\\n\\n", " ");
    NoBackslashUnchanged(s, "\\n", " ");
    NoBackslashUnchanged(s, "\\\"", "");
    StripQuotesIdentity(s);
    assert s[0..4] == s;
    assert TrimmedAt(s, 0, 4);
    TrimUnique(s, 0, 4);
  }

  // ---------------------------------------------------------------------------
  // What the sanitiser does to an ordinary answer
  // ---------------------------------------------------------------------------

  /** A character of an ordinary answer: anything but a backslash or a control character other than a line break. */
  predicate ReplyChar(c: char)
  {
    c != '\\' && ((c as int) >= 0x20 || c == '\n')
  }

  predicate ReplyText(t: string)
  {
    forall k :: 0 <= k < |t| ==> ReplyChar(t[k])
  }

  /** Line breaks on the answer's own text: each blank line, then each remaining line break, becomes a space. */
  function Flatten(t: string): (r: string)
    ensures '\n' !in r
  {
    ReplaceAllRemovesChar(ReplaceAll(t, "\n\n", " "), '\n', " ");
    ReplaceAll(ReplaceAll(t, "\n\n", " "), "\n", " ")
  }

  lemma ReplyTextTail(t: string, n: nat)
    requires ReplyText(t) && n <= |t|
    ensures ReplyText(t[n..])
  {
    forall k | 0 <= k < |t[n..]| ensures ReplyChar(t[n..][k]) {
      assert t[n..][k] == t[n + k];
    }
  }

  /** Replacing by spaces keeps an ordinary answer ordinary. */
  lemma ReplyTextReplaced(t: string, pat: string)
    requires ReplyText(t) && |pat| > 0
    ensures ReplyText(ReplaceAll(t, pat, " "))
  {
    var r := ReplaceAll(t, pat, " ");
    ReplaceAllChars(t, pat, " ");
    forall k | 0 <= k < |r| ensures ReplyChar(r[k]) {
      assert r[k] in r;
      if r[k] in t {
        var m :| 0 <= m < |t| && t[m] == r[k];
      }
    }
  }

  /** Escaping one character and then the rest is escaping the whole. */
  lemma EscapeCons(c: char, y: string)
    ensures Escape([c] + y) == EscapeChar(c) + Escape(y)
  {
    assert ([c] + y)[1..] == y;
  }

  /** How serde_json escapes the characters of an ordinary answer. */
  lemma EscapeReplyChar(c: char)
    requires ReplyChar(c)
    ensures c == '\n' ==> EscapeChar(c) == "\\n"
    ensures c == '"' ==> EscapeChar(c) == "\\\""
    ensures c != '\n' && c != '"' ==> EscapeChar(c) == [c]
  {
  }

  lemma Associative(a: string, b: string, c: string)
    ensures (a + b) + c == a + (b + c)
  {
  }

  /** An escaped quote is kept whole by a pattern that starts with a backslash but not with an escaped quote. */
  lemma KeepEscapedQuote(x: string, pat: string, rep: string)
    requires |pat| >= 2 && pat[0] == '\\' && pat[1] != '"'
    ensures ReplaceAll("\\\"" + x, pat, rep) == "\\\"" + ReplaceAll(x, pat, rep)
  {
    var s := "\\\"" + x;
    NoOccurrenceAt(s, pat, 1);
    ReplaceAllSkip(s, pat, rep);
    assert s[1..] == "\"" + x;
    ReplaceAllKeepFront('"', x, pat, rep);
  }

  /** The escape of a character of an ordinary answer, other than a line break, survives the first two replacements. */
  lemma EscapeCharKept(c: char, x: string, pat: string, rep: string)
    requires ReplyChar(c) && c != '\n'
    requires |pat| >= 2 && pat[0] == '\\' && pat[1] != '"'
    ensures ReplaceAll(EscapeChar(c) + x, pat, rep) == EscapeChar(c) + ReplaceAll(x, pat, rep)
  {
    EscapeReplyChar(c);
    if c == '"' {
      KeepEscapedQuote(x, pat, rep);
    } else {
      ReplaceAllKeepFront(c, x, pat, rep);
    }
  }

  /** Text that does not start with an escaped line break. */
  predicate NoLeadingBreak(x: string)
  {
    |x| < 2 || x[0] != '\\' || x[1] != 'n'
  }

  /** The escape of an ordinary answer that does not start with a line break does not start with an escaped one. */
  lemma EscapeNoLeadingBreak(t: string, z: string)
    requires ReplyText(t) && (t == [] || t[0] != '\n')
    requires z == [] || z[0] != '\\'
    ensures NoLeadingBreak(Escape(t) + z)
  {
    if t == [] {
      assert Escape(t) + z == z;
    } else {
      assert ReplyChar(t[0]);
      EscapeReplyChar(t[0]);
      assert t == [t[0]] + t[1..];
      EscapeCons(t[0], t[1..]);
      Associative(EscapeChar(t[0]), Escape(t[1..]), z);
    }
  }

  /** A lone escaped line break is not an escaped blank line. */
  lemma KeepLoneBreak(x: string, rep: string)
    requires NoLeadingBreak(x)
    ensures ReplaceAll("\\n" + x, "\\n\\n", rep) == "\\n" + ReplaceAll(x, "\\n\\n", rep)
  {
    var pat := "\\n\\n";
    var s := "\\n" + x;
    calc {
      ReplaceAll(s, pat, rep);
      { if |x| < 2 || x[0] != '\\' { NoOccurrenceAt(s, pat, 2); } else { NoOccurrenceAt(s, pat, 3); }
        ReplaceAllSkip(s, pat, rep); }
      [s[0]] + ReplaceAll(s[1..], pat, rep);
      { assert s[1..] == ['n'] + x; ReplaceAllKeepFront('n', x, pat, rep); }
      [s[0]] + (['n'] + ReplaceAll(x, pat, rep));
      "\\n" + ReplaceAll(x, pat, rep);
    }
  }

  /** A blank line of the answer is escaped as two escaped line breaks. */
  lemma EscapeBlankLine(rest: string)
    ensures Escape("\n\n" + rest) == "\\n\\n" + Escape(rest)
  {
    calc {
      Escape("\n\n" + rest);
      { assert "\n\n" + rest == ['\n'] + (['\n'] + rest); EscapeCons('\n', ['\n'] + rest); }
      EscapeChar('\n') + Escape(['\n'] + rest);
      { EscapeCons('\n', rest); }
      EscapeChar('\n') + (EscapeChar('\n') + Escape(rest));
      { assert EscapeChar('\n') == "\\n"; }
      "\\n" + ("\\n" + Escape(rest));
      { Associative("\\n", "\\n", Escape(rest)); assert "\\n" + "\\n" == "\\n\\n"; }
      "\\n\\n" + Escape(rest);
    }
  }

  /** The first replacement, applied to escaped text, turns each blank line of the answer into one space. */
  lemma {:induction false} EscapedBlankLines(t: string, z: string)
    requires ReplyText(t)
    requires z == [] || z[0] != '\\'
    ensures ReplaceAll(Escape(t) + z, "\\n\\n", " ") == Escape(ReplaceAll(t, "\n\n", " ")) + ReplaceAll(z, "\\n\\n", " ")
    decreases |t|
  {
    if t == [] {
      assert Escape(t) + z == z;
    } else if |t| >= 2 && t[0] == '\n' && t[1] == '\n' {
      ReplyTextTail(t, 2);
      EscapedBlankLines(t[2..], z);
      BlankLineAtPair(t, z);
    } else {
      ReplyTextTail(t, 1);
      EscapedBlankLines(t[1..], z);
      assert ReplyChar(t[0]);
      if t[0] == '\n' {
        EscapeNoLeadingBreak(t[1..], z);
        BlankLineAtBreak(t, z);
      } else {
        BlankLineAtOther(t, z);
      }
    }
  }

  lemma BlankLineAtPair(t: string, z: string)
    requires |t| >= 2 && t[0] == '\n' && t[1] == '\n'
    requires ReplaceAll(Escape(t[2..]) + z, "\\n\\n", " ") == Escape(ReplaceAll(t[2..], "\n\n", " ")) + ReplaceAll(z, "\\n\\n", " ")
    ensures ReplaceAll(Escape(t) + z, "\\n\\n", " ") == Escape(ReplaceAll(t, "\n\n", " ")) + ReplaceAll(z, "\\n\\n", " ")
  {
    var rest := t[2..];
    assert t == "\n\n" + rest;
    var rr := ReplaceAll(rest, "\n\n", " ");
    var rz := ReplaceAll(z, "\\n\\n", " ");
    calc {
      ReplaceAll(Escape("\n\n" + rest) + z, "\\n\\n", " ");
      { EscapeBlankLine(rest); Associative("\\n\\n", Escape(rest), z); }
      ReplaceAll("\\n\\n" + (Escape(rest) + z), "\\n\\n", " ");
      { ReplaceAllFront("\\n\\n", Escape(rest) + z, " "); }
      " " + ReplaceAll(Escape(rest) + z, "\\n\\n", " ");
      " " + (Escape(rr) + rz);
      { Associative(" ", Escape(rr), rz); }
      (" " + Escape(rr)) + rz;
      { assert EscapeChar(' ') == " "; EscapeCons(' ', rr); }
      Escape(" " + rr) + rz;
      { ReplaceAllFront("\n\n", rest, " "); }
      Escape(ReplaceAll("\n\n" + rest, "\n\n", " ")) + rz;
    }
  }

  lemma BlankLineAtBreak(t: string, z: string)
    requires |t| >= 1 && t[0] == '\n' && (|t| == 1 || t[1] != '\n')
    requires NoLeadingBreak(Escape(t[1..]) + z)
    requires ReplaceAll(Escape(t[1..]) + z, "\\n\\n", " ") == Escape(ReplaceAll(t[1..], "\n\n", " ")) + ReplaceAll(z, "\\n\\n", " ")
    ensures ReplaceAll(Escape(t) + z, "\\n\\n", " ") == Escape(ReplaceAll(t, "\n\n", " ")) + ReplaceAll(z, "\\n\\n", " ")
  {
    var tail := t[1..];
    assert t == ['\n'] + tail;
    var rr := ReplaceAll(tail, "\n\n", " ");
    var rz := ReplaceAll(z, "\\n\\n", " ");
    var t := ['\n'] + tail;
    calc {
      ReplaceAll(Escape(t) + z, "\\n\\n", " ");
      { EscapeCons('\n', tail); assert EscapeChar('\n') == "\\n"; Associative("\\n", Escape(tail), z); }
      ReplaceAll("\\n" + (Escape(tail) + z), "\\n\\n", " ");
      { KeepLoneBreak(Escape(tail) + z, " "); }
      "\\n" + ReplaceAll(Escape(tail) + z, "\\n\\n", " ");
      "\\n" + (Escape(rr) + rz);
      { Associative("\\n", Escape(rr), rz); }
      ("\\n" + Escape(rr)) + rz;
      { assert EscapeChar('\n') == "\\n"; EscapeCons('\n', rr); }
      Escape(['\n'] + rr) + rz;
      { NoOccurrenceAt(t, "\n\n", 1); ReplaceAllSkip(t, "\n\n", " "); assert t[1..] == tail; }
      Escape(ReplaceAll(t, "\n\n", " ")) + rz;
    }
  }

  lemma BlankLineAtOther(t: string, z: string)
    requires |t| >= 1 && ReplyChar(t[0]) && t[0] != '\n'
    requires ReplaceAll(Escape(t[1..]) + z, "\\n\\n", " ") == Escape(ReplaceAll(t[1..], "\n\n", " ")) + ReplaceAll(z, "\\n\\n", " ")
    ensures ReplaceAll(Escape(t) + z, "\\n\\n", " ") == Escape(ReplaceAll(t, "\n\n", " ")) + ReplaceAll(z, "\\n\\n", " ")
  {
    var c, tail := t[0], t[1..];
    assert t == [c] + tail;
    var rr := ReplaceAll(tail, "\n\n", " ");
    var rz := ReplaceAll(z, "\\n\\n", " ");
    calc {
      ReplaceAll(Escape([c] + tail) + z, "\\n\\n", " ");
      { EscapeCons(c, tail); Associative(EscapeChar(c), Escape(tail), z); }
      ReplaceAll(EscapeChar(c) + (Escape(tail) + z), "\\n\\n", " ");
      { EscapeCharKept(c, Escape(tail) + z, "\\n\\n", " "); }
      EscapeChar(c) + ReplaceAll(Escape(tail) + z, "\\n\\n", " ");
      EscapeChar(c) + (Escape(rr) + rz);
      { Associative(EscapeChar(c), Escape(rr), rz); EscapeCons(c, rr); }
      Escape([c] + rr) + rz;
      { ReplaceAllKeepFront(c, tail, "\n\n", " "); }
      Escape(ReplaceAll([c] + tail, "\n\n", " ")) + rz;
    }
  }

  /** The second replacement, applied to escaped text, turns each line break of the answer into a space. */
  lemma {:induction false} EscapedLineBreaks(t: string, z: string)
    requires ReplyText(t)
    ensures ReplaceAll(Escape(t) + z, "\\n", " ") == Escape(ReplaceAll(t, "\n", " ")) + ReplaceAll(z, "\\n", " ")
    decreases |t|
  {
    if t == [] {
      assert Escape(t) + z == z;
    } else {
      ReplyTextTail(t, 1);
      EscapedLineBreaks(t[1..], z);
      assert ReplyChar(t[0]);
      if t[0] == '\n' {
        LineBreakAtBreak(t, z);
      } else {
        LineBreakAtOther(t, z);
      }
    }
  }

  lemma LineBreakAtBreak(t: string, z: string)
    requires |t| >= 1 && t[0] == '\n'
    requires ReplaceAll(Escape(t[1..]) + z, "\\n", " ") == Escape(ReplaceAll(t[1..], "\n", " ")) + ReplaceAll(z, "\\n", " ")
    ensures ReplaceAll(Escape(t) + z, "\\n", " ") == Escape(ReplaceAll(t, "\n", " ")) + ReplaceAll(z, "\\n", " ")
  {
    var tail := t[1..];
    assert t == ['\n'] + tail;
    var rt := ReplaceAll(tail, "\n", " ");
    var rz := ReplaceAll(z, "\\n", " ");
    calc {
      ReplaceAll(Escape(['\n'] + tail) + z, "\\n", " ");
      { EscapeCons('\n', tail); assert EscapeChar('\n') == "\\n"; Associative("\\n", Escape(tail), z); }
      ReplaceAll("\\n" + (Escape(tail) + z), "\\n", " ");
      { ReplaceAllFront("\\n", Escape(tail) + z, " "); }
      " " + ReplaceAll(Escape(tail) + z, "\\n", " ");
      " " + (Escape(rt) + rz);
      { Associative(" ", Escape(rt), rz); }
      (" " + Escape(rt)) + rz;
      { assert EscapeChar(' ') == " "; EscapeCons(' ', rt); }
      Escape(" " + rt) + rz;
      { ReplaceAllFront("\n", tail, " "); }
      Escape(ReplaceAll(['\n'] + tail, "\n", " ")) + rz;
    }
  }

  lemma LineBreakAtOther(t: string, z: string)
    requires |t| >= 1 && ReplyChar(t[0]) && t[0] != '\n'
    requires ReplaceAll(Escape(t[1..]) + z, "\\n", " ") == Escape(ReplaceAll(t[1..], "\n", " ")) + ReplaceAll(z, "\\n", " ")
    ensures ReplaceAll(Escape(t) + z, "\\n", " ") == Escape(ReplaceAll(t, "\n", " ")) + ReplaceAll(z, "\\n", " ")
  {
    var c, tail := t[0], t[1..];
    assert t == [c] + tail;
    var rt := ReplaceAll(tail, "\n", " ");
    var rz := ReplaceAll(z, "\\n", " ");
    calc {
      ReplaceAll(Escape([c] + tail) + z, "\\n", " ");
      { EscapeCons(c, tail); Associative(EscapeChar(c), Escape(tail), z); }
      ReplaceAll(EscapeChar(c) + (Escape(tail) + z), "\\n", " ");
      { EscapeCharKept(c, Escape(tail) + z, "\\n", " "); }
      EscapeChar(c) + ReplaceAll(Escape(tail) + z, "\\n", " ");
      EscapeChar(c) + (Escape(rt) + rz);
      { Associative(EscapeChar(c), Escape(rt), rz); EscapeCons(c, rt); }
      Escape([c] + rt) + rz;
      { ReplaceAllKeepFront(c, tail, "\n", " "); }
      Escape(ReplaceAll([c] + tail, "\n", " ")) + rz;
    }
  }

  /** The third replacement, applied to escaped one-line text, removes exactly the answer's quotes. */
  lemma {:induction false} EscapedQuotes(t: string, z: string)
    requires ReplyText(t) && '\n' !in t
    ensures ReplaceAll(Escape(t) + z, "\\\"", "") == StripQuotes(t) + ReplaceAll(z, "\\\"", "")
    decreases |t|
  {
    if t == [] {
      assert Escape(t) + z == z;
    } else {
      ReplyTextTail(t, 1);
      assert t == [t[0]] + t[1..];
      assert '\n' !in t[1..];
      EscapedQuotes(t[1..], z);
      assert ReplyChar(t[0]) && t[0] != '\n';
      if t[0] == '"' {
        QuoteAtQuote(t, z);
      } else {
        QuoteAtOther(t, z);
      }
    }
  }

  lemma QuoteAtQuote(t: string, z: string)
    requires |t| >= 1 && t[0] == '"'
    requires ReplaceAll(Escape(t[1..]) + z, "\\\"", "") == StripQuotes(t[1..]) + ReplaceAll(z, "\\\"", "")
    ensures ReplaceAll(Escape(t) + z, "\\\"", "") == StripQuotes(t) + ReplaceAll(z, "\\\"", "")
  {
    var tail := t[1..];
    assert t == ['"'] + tail;
    var rz := ReplaceAll(z, "\\\"", "");
    calc {
      ReplaceAll(Escape(['"'] + tail) + z, "\\\"", "");
      { EscapeCons('"', tail); assert EscapeChar('"') == "\\\""; Associative("\\\"", Escape(tail), z); }
      ReplaceAll("\\\"" + (Escape(tail) + z), "\\\"", "");
      { ReplaceAllFront("\\\"", Escape(tail) + z, ""); }
      "" + ReplaceAll(Escape(tail) + z, "\\\"", "");
      StripQuotes(tail) + rz;
      { StripQuotesFront(tail); }
      StripQuotes(['"'] + tail) + rz;
    }
  }

  lemma QuoteAtOther(t: string, z: string)
    requires |t| >= 1 && ReplyChar(t[0]) && t[0] != '\n' && t[0] != '"'
    requires ReplaceAll(Escape(t[1..]) + z, "\\\"", "") == StripQuotes(t[1..]) + ReplaceAll(z, "\\\"", "")
    ensures ReplaceAll(Escape(t) + z, "\\\"", "") == StripQuotes(t) + ReplaceAll(z, "\\\"", "")
  {
    var c, tail := t[0], t[1..];
    assert t == [c] + tail;
    var rz := ReplaceAll(z, "\\\"", "");
    calc {
      ReplaceAll(Escape([c] + tail) + z, "\\\"", "");
      { EscapeCons(c, tail); EscapeReplyChar(c); Associative([c], Escape(tail), z); }
      ReplaceAll([c] + (Escape(tail) + z), "\\\"", "");
      { ReplaceAllKeepFront(c, Escape(tail) + z, "\\\"", ""); }
      [c] + ReplaceAll(Escape(tail) + z, "\\\"", "");
      [c] + (StripQuotes(tail) + rz);
      { Associative([c], StripQuotes(tail), rz); StripQuotesKeepFront(c, tail); }
      StripQuotes([c] + tail) + rz;
    }
  }

  /** A pattern that starts with a backslash does not occur in text without one. */
  lemma {:induction false} NoBackslashUnchanged(s: string, pat: string, rep: string)
    requires |pat| > 0 && pat[0] == '\\' && '\\' !in s
    ensures ReplaceAll(s, pat, rep) == s
    decreases |s|
  {
    if s != [] {
      assert s == [s[0]] + s[1..];
      ReplaceAllKeepFront(s[0], s[1..], pat, rep);
      NoBackslashUnchanged(s[1..], pat, rep);
    }
  }

  /** A replacement whose pattern starts with a backslash leaves a closing quote alone. */
  lemma ClosingQuote(pat: string, rep: string)
    requires |pat| > 0 && pat[0] == '\\'
    ensures ReplaceAll("\"", pat, rep) == "\""
  {
    ReplaceAllKeepFront('"', [], pat, rep);
    assert "\"" == ['"'] + [];
  }

  /** A replacement whose pattern starts with a backslash keeps an opening quote and goes on behind it. */
  lemma OpeningQuote(x: string, pat: string, rep: string)
    requires |pat| > 0 && pat[0] == '\\'
    ensures ReplaceAll("\"" + x, pat, rep) == "\"" + ReplaceAll(x, pat, rep)
  {
    ReplaceAllKeepFront('"', x, pat, rep);
  }

  /**
   * For an ordinary answer (no backslash, no control character but line
   * breaks) the shown text is the answer itself with blank lines and line
   * breaks turned into spaces, its quotes removed, and trimmed.
   */
  lemma OrdinaryAnswerShown(t: string)
    requires ReplyText(t)
    ensures Sanitise(Render(Str(t))) == Trim(StripQuotes(Flatten(t)))
  {
    var f1 := ReplaceAll(t, "\n\n", " ");
    var f2 := Flatten(t);
    assert Render(Str(t)) == "\"" + (Escape(t) + "\"");

    OpeningQuote(Escape(t) + "\"", "\\n\\n", " ");
    EscapedBlankLines(t, "\"");
    ClosingQuote("\\n\\n", " ");
    var x1 := "\"" + (Escape(f1) + "\"");
    assert ReplaceAll(Render(Str(t)), "\\n\\n", " ") == x1;

    ReplyTextReplaced(t, "\n\n");
    OpeningQuote(Escape(f1) + "\"", "\\n", " ");
    EscapedLineBreaks(f1, "\"");
    ClosingQuote("\\n", " ");
    var x2 := "\"" + (Escape(f2) + "\"");
    assert ReplaceAll(x1, "\\n", " ") == x2;

    ReplyTextReplaced(f1, "\n");
    OpeningQuote(Escape(f2) + "\"", "\\\"", "");
    EscapedQuotes(f2, "\"");
    ClosingQuote("\\\"", "");
    var x3 := "\"" + StripQuotes(f2) + "\"";
    assert ReplaceAll(x2, "\\\"", "") == x3;

    StripQuotesOfQuoted(StripQuotes(f2));
  }

  /** A reply with no line breaks and no quotes is shown exactly as it is, trimmed. */
  lemma OneLineAnswerShown(t: string)
    requires ReplyText(t) && '\n' !in t && '"' !in t
    ensures Sanitise(Render(Str(t))) == Trim(t)
  {
    OrdinaryAnswerShown(t);
    forall i: nat ensures !OccursAt(t, "\n\n", i) {
      if i + 2 <= |t| { assert t[i..i + 2][0] == t[i]; assert t[i] in t; }
    }
    ReplaceAllAbsentPattern(t, "\n\n", " ");
    forall i: nat ensures !OccursAt(t, "\n", i) {
      if i + 1 <= |t| { assert t[i..i + 1][0] == t[i]; assert t[i] in t; }
    }
    ReplaceAllAbsentPattern(t, "\n", " ");
    StripQuotesIdentity(t);
  }

  // ---------------------------------------------------------------------------
  // text_prompt
  // ---------------------------------------------------------------------------

  /** What `create_request` hands to `parse_text`: a failed send panics in `unwrap`, a failed read is an `Err`. */
  function RequestResult(download: Download): (r: Option<BodyText>)
    ensures r.None? <==> download.SendFailed?
    ensures download.ReadFailed? ==> r == Some(BodyErr)
    ensures download.Received? ==> r == Some(BodyOk(download.body))
  {
    match download
    case SendFailed => None
    case ReadFailed => Some(BodyErr)
    case Received(body) => Some(BodyOk(body))
  }

  /**
   * The part of `text_prompt` that runs when the option has a value: the
   * placeholder is sent, the request carrying `body` is made, and the
   * placeholder is edited to show the parsed answer unless a panic comes first.
   */
  function Fetch(body: Json, download: Download): (run: Run)
    ensures |run.events| >= 2
    ensures run.events[0] == SendText(Placeholder) && run.events[1] == HttpPost(Url, body)
    ensures run.outcome.Completed? <==> !download.SendFailed? && download != Received(None)
    ensures run.outcome.Completed? ==> |run.events| == 3 && run.events[2].EditText?
    ensures run.outcome.Panicked? ==> |run.events| == 2
  {
    var sent := [SendText(Placeholder), HttpPost(Url, body)];
    var response := RequestResult(download);
    if response.None? then Run(sent, Panicked(UnwrapPanic))
    else
      var parsed := ParseText(response.value);
      if parsed.Fails? then Run(sent, Panicked(parsed.message))
      else Run(sent + [EditText(CodeBlock(parsed.text))], Completed)
  }

  /**
   * `text_prompt`: with a value, the placeholder protocol of `Fetch`;
   * without one, a single message says so and nothing is requested.
   */
  function TextPrompt(options: seq<Dispatch.CommandOption>, download: Download): (run: Run)
    ensures options == [] ==> run == Run([], Panicked(Dispatch.MissingOption))
    ensures options != [] && options[0].value.None? ==> run == Run([SendText(NoText)], Completed)
    ensures options != [] && options[0].value.Some? ==>
      |run.events| >= 2
      && run.events[0] == SendText(Placeholder)
      && run.events[1] == HttpPost(Url, RequestBody(options[0].value.value))
  {
    if options == [] then Run([], Panicked(Dispatch.MissingOption))
    else match options[0].value
      case None => Run([SendText(NoText)], Completed)
      case Some(val) => Fetch(RequestBody(val), download)
  }

  /** Without a value no request is made; with one, exactly one request follows the placeholder. */
  lemma RequestOnlyWithValue(options: seq<Dispatch.CommandOption>, download: Download)
    requires options != []
    ensures (exists k :: 0 <= k < |TextPrompt(options, download).events| && TextPrompt(options, download).events[k].HttpPost?)
        <==> options[0].value.Some?
  {
    var run := TextPrompt(options, download);
    if options[0].value.Some? {
      assert run.events[1].HttpPost?;
    } else {
      assert run.events == [SendText(NoText)];
    }
  }

  /**
   * With a value, exactly one message is sent (the placeholder), and it is
   * edited exactly once when the handler completes and never when it panics.
   */
  lemma PlaceholderThenOneEdit(options: seq<Dispatch.CommandOption>, download: Download)
    requires options != [] && options[0].value.Some?
    ensures CountSends(TextPrompt(options, download).events) == 1
    ensures CountEdits(TextPrompt(options, download).events) == (if TextPrompt(options, download).outcome.Completed? then 1 else 0)
  {
    ProtocolCounts(TextPrompt(options, download).events);
  }

  /** Counting the events of a placeholder, a request and at most one edit. */
  lemma ProtocolCounts(events: seq<Event>)
    requires 2 <= |events| <= 3 && events[0].SendText? && events[1].HttpPost?
    requires |events| == 3 ==> events[2].EditText?
    ensures CountSends(events) == 1
    ensures CountEdits(events) == |events| - 2
  {
    var rest := events[2..];
    assert events[1..][1..] == rest;
    if |events| == 3 {
      assert rest[1..] == [];
      assert CountSends(rest) == 0 && CountEdits(rest) == 1;
    } else {
      assert rest == [];
    }
    assert CountSends(events[1..]) == CountSends(rest);
    assert CountEdits(events[1..]) == CountEdits(rest);
  }

  /** Every answer the bot receives ends as exactly one edit of the placeholder, showing the parsed answer in a code block. */
  lemma AnswerReplacesPlaceholder(options: seq<Dispatch.CommandOption>, v: Json)
    requires options != [] && options[0].value.Some?
    ensures TextPrompt(options, Received(Some(v))).events
         == [SendText(Placeholder), HttpPost(Url, RequestBody(options[0].value.value)),
             EditText(CodeBlock(Sanitise(Render(Get(v, ContentPath)))))]
  {
    var body := RequestBody(options[0].value.value);
    assert TextPrompt(options, Received(Some(v))) == Fetch(body, Received(Some(v)));
    FetchShowsAnswer(body, v);
  }

  /** A received answer is parsed and shown in the edit that follows the request. */
  lemma FetchShowsAnswer(body: Json, v: Json)
    ensures Fetch(body, Received(Some(v))).events
         == [SendText(Placeholder), HttpPost(Url, body), EditText(CodeBlock(Sanitise(Render(Get(v, ContentPath)))))]
  {
    var text := Sanitise(Render(Get(v, ContentPath)));
    assert RequestResult(Received(Some(v))) == Some(BodyOk(Some(v)));
    assert ParseText(BodyOk(Some(v))) == Shown(text);
    assert Fetch(body, Received(Some(v))).events == [SendText(Placeholder), HttpPost(Url, body)] + [EditText(CodeBlock(text))];
  }

  /** A body that cannot be read is reported in the placeholder's place, never as a panic. */
  lemma ReadFailureReported(options: seq<Dispatch.CommandOption>)
    requires options != [] && options[0].value.Some?
    ensures TextPrompt(options, ReadFailed).outcome == Completed
    ensures TextPrompt(options, ReadFailed).events[2] == EditText(CodeBlock(NoResponse))
  {
    var body := RequestBody(options[0].value.value);
    assert TextPrompt(options, ReadFailed) == Fetch(body, ReadFailed);
    assert RequestResult(ReadFailed) == Some(BodyErr);
    assert ParseText(BodyErr) == Shown(NoResponse);
  }
}
