# tenbot, modelled in Dafny

tenbot is a Discord bot written in Rust on serenity. This project models the
parts of it that decide what the bot says:

- **F1 standings** (`f1`). The bot fetches the Ergast standings document. It
  takes the first standings list, builds ten-line display columns from it
  (names, constructors, points) and sends them side by side in one embed.
- **Routing** (`interaction_create`) of a slash command to a handler. Routing
  goes by the command's name and, for `f1`, by its first option. The table of
  commands registered in `ready` is modelled as data.
- **The OpenAI prompt** (`text_prompt`). It covers the request body built
  from the user's text and the placeholder message. It also covers the
  `parse_text` sanitiser, which turns the JSON answer into one trimmed line
  without quotes, and the single edit that replaces the placeholder.
- **League of Legends stats** (`league_stats`). The bot looks up the
  summoner, then builds three aligned columns from their first three
  champion masteries. The not-found and error paths are included.
- **Utility commands**: `user_info` and `server_info` with their fallbacks,
  `choose` and `coin_flip`.

Everything a handler does to the outside world is a trace of `Io.Event`s:
HTTP requests, messages sent, messages edited and embeds sent. The trace ends
in an `Io.Outcome`, either completed or panicked with the panic's message.
Network answers, random draws and Discord's data are inputs to the model.

Modules:

- `Wrappers`: `Option`.
- `Text`: Rust's `str::replace`, `trim`, newline-terminated columns, and
  decimal `Display` of integers.
- `Json`: the value tree of serde_json's `Value` (objects as entry lists),
  total indexing that yields `Null`, and compact `to_string` with
  serde_json's string escapes.
- `Embeds`: serenity's `MessageBuilder` and `CreateEmbed` as classes updated
  in place.
- `Io`: events and runs.
- `F1`, `Dispatch`, `OpenAi`, `Riot`, `Util`: one module per source file.

The column builders of `f1.rs` and the mastery loop of `riot.rs` are methods
with loops. Each is proved against a specification function of its input.

## Model

| member | source | states |
|---|---|---|
| Wrappers.Option.UnwrapOr | src/commands/util.rs:13-16 | A present value is returned; an absent one gives the default. |
| Text.ReplaceAll | src/commands/openai.rs:52-55 | Replacing a pattern by itself changes nothing; a same-length replacement keeps the length. |
| Text.ReplaceAllRemovesChar | src/commands/f1.rs:32 | Replacing a character by text that does not contain it leaves no occurrence of it. |
| Text.ReplaceAllAbsentPattern | src/commands/openai.rs:52-55 | Text with no occurrence of the pattern is left unchanged by `replace`. |
| Text.ReplaceAllChars | src/commands/openai.rs:52-55 | Every character of a replaced text comes from the original or from the replacement. |
| Text.StripQuotes | src/commands/f1.rs:32 | Removing every `"` leaves no quote, keeps every other character and adds none. |
| Text.StripQuotesOfQuoted | src/commands/util.rs:98 | A quoted quote-free text loses exactly its two quotes. |
| Text.StripQuotesIdentity | src/commands/util.rs:98 | Text without quotes is unchanged, so quote removal is idempotent. |
| Text.TrimStart | src/commands/openai.rs:56 | Finds where the text proper starts: everything skipped is whitespace and the character reached is not. |
| Text.TrimEnd | src/commands/openai.rs:56 | Finds where the text proper ends: everything cut off is whitespace and the character before the end is not. |
| Text.Trim | src/commands/openai.rs:56 | The result is a slice of the input with only whitespace cut off on either side. |
| Text.TrimUnique | src/commands/openai.rs:56 | Any slice obtained by cutting whitespace down to non-whitespace ends equals `trim`'s result. |
| Text.TrimTight | src/commands/openai.rs:56 | The result neither starts nor ends with whitespace. |
| Text.TrimChars | src/commands/openai.rs:56 | Trimming introduces no character. |
| Text.TrimIdempotent | src/commands/openai.rs:56 | Trimming twice is trimming once. |
| Text.TerminatedSnoc | src/commands/f1.rs:33 | Pushing one more `row + "\n"` extends the column by exactly that line. |
| Text.LinesOfTerminated | src/commands/f1.rs:31-34 | A column of one-line rows, each followed by `\n`, splits back into exactly those rows. |
| Text.TerminatedShape | src/commands/f1.rs:31-34 | Such a column holds one newline per row and ends with a newline. |
| Text.TerminatedAvoids | src/commands/f1.rs:32-33 | A character missing from every row (other than newline) is missing from the column. |
| Text.CountNewlinesAppend | src/commands/f1.rs:33 | Newline counts add up over concatenation. |
| Text.NatToString | src/commands/riot.rs:54 | Decimal text is non-empty, all digits and has no leading zero. |
| Text.NatToStringRoundTrip | src/commands/riot.rs:54-56 | Reading the decimal text back gives the number. |
| Text.IntToString | src/commands/riot.rs:55-56 | A minus sign exactly for negative values, then digits. |
| Text.IntToStringPlain | src/commands/riot.rs:55-56 | Integer text has no newline, quote or backslash. |
| Json.Lookup | src/commands/f1.rs:14 | A missing key gives `Null`; a non-null result is the value of an entry with that key. |
| Json.Field | src/commands/f1.rs:14 | Indexing anything but an object by a key gives `Null`. |
| Json.Elem | src/commands/f1.rs:32 | An index inside an array gives that element; any other index gives `Null`. |
| Json.Get | src/commands/f1.rs:14 | The empty path gives the value itself; a non-empty path from anything but an object or an array gives `Null`. |
| Json.GetNull | src/commands/f1.rs:14 | Every path from `Null` leads to `Null`. |
| Json.GetAppend | src/commands/f1.rs:14 | Following `p + q` is following `p`, then `q`. |
| Json.GetPastMissing | src/commands/f1.rs:14 | Once a prefix of the path is missing, the whole path gives `Null`. |
| Json.EscapeChar | src/commands/openai.rs:51 | A character is copied unchanged exactly when it is not a quote, a backslash or a control character; otherwise it becomes a backslash sequence. |
| Json.Escape | src/commands/openai.rs:51 | Escaping never shortens a string and gives empty text only for the empty string. |
| Json.Render | src/commands/f1.rs:32 | Rendered text is never empty; strings, arrays and objects are delimited by quotes, brackets and braces; a number starts with `-` exactly when negative. |
| Json.EscapePrintable | src/commands/openai.rs:51 | Escaped string text holds no raw control character. |
| Json.RenderPrintable | src/commands/openai.rs:51 | Compact JSON text of any value is on one line. |
| Json.EscapePlain | src/commands/f1.rs:32 | Text with nothing to escape is its own escape. |
| Json.RenderPlainString | src/commands/f1.rs:32 | A plain string renders as itself between quotes. |
| Embeds.MessageBuilder.constructor | src/commands/f1.rs:28 | A new builder is empty. |
| Embeds.MessageBuilder.Push | src/commands/f1.rs:33 | Appends the text unchanged. |
| Embeds.Embed.Default | src/commands/f1.rs:98 | A default embed has nothing set and no fields. |
| Embeds.Embed.SetTitle | src/commands/f1.rs:99 | Sets the title; nothing else changes. |
| Embeds.Embed.SetColour | src/commands/f1.rs:100 | Sets the colour; nothing else changes. |
| Embeds.Embed.SetThumbnail | src/commands/f1.rs:101 | Sets the thumbnail; nothing else changes. |
| Embeds.Embed.SetDescription | src/commands/riot.rs:73 | Sets the description; nothing else changes. |
| Embeds.Embed.AddField | src/commands/f1.rs:102-103 | Appends one field after the existing ones; nothing else changes. |
| F1.StandingsPath | src/commands/f1.rs:14 | The path starts at `MRData`, takes standings list 0 and ends at the named list. |
| F1.Standings | src/commands/f1.rs:14 | A document without `MRData` yields `Null` standings. |
| F1.Cell | src/commands/f1.rs:32 | A cell is rendered JSON with its quotes removed: no quote and no newline. |
| F1.Cells | src/commands/f1.rs:31-34 | The rows of a column, row `i` from standings entry `i`. |
| F1.CellsSnoc | src/commands/f1.rs:31-34 | One more row appends the cell of the next entry. |
| F1.Column | src/commands/f1.rs:27-36 | The builder loop yields the ten rows, each followed by a newline. |
| F1.GetConstructorNames | src/commands/f1.rs:27-36 | The column of `Constructor.name`. |
| F1.GetConstructorPoints | src/commands/f1.rs:39-48 | The column of `points`. |
| F1.GetDriverNames | src/commands/f1.rs:51-62 | The column of `Driver.familyName`. |
| F1.GetDriverConstructors | src/commands/f1.rs:65-76 | The column of `Constructors[0].name`. |
| F1.GetDriverPoints | src/commands/f1.rs:79-88 | The column of `points`. |
| F1.ColumnShape | src/commands/f1.rs:31-34 | A column splits into exactly ten rows in entry order, holds ten newlines, ends with one and contains no quote. |
| F1.MissingEntryShowsNull | src/commands/f1.rs:32 | A row past the end of the standings (or of a non-array) shows `null`. |
| F1.MissingFieldShowsNull | src/commands/f1.rs:32 | An entry that lacks any step of the field path (a missing key, an empty array, a non-object) shows `null`. |
| F1.MissingStandingsShowNull | src/commands/f1.rs:14 | A missing segment anywhere on the standings path gives `Null` standings and `null` rows. |
| F1.PlainStringCell | src/commands/f1.rs:32 | A plain string value is shown exactly, without its quotes. |
| F1.CellOfDocument | src/commands/f1.rs:14 | Row `i` reads the path from entry `i` of the first standings list. |
| F1.ColumnsShowEntries | src/commands/f1.rs:93-95 | Fields holding the columns of their paths have ten lines each, line `i` from entry `i`. |
| F1.ConstructorReplyAligned | src/commands/f1.rs:93-103 | Both constructor columns are aligned row by row on the same entries. |
| F1.DriverReplyAligned | src/commands/f1.rs:112-124 | All three driver columns are aligned row by row on the same entries. |
| F1.ConstructorFields | src/commands/f1.rs:102-103 | Two inline fields, `Constructor` and `Points`, holding the constructor-name and points columns. |
| F1.DriverFields | src/commands/f1.rs:122-124 | Three inline fields, `Name`, `Constructor` and `Points`, holding the family-name, team and points columns. |
| F1.ColumnLines | src/commands/f1.rs:31-34 | Splitting a column at its line breaks gives its ten rows in entry order. |
| F1.ConstructorEmbed | src/commands/f1.rs:98-103 | Title, colour, logo, then the fields Constructor and Points, both inline. |
| F1.DriverEmbed | src/commands/f1.rs:118-124 | Title, colour, logo, then the fields Name, Constructor and Points, all inline. |
| F1.ConstructorStandings | src/commands/f1.rs:91-107 | A failed fetch panics after the GET; otherwise one embed with aligned columns from `ConstructorStandings`. |
| F1.DriverStandings | src/commands/f1.rs:110-128 | A failed fetch panics after the GET; otherwise one embed with aligned columns from `DriverStandings`. |
| Dispatch.Route | src/main.rs:17-51 | Only application commands get any response; `ping`, and only `ping`, reaches the ping handler; for `f1` with an option, the constructor handler is reached exactly for `constructor` and the driver handler exactly for `driver`. |
| Dispatch.RegisteredNeverFallsBack | src/main.rs:43-50 | A registered command never gets `Not implemented :(`. |
| Dispatch.RegisteredOptionsRouted | src/main.rs:30-32 | Every subcommand registered for `f1` reaches its own handler (`constructor` the constructor standings, `driver` the driver standings), whatever options follow. |
| Dispatch.OptionlessCommandsRouted | src/main.rs:21 | The only registered command without options is `ping`, and it reaches the ping handler whatever options arrive. |
| Dispatch.NotImplementedExactlyUnregistered | src/main.rs:43-50 | `Not implemented :(` is sent exactly for unregistered names. |
| Dispatch.InvalidOptionExactlyUnregistered | src/main.rs:30-40 | `Invalid option` is sent exactly when `f1`'s first option is not registered for `f1`. |
| Dispatch.PanicsExactlyWithoutOption | src/main.rs:23-28 | The router panics, with `Expected user to select option`, exactly for `f1` without options. |
| Dispatch.OnlyFirstOptionConsulted | src/main.rs:23-30 | Commands agreeing on the name and first option's name are routed alike. |
| OpenAi.CodeBlock | src/commands/openai.rs:79 | The text between two triple backticks. |
| OpenAi.Message | src/commands/openai.rs:24-29 | The message has `role` `user` and the prompt as `content`. |
| OpenAi.Body | src/commands/openai.rs:17-30 | The body holds the model name, the token limit 2000 and the one-message array. |
| OpenAi.RequestBody | src/commands/openai.rs:17-30 | The body names the model and the token limit and has exactly one message, from `user`, whose content is the value's JSON text followed by `.`. |
| OpenAi.MessageFields | src/commands/openai.rs:25-28 | The message's `content` and `role` keys hold the prompt and `user`. |
| OpenAi.BodyFields | src/commands/openai.rs:17-30 | The body's keys hold the token limit, the one message and the model. |
| OpenAi.TopLevelPaths | src/commands/openai.rs:17-30 | `body["model"]` and `body["max_tokens"]` are the model name and 2000; `body["messages"]` is the one-message array. |
| OpenAi.MessagePaths | src/commands/openai.rs:24-29 | `body["messages"][0]["role"]` is `user` and `body["messages"][0]["content"]` is the prompt. |
| OpenAi.PromptOfPlainText | src/commands/openai.rs:27 | Plain text is sent in quotes, followed by a period. |
| OpenAi.Sanitise | src/commands/openai.rs:51-56 | The sanitised text contains no quote and has no surrounding whitespace. |
| OpenAi.SanitiseOneLine | src/commands/openai.rs:51-56 | Sanitising one-line text keeps it on one line. |
| OpenAi.ParseText | src/commands/openai.rs:44-61 | A failed read gives the fixed apology; only a body that is not JSON panics; a shown answer has no quote, no newline and no surrounding whitespace. |
| OpenAi.MissingContentShowsNull | src/commands/openai.rs:48 | A missing `choices[0].message.content` is shown as `null`. |
| OpenAi.SanitiseNull | src/commands/openai.rs:51-56 | The replacement chain and the trim leave the text `null` unchanged. |
| OpenAi.Flatten | src/commands/openai.rs:52-53 | Blank lines and line breaks both become spaces: the result has no newline. |
| OpenAi.EscapeBlankLine | src/commands/openai.rs:48-52 | A blank line of the answer appears in its JSON text as two escaped line breaks. |
| OpenAi.EscapedBlankLines | src/commands/openai.rs:52 | Replacing escaped blank lines in the JSON text is replacing blank lines in the answer. |
| OpenAi.EscapedLineBreaks | src/commands/openai.rs:53 | Replacing escaped line breaks in the JSON text is replacing line breaks in the answer. |
| OpenAi.EscapedQuotes | src/commands/openai.rs:54 | Removing escaped quotes from the JSON text removes the answer's quotes. |
| OpenAi.OrdinaryAnswerShown | src/commands/openai.rs:48-56 | For an answer of ordinary characters, the shown text is the answer with line breaks turned into spaces and quotes removed, then trimmed. |
| OpenAi.OneLineAnswerShown | src/commands/openai.rs:48-56 | A one-line answer without quotes is shown exactly, trimmed. |
| OpenAi.RequestResult | src/commands/openai.rs:32-41 | A send failure gives no result (the unwrap panics); a read failure gives an error; a read body is passed on. |
| OpenAi.Fetch | src/commands/openai.rs:76-87 | The placeholder goes first, then the request with the given body; the run completes with one edit unless the send fails or the body is not JSON. |
| OpenAi.TextPrompt | src/commands/openai.rs:63-91 | No option panics; no value sends `Could not pass text to AI`; a value sends the placeholder and then the request. |
| OpenAi.RequestOnlyWithValue | src/commands/openai.rs:72-90 | A request is made exactly when the option has a value. |
| OpenAi.PlaceholderThenOneEdit | src/commands/openai.rs:76-87 | With a value, exactly one message is sent, and exactly one edit follows when the run completes. |
| OpenAi.AnswerReplacesPlaceholder | src/commands/openai.rs:83-87 | The edit shows the parsed answer in a code block. |
| OpenAi.FetchShowsAnswer | src/commands/openai.rs:82-87 | A received answer ends the run with the placeholder, the request and one edit holding the sanitised content. |
| OpenAi.ReadFailureReported | src/commands/openai.rs:59 | A body that cannot be read is reported in the edit with the fixed apology. |
| Riot.SliceEndPanic | src/commands/riot.rs:53 | The slice panic names the requested end and then the actual length, each reading back as its number. |
| Riot.NameRow | src/commands/riot.rs:54 | The rank `i + 1` in decimal, then `) `, then the champion. |
| Riot.PointsRow | src/commands/riot.rs:55 | The points in decimal on one line, starting with `-` exactly when negative. |
| Riot.LevelRow | src/commands/riot.rs:56 | The level in decimal between parentheses, on one line. |
| Riot.NameRows | src/commands/riot.rs:54 | Row `i` of the champion column is `{i+1}) {champion}` for mastery `i`. |
| Riot.PointsRows | src/commands/riot.rs:55 | Row `i` of the points column is mastery `i`'s points. |
| Riot.LevelRows | src/commands/riot.rs:56 | Row `i` of the level column is mastery `i`'s level in parentheses. |
| Riot.RowsSnoc | src/commands/riot.rs:53-57 | One more mastery appends one row to each column. |
| Riot.MasteryColumns | src/commands/riot.rs:49-60 | The loop builds the three columns: numbered names, points, parenthesised levels, one line per mastery. |
| Riot.NameRowOneLine | src/commands/riot.rs:54 | A champion line is on one line when the champion's text is. |
| Riot.ColumnsLineUp | src/commands/riot.rs:53-57 | When no champion name contains a newline, each column splits back into one row per mastery, in order, with one newline each. |
| Riot.NumberedFromOne | src/commands/riot.rs:54 | The three champion lines start `1) `, `2) `, `3) `. |
| Riot.LineNumberReadsBack | src/commands/riot.rs:54 | The number at the start of champion line `i` reads back as `i + 1`. |
| Riot.LevelReadsBack | src/commands/riot.rs:56 | A level line is the level in parentheses and reads back as the level. |
| Riot.PointsReadBack | src/commands/riot.rs:55 | A points line reads back as the points. |
| Riot.StatsTitle | src/commands/riot.rs:67 | The title is the summoner's name followed by `'s Stats`. |
| Riot.ProfileIconUrl | src/commands/riot.rs:69-72 | The thumbnail is the fixed Data Dragon path, the icon id, then `.png`. |
| Riot.IntToStringInjective | src/commands/riot.rs:55-56 | Distinct integers print differently. |
| Riot.ProfileIconUrlInjective | src/commands/riot.rs:69-72 | Distinct icon ids give distinct thumbnails. |
| Riot.ReplyAligned | src/commands/riot.rs:74-77 | When no champion name contains a newline, the three column fields each have one line per mastery, line `i` of each from mastery `i`. |
| Riot.MasteryFields | src/commands/riot.rs:74-77 | Four fields: the non-inline heading `**-Masteries-**` / `:mage:`, then the inline columns `Champion`, `Points` and `Level`. |
| Riot.StatsEmbed | src/commands/riot.rs:66-78 | Title, colour, thumbnail, `(WIP)`, the heading field, then the three inline columns. |
| Riot.LeagueStats | src/commands/riot.rs:12-83 | Each failure path panics with its own message; an unknown summoner is told so first; fewer than three masteries panics on the slice; otherwise one embed of the first three. |
| Util.Avatar | src/commands/util.rs:13-16 | The custom avatar when set, else the default avatar. |
| Util.UserEmbed | src/commands/util.rs:23-29 | Tag as title, dark purple, avatar as thumbnail, then the non-inline `Creation Date` and a `User ID` that reads back as the id. |
| Util.UserInfo | src/commands/util.rs:10-35 | One embed titled with the tag, in dark purple, with the avatar as thumbnail and two fields, the first being the non-inline `Creation Date`. |
| Util.UserIdReadsBack | src/commands/util.rs:28 | The `User ID` field is not inline and reads back as the user's id. |
| Util.UserInfoDistinguishesUsers | src/commands/util.rs:24-28 | Equal replies come from users with the same id, tag and creation time. |
| Util.ServerIcon | src/commands/util.rs:51-58 | The server's icon when set, else the fixed Discord asset. |
| Util.ServerDescription | src/commands/util.rs:60-67 | The server's description when set, else `N/A`. |
| Util.ServerEmbed | src/commands/util.rs:72-79 | Name as title, dark purple, icon as thumbnail, then four non-inline fields: description (or `N/A`), creation date, an id that reads back, and the region. |
| Util.ServerInfo | src/commands/util.rs:40-86 | Nothing outside a server; a failed fetch panics; otherwise one dark-purple embed with the name, the icon and four fields: the description (or its fallback), the creation date, the id in decimal and the region. |
| Util.ServerFieldsStacked | src/commands/util.rs:76-79 | No field is inline; the description shows `N/A` exactly when it is missing (or is that text). |
| Util.ServerIdReadsBack | src/commands/util.rs:78 | The `Server ID` field reads back as the server's id. |
| Util.IconFallbackExactlyWhenMissing | src/commands/util.rs:51-58 | The fixed asset is shown exactly when the server has no icon. |
| Util.Choose | src/commands/util.rs:91-105 | No choices panics on the empty range; otherwise exactly one message is sent. |
| Util.ChoiceReplyShape | src/commands/util.rs:98-102 | The reply is `I choose `, the drawn choice, `!`; it holds no quote and every other character of the choice. |
| Util.QuotedChoiceUnquoted | src/commands/util.rs:98 | A choice written in quotes is announced without them. |
| Util.EveryChoiceReachable | src/commands/util.rs:97 | Every choice is announced by some roll in range. |
| Util.CoinFlip | src/commands/util.rs:111-117 | Heads exactly for 0, tails exactly for 1, always one message. |

## Left out

- HTTP transport and JSON text parsing. Each download is an input: a send
  failure, a read failure, or a body that is already parsed (`None` when the
  body is not JSON).
- The Riot API calls. Their answers are functions from name or summoner id
  to an answer.
- Numbers in JSON are integers. The floating-point sampling parameters of the
  OpenAI request body (`temperature`, `top_p` and the two penalties) are not
  modelled. Every other key of the body is.
- Environment and `.env` loading: the Discord, Riot and OpenAI tokens and
  `GUILD_ID`. The bearer token is not part of the modelled request.
- `src/commands/dog.rs` is not part of this model.
- `util::ping`, `util::generate_message`, `util::edit_generated_message` and
  `util::generate_embed_message` are called from `src/main.rs`,
  `src/commands/f1.rs` and `src/commands/openai.rs`, but they are not in the `util.rs` of this
  repository. They become the events `SendText`, `EditText` and `SendEmbed`,
  and routing stops at `Invoke(PingCommand)`.
- Typing broadcasts, the `println!` logging, and failures to send a Discord
  message (which serenity logs or returns as an error) are not events.
- Riot.Mastery: the champion's display text (riven's `Champion` `Display`) is
  a string field, not derived from the champion id.
- serenity's `tag()`, `avatar_url()`, `default_avatar_url()`, `icon_url()`
  and the `Display` of creation timestamps are inputs given as strings.
- Riot.LeagueStats: the summoner name is the first argument as already split
  by serenity's `Args`; quoting and delimiter rules are not modelled.
- Util.Choose: the choices are the arguments as already split on `,` by
  serenity's `Args`. The roll is an input within `[0, |choices|)`. The panic
  text for no choices is rand 0.7's wording for an empty range.
- Util.CoinFlip: the roll is an input within `[0, 2)`.
- Panic messages from `expect` are the given text only. The `: {error:?}`
  suffix Rust adds is not modelled, and neither is the error text after an
  `unwrap` panic.
- OpenAi.OrdinaryAnswerShown: covers answers without control characters
  other than newline and without backslashes. A backslash followed by `n` in
  an answer is mangled by the replacement chain; this is not stated as a
  lemma.
- Json.Obj: serde_json's `Map` has unique keys and, without the
  `preserve_order` feature, prints them sorted. The model's objects are entry
  lists: duplicate keys and unsorted entries are not excluded, `Lookup` takes
  the first match and `Render` prints entries in list order. Parsed documents
  are assumed to have unique keys in sorted order; the request body the bot
  builds is written that way.
- async/await and the tokio runtime: there is no concurrency to model.
