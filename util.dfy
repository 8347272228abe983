/**
 * The small utility commands: `user_info` and `server_info`, which describe
 * the caller and the server in an embed with fallbacks for a missing avatar,
 * icon or description; `choose`, which picks one of the comma-separated
 * choices; and `coin_flip`. Random draws and Discord's answers are inputs.
 */
module Util {
  import opened Wrappers
  import opened Text
  import opened Embeds
  import opened Io

  // ---------------------------------------------------------------------------
  // user_info
  // ---------------------------------------------------------------------------

  /**
   * The message author as serenity presents them: `tag` is `name#discriminator`,
   * `avatarUrl` the custom avatar if one is set, `createdAt` the displayed
   * creation time of the account and `id` the user's snowflake.
   */
  datatype User = User(tag: string, avatarUrl: Option<string>, defaultAvatarUrl: string, createdAt: string, id: nat)

  /** The custom avatar, or Discord's default avatar when none is set. */
  function Avatar(user: User): (url: string)
    ensures user.avatarUrl.Some? ==> url == user.avatarUrl.value
    ensures user.avatarUrl.None? ==> url == user.defaultAvatarUrl
  {
    user.avatarUrl.UnwrapOr(user.defaultAvatarUrl)
  }

  /** The reply to `user_info`: the tag as title, the avatar as thumbnail, then the creation date and the id, one per row. */
  function UserEmbed(user: User): (e: EmbedData)
    ensures e.title == Some(user.tag) && e.description.None? && e.colour == Some(DarkPurple)
    ensures e.thumbnail == Some(Avatar(user))
    ensures |e.fields| == 2 && forall k :: 0 <= k < |e.fields| ==> !e.fields[k].inline
    ensures e.fields[0] == EmbedField("Creation Date", user.createdAt, false)
    ensures e.fields[1].name == "User ID"
      && (forall k :: 0 <= k < |e.fields[1].value| ==> IsDigit(e.fields[1].value[k]))
      && DigitsValue(e.fields[1].value) == user.id
  {
    NatToStringRoundTrip(user.id);
    EmbedData(Some(user.tag), None, Some(DarkPurple), Some(Avatar(user)),
              [EmbedField("Creation Date", user.createdAt, false),
               EmbedField("User ID", NatToString(user.id), false)])
  }

  /** `user_info`: one embed describing the author. */
  function UserInfo(user: User): (run: Run)
    ensures run.outcome == Completed && |run.events| == 1 && run.events[0].SendEmbed?
    ensures run.events[0].embed.title == Some(user.tag)
    ensures run.events[0].embed.colour == Some(DarkPurple)
    ensures run.events[0].embed.thumbnail == Some(Avatar(user))
    ensures |run.events[0].embed.fields| == 2
    ensures run.events[0].embed.fields[0] == EmbedField("Creation Date", user.createdAt, false)
  {
    Run([SendEmbed(UserEmbed(user))], Completed)
  }

  /** The `User ID` field is the decimal id: reading it back gives the user's id. */
  lemma UserIdReadsBack(user: User)
    ensures var f := UserInfo(user).events[0].embed.fields[1];
      f.name == "User ID" && !f.inline
      && (forall k :: 0 <= k < |f.value| ==> IsDigit(f.value[k]))
      && DigitsValue(f.value) == user.id
  {
    NatToStringRoundTrip(user.id);
  }

  /** The reply identifies the author: equal replies come from users with the same id, tag and creation time. */
  lemma UserInfoDistinguishesUsers(u1: User, u2: User)
    requires UserInfo(u1) == UserInfo(u2)
    ensures u1.id == u2.id && u1.tag == u2.tag && u1.createdAt == u2.createdAt
  {
    UserIdReadsBack(u1);
    UserIdReadsBack(u2);
  }

  // ---------------------------------------------------------------------------
  // server_info
  // ---------------------------------------------------------------------------

  /** The server as `to_partial_guild` returns it. */
  datatype PartialGuild = PartialGuild(id: nat, name: string, region: string,
                                       iconUrl: Option<string>, description: Option<string>)

  /** The answer to `to_partial_guild`. */
  datatype GuildFetch = FetchFailed | Fetched(guild: PartialGuild)

  const DefaultServerIcon: string := "https://discord.com/assets/e7a3b51fdac2aa5ec71975d257d5c405.png"
  const NoDescription: string := "N/A"
  const ServerInfoFailed: string := "Couldnt get server info"

  /** The server's icon, or Discord's generic server picture when it has none. */
  function ServerIcon(guild: PartialGuild): (url: string)
    ensures guild.iconUrl.Some? ==> url == guild.iconUrl.value
    ensures guild.iconUrl.None? ==> url == DefaultServerIcon
  {
    guild.iconUrl.UnwrapOr(DefaultServerIcon)
  }

  /** The server's description, or `N/A` when it has none. */
  function ServerDescription(guild: PartialGuild): (text: string)
    ensures guild.description.Some? ==> text == guild.description.value
    ensures guild.description.None? ==> text == NoDescription
  {
    guild.description.UnwrapOr(NoDescription)
  }

  /**
   * The reply to `server_info`: the name as title, the icon as thumbnail,
   * then description, creation date, id and region, one per row.
   */
  function ServerEmbed(guild: PartialGuild, createdAt: string): (e: EmbedData)
    ensures e.title == Some(guild.name) && e.description.None? && e.colour == Some(DarkPurple)
    ensures e.thumbnail == Some(ServerIcon(guild))
    ensures |e.fields| == 4 && forall k :: 0 <= k < |e.fields| ==> !e.fields[k].inline
    ensures e.fields[0] == EmbedField("Server Description", ServerDescription(guild), false)
    ensures e.fields[1] == EmbedField("Creation Date", createdAt, false)
    ensures e.fields[2].name == "Server ID"
      && (forall k :: 0 <= k < |e.fields[2].value| ==> IsDigit(e.fields[2].value[k]))
      && DigitsValue(e.fields[2].value) == guild.id
    ensures e.fields[3] == EmbedField("Server Region", guild.region, false)
  {
    NatToStringRoundTrip(guild.id);
    EmbedData(Some(guild.name), None, Some(DarkPurple), Some(ServerIcon(guild)),
              [EmbedField("Server Description", ServerDescription(guild), false),
               EmbedField("Creation Date", createdAt, false),
               EmbedField("Server ID", NatToString(guild.id), false),
               EmbedField("Server Region", guild.region, false)])
  }

  /**
   * `server_info`: nothing outside a server; a panic when the server cannot
   * be fetched; otherwise one embed. `createdAt` is the displayed creation
   * time of the guild id.
   */
  function ServerInfo(guildId: Option<nat>, fetch: GuildFetch, createdAt: string): (run: Run)
    ensures guildId.None? ==> run == Run([], Completed)
    ensures guildId.Some? && fetch.FetchFailed? ==> run == Run([], Panicked(ServerInfoFailed))
    ensures guildId.Some? && fetch.Fetched? ==>
      run.outcome == Completed && |run.events| == 1 && run.events[0].SendEmbed?
      && run.events[0].embed.title == Some(fetch.guild.name)
      && run.events[0].embed.colour == Some(DarkPurple)
      && run.events[0].embed.thumbnail == Some(ServerIcon(fetch.guild))
      && |run.events[0].embed.fields| == 4
      && run.events[0].embed.fields[0] == EmbedField("Server Description", ServerDescription(fetch.guild), false)
      && run.events[0].embed.fields[1] == EmbedField("Creation Date", createdAt, false)
      && run.events[0].embed.fields[2] == EmbedField("Server ID", NatToString(fetch.guild.id), false)
      && run.events[0].embed.fields[3] == EmbedField("Server Region", fetch.guild.region, false)
  {
    match guildId
    case None => Run([], Completed)
    case Some(_) =>
      match fetch
      case FetchFailed => Run([], Panicked(ServerInfoFailed))
      case Fetched(guild) => Run([SendEmbed(ServerEmbed(guild, createdAt))], Completed)
  }

  /** Every field of a server reply sits on its own row; the description reads `N/A` exactly when the server has none (or that is its description). */
  lemma ServerFieldsStacked(guildId: nat, guild: PartialGuild, createdAt: string)
    ensures var e := ServerInfo(Some(guildId), Fetched(guild), createdAt).events[0].embed;
      (forall k :: 0 <= k < |e.fields| ==> !e.fields[k].inline)
      && e.fields[0].name == "Server Description"
      && (e.fields[0].value == NoDescription <==> guild.description.None? || guild.description == Some(NoDescription))
  {
  }

  /** The `Server ID` field reads back as the fetched server's id. */
  lemma ServerIdReadsBack(guildId: nat, guild: PartialGuild, createdAt: string)
    ensures var f := ServerInfo(Some(guildId), Fetched(guild), createdAt).events[0].embed.fields[2];
      f.name == "Server ID"
      && (forall k :: 0 <= k < |f.value| ==> IsDigit(f.value[k]))
      && DigitsValue(f.value) == guild.id
  {
    NatToStringRoundTrip(guild.id);
  }

  /** The server picture falls back to the generic one exactly when the server has no icon of its own. */
  lemma IconFallbackExactlyWhenMissing(guild: PartialGuild)
    requires guild.iconUrl != Some(DefaultServerIcon)
    ensures ServerIcon(guild) == DefaultServerIcon <==> guild.iconUrl.None?
  {
  }

  // ---------------------------------------------------------------------------
  // choose and coin_flip
  // ---------------------------------------------------------------------------

  /** The panic of `gen_range(0, 0)`: an empty range cannot be sampled. */
  const EmptyRangePanic: string := "UniformSampler::sample_single: low >= high"

  /**
   * `choose`: `choices` are the comma-separated arguments, `roll` the index
   * drawn uniformly from `[0, |choices|)`. The chosen text is sent with its
   * double quotes removed.
   */
  function Choose(choices: seq<string>, roll: nat): (run: Run)
    requires |choices| > 0 ==> roll < |choices|
    ensures |choices| == 0 ==> run == Run([], Panicked(EmptyRangePanic))
    ensures |choices| > 0 ==> run.outcome == Completed && |run.events| == 1 && run.events[0].SendText?
  {
    if |choices| == 0 then Run([], Panicked(EmptyRangePanic))
    else Run([SendText("I choose " + StripQuotes(choices[roll]) + "!")], Completed)
  }

  /** The reply names the drawn choice between `I choose ` and `!`, and holds no double quote. */
  lemma ChoiceReplyShape(choices: seq<string>, roll: nat)
    requires roll < |choices|
    ensures var text := Choose(choices, roll).events[0].text;
      |text| >= 10 && text[..9] == "I choose " && text[|text| - 1] == '!'
      && '"' !in text
      && (forall c :: c in choices[roll] && c != '"' ==> c in text)
  {
    var text := Choose(choices, roll).events[0].text;
    var middle := StripQuotes(choices[roll]);
    assert text == "I choose " + middle + "!";
    forall k | 0 <= k < |text| ensures text[k] != '"' {
      if 9 <= k < |text| - 1 { assert text[k] == middle[k - 9]; }
    }
    forall c | c in choices[roll] && c != '"' ensures c in text {
      var k :| 0 <= k < |middle| && middle[k] == c;
      assert text[9 + k] == c;
    }
  }

  /** A choice written in quotes is announced without them. */
  lemma QuotedChoiceUnquoted(choices: seq<string>, roll: nat, s: string)
    requires roll < |choices| && choices[roll] == "\"" + s + "\""
    requires '"' !in s
    ensures Choose(choices, roll).events == [SendText("I choose " + s + "!")]
  {
    StripQuotesOfQuoted(s);
  }

  /** Every one of the choices can be announced, by the roll that draws it. */
  lemma EveryChoiceReachable(choices: seq<string>, k: nat)
    requires k < |choices|
    ensures exists roll: nat ::
      roll < |choices| && Choose(choices, roll).events == [SendText("I choose " + StripQuotes(choices[k]) + "!")]
  {
    assert Choose(choices, k).events == [SendText("I choose " + StripQuotes(choices[k]) + "!")];
  }

  /** `coin_flip`: a roll of 0 is heads, the other roll tails. */
  function CoinFlip(roll: nat): (run: Run)
    requires roll < 2
    ensures run.outcome == Completed
    ensures run.events == [SendText("Heads!")] <==> roll == 0
    ensures run.events == [SendText("Tails!")] <==> roll == 1
  {
    if roll == 0 then Run([SendText("Heads!")], Completed)
    else Run([SendText("Tails!")], Completed)
  }
}
