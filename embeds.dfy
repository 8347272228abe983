/**
 * The two serenity builders the bot fills in place: `MessageBuilder`, which
 * accumulates message text, and `CreateEmbed`, which accumulates the parts of
 * a rich reply. Each is a class whose methods append to its fields; the
 * finished embed is handed on as an `EmbedData` value.
 */
module Embeds {
  import opened Wrappers

  /** serenity's `Colour::DARK_PURPLE`, the colour of every embed the bot sends. */
  const DarkPurple: nat := 0x71368A

  /** One named column of an embed; inline fields are laid out side by side. */
  datatype EmbedField = EmbedField(name: string, value: string, inline: bool)

  /** A finished embed as it is sent. */
  datatype EmbedData = EmbedData(
    title: Option<string>,
    description: Option<string>,
    colour: Option<nat>,
    thumbnail: Option<string>,
    fields: seq<EmbedField>)

  const EmptyEmbed: EmbedData := EmbedData(None, None, None, None, [])

  /** serenity's `MessageBuilder`: text appended piece by piece. */
  class MessageBuilder {
    var content: string

    constructor ()
      ensures content == ""
    {
      content := "";
    }

    /** `MessageBuilder::push`: append `text` unchanged. */
    method Push(text: string)
      modifies this
      ensures content == old(content) + text
    {
      content := content + text;
    }

    /** The accumulated text, as the builder converts into a `String`. */
    function Build(): string
      reads this
    {
      content
    }
  }

  /** serenity's `CreateEmbed`, set up part by part. */
  class Embed {
    var title: Option<string>
    var description: Option<string>
    var colour: Option<nat>
    var thumbnail: Option<string>
    var fields: seq<EmbedField>

    /** `CreateEmbed::default()`: nothing set, no fields. */
    constructor Default()
      ensures Data() == EmptyEmbed
    {
      title, description, colour, thumbnail, fields := None, None, None, None, [];
    }

    function Data(): EmbedData
      reads this
    {
      EmbedData(title, description, colour, thumbnail, fields)
    }

    method SetTitle(t: string)
      modifies this
      ensures title == Some(t)
      ensures description == old(description) && colour == old(colour) && thumbnail == old(thumbnail) && fields == old(fields)
    {
      title := Some(t);
    }

    method SetDescription(d: string)
      modifies this
      ensures description == Some(d)
      ensures title == old(title) && colour == old(colour) && thumbnail == old(thumbnail) && fields == old(fields)
    {
      description := Some(d);
    }

    method SetColour(c: nat)
      modifies this
      ensures colour == Some(c)
      ensures title == old(title) && description == old(description) && thumbnail == old(thumbnail) && fields == old(fields)
    {
      colour := Some(c);
    }

    method SetThumbnail(url: string)
      modifies this
      ensures thumbnail == Some(url)
      ensures title == old(title) && description == old(description) && colour == old(colour) && fields == old(fields)
    {
      thumbnail := Some(url);
    }

    /** `CreateEmbed::field`: append one field after those already present. */
    method AddField(name: string, value: string, inline: bool)
      modifies this
      ensures fields == old(fields) + [EmbedField(name, value, inline)]
      ensures title == old(title) && description == old(description) && colour == old(colour) && thumbnail == old(thumbnail)
    {
      fields := fields + [EmbedField(name, value, inline)];
    }
  }
}
