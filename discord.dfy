/** The Discord message values the cogs build: embeds with their fields, colours and mentions. */
module Discord {
  import opened Wrappers
  import opened Text

  datatype Colour = DefaultColour | Blue | Red | Green | Orange

  datatype EmbedField = EmbedField(name: string, value: string, inline: bool)

  /** An embed; `description` and `thumbnail` are `None` until the cog sets them. */
  datatype Embed = Embed(
    title: string,
    description: Option<string>,
    colour: Colour,
    fields: seq<EmbedField>,
    thumbnail: Option<string>)

  /** `Embed(title=...)` with nothing else set. */
  function NewEmbed(title: string): Embed
  {
    Embed(title, None, DefaultColour, [], None)
  }

  /** `channel.type.name`, reduced to the kinds the cogs tell apart. */
  datatype ChannelKind = TextKind | VoiceKind | CategoryKind | OtherKind

  /** A guild channel: its id, name, type and the id of the category it sits in. */
  datatype GuildChannel = GuildChannel(id: nat, name: string, kind: ChannelKind, categoryId: Option<nat>)

  /** `<@id>`, the mention of a user. */
  function UserMention(id: nat): string
  {
    "<@" + NatToString(id) + ">"
  }

  /** `<@&id>`, the mention of a role. */
  function RoleMention(id: nat): string
  {
    "<@&" + NatToString(id) + ">"
  }

  /** `<#id>`, the mention of a channel. */
  function ChannelMention(id: nat): string
  {
    "<#" + NatToString(id) + ">"
  }

  /** One reply of a command: a text message or an embed. */
  datatype Response = TextResponse(text: string) | EmbedResponse(embed: Embed)
}
