/** The `/channel` subcommands (commands/channels/channel.js): the type option
    mapping, the type names shown by info, and the delete and edit guards. The
    channel changes themselves are platform calls. */
module Channels {
  import opened Common

  /** The platform's channel type numbers. */
  const GuildText := 0
  const GuildVoice := 2
  const GuildCategory := 4
  const GuildAnnouncement := 5
  const GuildStageVoice := 13

  /** The type option of create; anything else gives a text channel. */
  function ChannelTypeOf(option: string): (t: int)
    ensures t in {GuildText, GuildVoice, GuildCategory, GuildAnnouncement, GuildStageVoice}
    ensures option !in {"text", "voice", "category", "announcement", "stage"} ==> t == GuildText
  {
    match option
    case "text" => GuildText
    case "voice" => GuildVoice
    case "category" => GuildCategory
    case "announcement" => GuildAnnouncement
    case "stage" => GuildStageVoice
    case _ => GuildText
  }

  function TypeName(t: int): (name: string)
    ensures name == "Unknown" <==> t !in {GuildText, GuildVoice, GuildCategory, GuildAnnouncement, GuildStageVoice}
  {
    if t == GuildText then "Text Channel"
    else if t == GuildVoice then "Voice Channel"
    else if t == GuildCategory then "Category"
    else if t == GuildAnnouncement then "Announcement Channel"
    else if t == GuildStageVoice then "Stage Channel"
    else "Unknown"
  }

  /** Every channel create can make has a name in info, and the five type options
      give five different types. */
  lemma CreatedTypesAreNamed(a: string, b: string)
    ensures TypeName(ChannelTypeOf(a)) != "Unknown"
    ensures a in {"text", "voice", "category", "announcement", "stage"} &&
            b in {"text", "voice", "category", "announcement", "stage"} && a != b ==>
              ChannelTypeOf(a) != ChannelTypeOf(b)
  {
  }

  datatype Reply = Done | NotDeletable | NotManageable | NothingToEdit | Failed

  function DeleteCheck(deletable: bool, ok: bool): (r: Reply)
    ensures r == Done <==> deletable && ok
    ensures !deletable ==> r == NotDeletable
  {
    if !deletable then NotDeletable else if !ok then Failed else Done
  }

  /** The options object of edit: a name when non-empty, a parent when given, and
      nsfw only for a text channel. */
  datatype EditFields = EditFields(name: Option<string>, parent: Option<string>, nsfw: Option<bool>)

  datatype EditResult = EditRefused(reason: Reply) | EditWith(fields: EditFields)

  function EditOptions(manageable: bool, channelType: int, name: Option<string>, parent: Option<string>,
                       nsfw: Option<bool>): (r: EditResult)
    ensures !manageable ==> r == EditRefused(NotManageable)
    ensures r == EditRefused(NothingToEdit) <==>
              manageable && (name.None? || name.value == "") && parent.None? && nsfw.None?
    ensures r.EditWith? <==> manageable && !((name.None? || name.value == "") && parent.None? && nsfw.None?)
    ensures r.EditWith? ==>
              && manageable
              && (r.fields.name.Some? <==> name.Some? && name.value != "")
              && (r.fields.name.Some? ==> r.fields.name == name)
              && r.fields.parent == parent
              && (r.fields.nsfw.Some? <==> nsfw.Some? && channelType == GuildText)
              && (r.fields.nsfw.Some? ==> r.fields.nsfw == nsfw)
  {
    if !manageable then EditRefused(NotManageable)
    else if (name.None? || name.value == "") && parent.None? && nsfw.None? then EditRefused(NothingToEdit)
    else EditWith(EditFields(if name.Some? && name.value != "" then name else None, parent,
                             if nsfw.Some? && channelType == GuildText then nsfw else None))
  }

  /** nsfw alone on a channel that is not a text channel passes the guard but edits
      nothing. */
  lemma NsfwAloneOnVoiceEditsNothing(nsfw: bool)
    ensures EditOptions(true, GuildVoice, None, None, Some(nsfw)) == EditWith(EditFields(None, None, None))
  {
  }

  /** The extra fields of info: nsfw and topic for text and announcement channels,
      bitrate and user limit for voice and stage channels. */
  datatype InfoExtra = TextInfo | VoiceInfo | NoInfo

  function InfoExtraOf(t: int): (e: InfoExtra)
    ensures e == TextInfo <==> t == GuildText || t == GuildAnnouncement
    ensures e == VoiceInfo <==> t == GuildVoice || t == GuildStageVoice
  {
    if t == GuildText || t == GuildAnnouncement then TextInfo
    else if t == GuildVoice || t == GuildStageVoice then VoiceInfo
    else NoInfo
  }
}
