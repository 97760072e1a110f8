/**
 * The database entities the dialogs and the chat item read (the Prisma
 * schema's `MemberRole`, `ChannelType`, `Member`, `Channel`, `Server`),
 * reduced to the fields the modelled rules look at.
 */
module Domain {
  import opened Wrappers

  datatype MemberRole = Guest | Moderator | Admin

  datatype ChannelType = Text | Audio | Video

  datatype Member = Member(id: string, profileId: string, role: MemberRole)

  datatype Channel = Channel(id: string, name: string, channelType: ChannelType)

  /** `profileId` is the owning profile; `members` in the order the query returned them. */
  datatype Server = Server(id: string, profileId: string, inviteCode: string, members: seq<Member>)

  /** The shield icons shown beside a member's name (styling left out). */
  datatype RoleIcon = ShieldCheck | ShieldAlert

  /** The string value of a `ChannelType` enum member. */
  function ChannelTypeName(t: ChannelType): string
  {
    match t
    case Text => "TEXT"
    case Audio => "AUDIO"
    case Video => "VIDEO"
  }

  /** Membership in the `ChannelType` enum: accepts exactly the enum's string values. */
  function ParseChannelType(s: string): (t: Option<ChannelType>)
    ensures t.Some? ==> ChannelTypeName(t.value) == s
    ensures t.None? ==> s != "TEXT" && s != "AUDIO" && s != "VIDEO"
  {
    if s == "TEXT" then Some(Text)
    else if s == "AUDIO" then Some(Audio)
    else if s == "VIDEO" then Some(Video)
    else None
  }

  /** Every enum member is accepted under its own name, so parsing inverts naming. */
  lemma ParseChannelTypeName(t: ChannelType)
    ensures ParseChannelType(ChannelTypeName(t)) == Some(t)
  {
  }
}
