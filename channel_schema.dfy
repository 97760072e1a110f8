/**
 * The form both channel dialogs share: a channel name and a channel type,
 * checked by the same schema before anything is sent.
 */
module ChannelSchema {
  import opened Wrappers
  import opened Domain

  /** The form's field values, as the inputs hold them. */
  datatype ChannelValues = ChannelValues(name: string, channelType: string)

  /** The values once the schema accepted them. */
  datatype ChannelInput = ChannelInput(name: string, channelType: ChannelType)

  datatype FieldError = NameRequired | NameReserved | InvalidChannelType

  /** The only name no user may give a channel. */
  const ReservedName := "general"

  /** The message shown under the offending field. */
  function ErrorMessage(e: FieldError): string
  {
    match e
    case NameRequired => "Channel name is required."
    case NameReserved => "Channel name cannot be 'general'"
    case InvalidChannelType => "Invalid enum value"
  }

  /** The name field's issues: at least one character, and not "general". */
  function NameErrors(name: string): (errs: seq<FieldError>)
    ensures NameRequired in errs <==> name == ""
    ensures NameReserved in errs <==> name == ReservedName
    ensures InvalidChannelType !in errs
    ensures |errs| <= 1
  {
    if |name| < 1 then [NameRequired]
    else if name == ReservedName then [NameReserved]
    else []
  }

  /** The type field's issue: the value must be a member of the enum. */
  function TypeErrors(channelType: string): (errs: seq<FieldError>)
    ensures errs == [] <==> ParseChannelType(channelType).Some?
    ensures errs != [] ==> errs == [InvalidChannelType]
  {
    if ParseChannelType(channelType).Some? then [] else [InvalidChannelType]
  }

  /** The schema: accepts the values, or lists every issue in field order. */
  function Validate(v: ChannelValues): (r: Result<ChannelInput, seq<FieldError>>)
    ensures r.Success? <==> v.name != "" && v.name != ReservedName && ParseChannelType(v.channelType).Some?
    ensures r.Success? ==> r.value.name == v.name && ChannelTypeName(r.value.channelType) == v.channelType
    ensures r.Failure? ==> r.error != []
                           && (NameRequired in r.error <==> v.name == "")
                           && (NameReserved in r.error <==> v.name == ReservedName)
                           && (InvalidChannelType in r.error <==> ParseChannelType(v.channelType).None?)
  {
    var errs := NameErrors(v.name) + TypeErrors(v.channelType);
    if errs == [] then Success(ChannelInput(v.name, ParseChannelType(v.channelType).value))
    else Failure(errs)
  }

  /** A refused empty name shows "Channel name is required.", a refused
      "general" shows "Channel name cannot be 'general'", whatever the type. */
  lemma RefusalMessages(t: string)
    ensures Validate(ChannelValues("", t)).Failure?
    ensures NameRequired in Validate(ChannelValues("", t)).error
    ensures ErrorMessage(NameRequired) == "Channel name is required."
    ensures Validate(ChannelValues(ReservedName, t)).Failure?
    ensures NameReserved in Validate(ChannelValues(ReservedName, t)).error
    ensures ErrorMessage(NameReserved) == "Channel name cannot be 'general'"
  {
  }

  /** Only the exact lower-case "general" is reserved. */
  lemma ReservedNameIsCaseSensitive()
    ensures Validate(ChannelValues("General", "TEXT")) == Success(ChannelInput("General", Text))
    ensures Validate(ChannelValues("general", "TEXT")) == Failure([NameReserved])
  {
    assert NameErrors("general") == [NameReserved];
    assert TypeErrors("TEXT") == [];
    assert NameErrors("general") + TypeErrors("TEXT") == [NameReserved];
  }

  /** Every channel type chosen from the select passes the type check, so a
      form is refused only for its name. */
  lemma SelectedTypeIsValid(name: string, t: ChannelType)
    ensures Validate(ChannelValues(name, ChannelTypeName(t))).Failure? <==> name == "" || name == ReservedName
  {
  }
}
