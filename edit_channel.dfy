/**
 * The dialog that renames a channel or changes its type.
 */
module EditChannel {
  import opened Wrappers
  import opened Domain
  import opened Web
  import opened ModalState
  import opened ChannelSchema

  const DialogKind := "editChannel"

  /** The dialog is shown while the store has it open. */
  function IsModalOpen(s: Store): (open: bool)
    ensures open ==> s.isOpen
    ensures open <==> s.isOpen && s.kind == DialogKind
  {
    IsOpenWith(s, DialogKind)
  }

  /** The initial type: the channel's own, or TEXT when no channel was given. */
  function InitialType(s: Store): (t: ChannelType)
    ensures s.data.channel.Some? ==> t == s.data.channel.value.channelType
    ensures s.data.channel.None? ==> t == Text
  {
    match s.data.channel
    case Some(c) => c.channelType
    case None => Text
  }

  /** The form's defaults, fixed when the dialog is first rendered. */
  function DefaultValues(s: Store): (v: ChannelValues)
    ensures v.name == "" && ParseChannelType(v.channelType) == Some(InitialType(s))
  {
    ParseChannelTypeName(InitialType(s));
    ChannelValues("", ChannelTypeName(InitialType(s)))
  }

  /** `/api/channels/{channel.id}?serverId={server.id}`; an absent channel
      reads "undefined" and an absent server drops the query. */
  function PatchUrl(s: Store): (url: string)
    ensures s.data.server.None? ==> url == "/api/channels/" + Interpolate(ChannelId(s.data))
    ensures s.data.server.Some? ==>
              url == "/api/channels/" + Interpolate(ChannelId(s.data)) + "?serverId=" + s.data.server.value.id
    ensures s.data.channel.Some? && s.data.server.Some? ==>
              url == "/api/channels/" + s.data.channel.value.id + "?serverId=" + s.data.server.value.id
  {
    StringifyUrl("/api/channels/" + Interpolate(ChannelId(s.data)), OptionalParam("serverId", ServerId(s.data)))
  }

  class EditChannelModal {
    var store: Store
    const defaults: ChannelValues
    var values: ChannelValues

    constructor (s: Store)
      ensures store == s
      ensures defaults == DefaultValues(s) && values == defaults
    {
      store := s;
      defaults := DefaultValues(s);
      values := DefaultValues(s);
    }

    /** The store publishes a new state (opened, closed, new payload). */
    method StoreChanged(s: Store)
      modifies this`store
      ensures store == s
    {
      store := s;
    }

    /** The effect run when the payload's channel changes: once a channel is
        present, both fields are overwritten from it (the defaults are not). */
    method Prefill()
      modifies this`values
      ensures store.data.channel.None? ==> values == old(values)
      ensures store.data.channel.Some? ==>
                values.name == store.data.channel.value.name
                && ParseChannelType(values.channelType) == Some(store.data.channel.value.channelType)
    {
      match store.data.channel {
        case Some(c) =>
          ParseChannelTypeName(c.channelType);
          values := ChannelValues(c.name, ChannelTypeName(c.channelType));
        case None =>
      }
    }

    method EnterName(name: string)
      modifies this`values
      ensures values == old(values).(name := name)
    {
      values := values.(name := name);
    }

    method SelectType(t: ChannelType)
      modifies this`values
      ensures values == old(values).(channelType := ChannelTypeName(t))
    {
      values := values.(channelType := ChannelTypeName(t));
    }

    /** Save: values the schema refuses send nothing; otherwise they are
        PATCHed, and only a successful request resets the form and closes the
        dialog. */
    method Submit(succeeds: bool) returns (r: SubmitResult<seq<FieldError>, ChannelInput>)
      modifies this`values, this`store
      ensures Validate(old(values)).Failure? ==> r == Rejected(Validate(old(values)).error)
      ensures Validate(old(values)).Success? ==>
                r == Sent(Request(Patch, PatchUrl(old(store)), Validate(old(values)).value), succeeds)
      ensures r.Sent? && succeeds ==> values == defaults && store == Closed(old(store)) && !IsModalOpen(store)
      ensures !(r.Sent? && succeeds) ==> values == old(values) && store == old(store)
    {
      var checked := Validate(values);
      if checked.Failure? {
        return Rejected(checked.error);
      }
      r := Sent(Request(Patch, PatchUrl(store), checked.value), succeeds);
      if succeeds {
        values := defaults;
        store := Closed(store);
      }
    }

    /** Dismissing the dialog always resets the form, then closes. */
    method HandleClose()
      modifies this`values, this`store
      ensures values == defaults
      ensures store == Closed(old(store)) && !IsModalOpen(store)
    {
      values := defaults;
      store := Closed(store);
    }
  }
}
