/**
 * The dialog that creates a channel in the server shown by the current route.
 */
module CreateChannel {
  import opened Wrappers
  import opened Domain
  import opened Web
  import opened ModalState
  import opened ChannelSchema

  const DialogKind := "createChannel"

  /** The dialog is shown while the store has it open. */
  function IsModalOpen(s: Store): (open: bool)
    ensures open ==> s.isOpen
    ensures open <==> s.isOpen && s.kind == DialogKind
  {
    IsOpenWith(s, DialogKind)
  }

  /** The form starts with an empty name and type TEXT. */
  const Defaults := ChannelValues("", "TEXT")

  /** Untouched, the form is refused, for its name alone. */
  lemma DefaultsAreRefused()
    ensures Validate(Defaults) == Failure([NameRequired])
  {
    assert NameErrors("") + TypeErrors("TEXT") == [NameRequired];
  }

  /** `/api/channels?serverId={serverId}` with the route's server id; without
      one the query is dropped. */
  function PostUrl(routeServerId: Option<string>): (url: string)
    ensures routeServerId.Some? ==> url == "/api/channels?serverId=" + routeServerId.value
    ensures routeServerId.None? ==> url == "/api/channels"
  {
    StringifyUrl("/api/channels", OptionalParam("serverId", routeServerId))
  }

  class CreateChannelModal {
    var store: Store
    var routeServerId: Option<string>
    var values: ChannelValues

    constructor (s: Store, serverId: Option<string>)
      ensures store == s && routeServerId == serverId && values == Defaults
    {
      store := s;
      routeServerId := serverId;
      values := Defaults;
    }

    /** The store publishes a new state (opened, closed, new payload). */
    method StoreChanged(s: Store)
      modifies this`store
      ensures store == s
    {
      store := s;
    }

    /** A render under a new route: `useParams()` yields the route's current server id. */
    method RouteChanged(serverId: Option<string>)
      modifies this`routeServerId
      ensures routeServerId == serverId
    {
      routeServerId := serverId;
    }

    method EnterName(name: string)
      modifies this`values
      ensures values == old(values).(name := name)
    {
      values := values.(name := name);
    }

    method SelectType(t: ChannelType)
      modifies this`values
      ensures values == old(values).(channelType := ChannelTypeName(t))
    {
      values := values.(channelType := ChannelTypeName(t));
    }

    /** Create: values the schema refuses send nothing; otherwise they are
        POSTed, and only a successful request resets the form and closes the
        dialog. */
    method Submit(succeeds: bool) returns (r: SubmitResult<seq<FieldError>, ChannelInput>)
      modifies this`values, this`store
      ensures Validate(old(values)).Failure? ==> r == Rejected(Validate(old(values)).error)
      ensures Validate(old(values)).Success? ==>
                r == Sent(Request(Post, PostUrl(routeServerId), Validate(old(values)).value), succeeds)
      ensures r.Sent? && succeeds ==> values == Defaults && store == Closed(old(store)) && !IsModalOpen(store)
      ensures !(r.Sent? && succeeds) ==> values == old(values) && store == old(store)
    {
      var checked := Validate(values);
      if checked.Failure? {
        return Rejected(checked.error);
      }
      r := Sent(Request(Post, PostUrl(routeServerId), checked.value), succeeds);
      if succeeds {
        values := Defaults;
        store := Closed(store);
      }
    }

    /** Dismissing the dialog always resets the form, then closes. */
    method HandleClose()
      modifies this`values, this`store
      ensures values == Defaults
      ensures store == Closed(old(store)) && !IsModalOpen(store)
    {
      values := Defaults;
      store := Closed(store);
    }
  }
}
