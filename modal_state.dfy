/**
 * The part of the global modal store that the dialogs read: whether a dialog
 * is open, which one, and the payload it was opened with.
 */
module ModalState {
  import opened Wrappers
  import opened Domain

  datatype ModalData = ModalData(channel: Option<Channel>, server: Option<Server>)

  datatype Store = Store(isOpen: bool, kind: string, data: ModalData)

  /** The store after `onClose()`: no dialog is open. */
  function Closed(s: Store): (c: Store)
    ensures !c.isOpen
  {
    s.(isOpen := false)
  }

  /** `isOpen && type === kind`: the store shows the dialog of that kind. */
  predicate IsOpenWith(s: Store, kind: string)
  {
    s.isOpen && s.kind == kind
  }

  /** `data.channel?.id` */
  function ChannelId(d: ModalData): Option<string>
  {
    if d.channel.Some? then Some(d.channel.value.id) else None
  }

  /** `data.server?.id` */
  function ServerId(d: ModalData): Option<string>
  {
    if d.server.Some? then Some(d.server.value.id) else None
  }
}
