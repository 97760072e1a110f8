/**
 * How the dialogs share the one modal store.
 */
module Dialogs {
  import opened ModalState
  import EditChannel
  import CreateChannel
  import Members

  /** Every dialog keys on its own kind, so at most one of them is shown. */
  lemma AtMostOneDialogOpen(s: Store)
    ensures !(EditChannel.IsModalOpen(s) && CreateChannel.IsModalOpen(s))
    ensures !(EditChannel.IsModalOpen(s) && Members.Dialog(s, "", "").open)
    ensures !(CreateChannel.IsModalOpen(s) && Members.Dialog(s, "", "").open)
  {
  }
}
