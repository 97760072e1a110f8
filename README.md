# CinemaDen chat and dialog rules, in Dafny

CinemaDen is a chat application organised as servers with members and channels. Its web
front end is made of React components. This project models the rules inside four of them,
written as Dafny datatypes, functions, lemmas and small classes, and proves properties of them:

- **Chat item** (`components/chat/chat-item.tsx`), one rendered message. It covers:
  - who may edit or delete the message (author, admin, moderator; soft-deleted messages and file messages);
  - how an attached file is classified as PDF or image from the text after the last "." of its URL;
  - which of the text, the "(edited)" marker, the edit form and the action bar are shown;
  - where a click on the author, an edit and a delete point to;
  - the inline edit mode: the Edit button, Escape, and save with success or failure, together with the edit form's value and defaults.
- **Edit channel dialog** (`components/modals/edit-channel-modal.tsx`): the channel form schema, the defaults, the prefill from the channel, the PATCH URL, and what save and dismiss do to the form and the dialog.
- **Create channel dialog** (`components/modals/create-channel-modal.tsx`): the same schema, the fixed defaults, the POST URL built from the route's server id, and save and dismiss.
- **Members dialog** (`components/modals/members-modal.tsx`): one row per member, with its role icon, the role menu (never for the server owner) and the Guest check mark. It also covers the member count and the invite URL.

Both channel dialogs declare the same schema. It is modelled once, in `ChannelSchema`.

Modules: `Wrappers` (Option, Result), `Strings` (`split` and `pop`), `Web` (requests,
`stringifyUrl`, template-literal text), `Domain` (roles, channel types, members, channels,
servers), `ModalState` (the part of the modal store the dialogs read), `Chat`,
`ChannelSchema`, `EditChannel`, `CreateChannel`, `Members`, `Dialogs`.

The source's state changes are modelled as classes: `Chat.ChatItem`, `EditChannel.EditChannelModal`
and `CreateChannel.CreateChannelModal`. Their methods are the component's handlers and effects.
Network calls appear only through their outcome: every `Submit` takes a `succeeds` flag and
returns the request it would send.

Three behaviours of the code that are easy to miss:

- Escape only leaves edit mode; it does not discard what was typed. The next Edit shows the typed text again (`Chat.ChatItem.KeyDown`).
- The reserved channel name is the exact lower-case string "general"; "General" is accepted.
- The edit form is not tied to the edit permission. If a message is deleted while its author is editing it, the form stays up and can still send a PATCH (`Chat.EditFormOutlivesPermission`).

## Model

| member | source | states |
|---|---|---|
| `Strings.Split` | cinemaden/components/chat/chat-item.tsx:100 | `split(".")` yields at least one piece; no piece contains the separator; there is exactly one piece iff the string has no separator |
| `Strings.JoinSplit` | cinemaden/components/chat/chat-item.tsx:100 | joining the pieces of a split with the separator gives back the original string |
| `Strings.LastSegment` | cinemaden/components/chat/chat-item.tsx:100 | the popped last piece is a separator-free suffix of the string; it is the whole string when there is no separator, and otherwise it directly follows a separator |
| `Chat.FileType` | cinemaden/components/chat/chat-item.tsx:100 | undefined iff there is no file URL; otherwise the text after the last "." (a suffix with no "." that follows a "."), or the whole URL when it has no "." |
| `Chat.AuthorIcon` | cinemaden/components/chat/chat-item.tsx:35-39 | the author's badge is absent iff the author is a GUEST; an ADMIN gets the alert shield, a MODERATOR the check shield |
| `Chat.CanDeleteMessage` | cinemaden/components/chat/chat-item.tsx:101-104 | a deleted message can never be deleted; on a live message an ADMIN or MODERATOR may always delete, and so may the author; a GUEST who may delete is the author |
| `Chat.CanEditMessage` | cinemaden/components/chat/chat-item.tsx:103-105 | edit permission holds iff the viewer is the author, the message is live and it has no file (role plays no part); it implies delete permission |
| `Chat.IsPdf` | cinemaden/components/chat/chat-item.tsx:106 | a file is shown as a PDF iff the URL is non-empty and is "pdf" or ends in ".pdf" |
| `Chat.IsImage` | cinemaden/components/chat/chat-item.tsx:107 | a file is shown as an image iff the URL is non-empty and neither is "pdf" nor ends in ".pdf" |
| `Chat.PdfExtension` | cinemaden/components/chat/chat-item.tsx:100-106 | the extension is exactly "pdf" iff the URL is "pdf" or ends in ".pdf" |
| `Chat.FileViewsPartition` | cinemaden/components/chat/chat-item.tsx:106-107 | for a non-empty URL exactly one of PDF and image holds; for a null or empty URL neither does |
| `Chat.UpperCasePdfIsImage` | cinemaden/components/chat/chat-item.tsx:106-107 | the comparison with "pdf" is case-sensitive: "report.PDF" is shown as an image |
| `Chat.Render` | cinemaden/components/chat/chat-item.tsx:129-187 | text view and edit form are never both shown, and neither is shown for a file message; without a file exactly one is shown, chosen by edit mode; "(edited)" appears iff the text is shown, the message was updated and is not deleted; the action bar and the Delete button appear iff delete is allowed; the Edit button appears iff edit is allowed, and only inside the bar |
| `Chat.EditFormOutlivesPermission` | cinemaden/components/chat/chat-item.tsx:152 | with edit mode on, the form is shown for a deleted message that nobody may edit |
| `Chat.MemberClickTarget` | cinemaden/components/chat/chat-item.tsx:53-58 | clicking one's own avatar or name goes nowhere; any other author leads to `/servers/{serverId}/conversations/{author id}`, with "undefined" for a missing server id |
| `Chat.EditUrl` | cinemaden/components/chat/chat-item.tsx:88-91 | an edit goes to `{socketUrl}/{id}`, followed by a query exactly when the socket query has an entry |
| `Chat.DeleteTarget` | cinemaden/components/chat/chat-item.tsx:183 | the Delete button opens "deleteMessage" with the same endpoint and query that an edit is sent to |
| `Chat.ValidateEdit` | cinemaden/components/chat/chat-item.tsx:41-43 | edited content is accepted iff it is a non-empty string, and is sent unchanged |
| `Chat.ChatItem.constructor` | cinemaden/components/chat/chat-item.tsx:71-76 | a new item is not in edit mode; its form holds, and defaults to, the message content |
| `Chat.ChatItem.View` | cinemaden/components/chat/chat-item.tsx:142-152 | the form is on screen only in edit mode and the text only outside it |
| `Chat.ChatItem.ReceiveProps` | cinemaden/components/chat/chat-item.tsx:78-82 | new content resets the form to it and makes it the new default; otherwise the form is untouched; edit mode is never changed |
| `Chat.ChatItem.InputContent` | cinemaden/components/chat/chat-item.tsx:155-159 | typing sets the form's content |
| `Chat.ChatItem.ClickEdit` | cinemaden/components/chat/chat-item.tsx:179 | the Edit button turns edit mode on |
| `Chat.ChatItem.KeyDown` | cinemaden/components/chat/chat-item.tsx:60-65 | Escape (by key name or key code 27) turns edit mode off; any other key changes nothing; the form is never touched |
| `Chat.ChatItem.Submit` | cinemaden/components/chat/chat-item.tsx:86-98 | empty content sends nothing; otherwise the content is PATCHed to the edit URL; success resets the form to its defaults and leaves edit mode; failure and refusal change nothing |
| `Web.StringifyUrl` | cinemaden/components/modals/edit-channel-modal.tsx:60-65 | the built URL starts with the base URL; it equals the base URL iff the query is empty, and is otherwise followed by "?" |
| `Web.OptionalParam` | cinemaden/components/modals/create-channel-modal.tsx:56-58 | a query entry whose value is undefined is dropped; a defined one is kept under its key |
| `Domain.ParseChannelType` | cinemaden/components/modals/edit-channel-modal.tsx:32 | a type string is accepted exactly when it is one of "TEXT", "AUDIO", "VIDEO", and names the enum member it yields |
| `Domain.ParseChannelTypeName` | cinemaden/components/modals/edit-channel-modal.tsx:120-124 | every enum member offered by the select is accepted as itself |
| `ModalState.Closed` | cinemaden/components/modals/edit-channel-modal.tsx:70 | after `onClose()` no dialog is open |
| `ChannelSchema.NameErrors` | cinemaden/components/modals/edit-channel-modal.tsx:24-31 | the name is refused as required iff it is empty, and as reserved iff it is exactly "general"; never both |
| `ChannelSchema.TypeErrors` | cinemaden/components/modals/edit-channel-modal.tsx:32 | the type is refused iff it is not a member of the channel-type enum |
| `ChannelSchema.Validate` | cinemaden/components/modals/edit-channel-modal.tsx:23-33 | the form is accepted iff the name is non-empty, not "general" and the type is in the enum; accepted values keep name and type; a refusal lists each failing rule and only those |
| `ChannelSchema.RefusalMessages` | cinemaden/components/modals/edit-channel-modal.tsx:24-31 | for any type, an empty name is refused with "Channel name is required." and the name "general" with "Channel name cannot be 'general'" |
| `ChannelSchema.ReservedNameIsCaseSensitive` | cinemaden/components/modals/edit-channel-modal.tsx:27 | "General" is accepted; "general" is refused with the reserved-name error alone |
| `ChannelSchema.SelectedTypeIsValid` | cinemaden/components/modals/edit-channel-modal.tsx:104-130 | with a type chosen from the select, the form is refused iff the name is empty or "general" |
| `EditChannel.IsModalOpen` | cinemaden/components/modals/edit-channel-modal.tsx:39 | the dialog is open iff the store is open with kind "editChannel" |
| `EditChannel.InitialType` | cinemaden/components/modals/edit-channel-modal.tsx:46 | the initial type is the channel's type, or TEXT when there is no channel |
| `EditChannel.DefaultValues` | cinemaden/components/modals/edit-channel-modal.tsx:44-47 | the defaults are an empty name and the initial type |
| `EditChannel.PatchUrl` | cinemaden/components/modals/edit-channel-modal.tsx:60-65 | with channel and server present the URL is `/api/channels/{channel.id}?serverId={server.id}`; with a server present the query `?serverId={server.id}` follows, and a missing channel reads "undefined"; without a server the query is dropped |
| `EditChannel.EditChannelModal.constructor` | cinemaden/components/modals/edit-channel-modal.tsx:42-48 | the form starts at, and keeps as its defaults, the default values |
| `EditChannel.EditChannelModal.StoreChanged` | cinemaden/components/modals/edit-channel-modal.tsx:36 | the dialog reads the store's new state |
| `EditChannel.EditChannelModal.Prefill` | cinemaden/components/modals/edit-channel-modal.tsx:50-55 | once a channel is present, name and type are overwritten from it; without one nothing changes; the defaults are never changed |
| `EditChannel.EditChannelModal.EnterName` | cinemaden/components/modals/edit-channel-modal.tsx:93-103 | typing sets the name field only |
| `EditChannel.EditChannelModal.SelectType` | cinemaden/components/modals/edit-channel-modal.tsx:104-130 | choosing a type sets the type field only |
| `EditChannel.EditChannelModal.Submit` | cinemaden/components/modals/edit-channel-modal.tsx:58-75 | refused values send nothing; accepted values are PATCHed to the channel URL; success resets the form to its defaults and closes the dialog; failure leaves form and dialog unchanged |
| `EditChannel.EditChannelModal.HandleClose` | cinemaden/components/modals/edit-channel-modal.tsx:77-80 | dismissing always resets the form and closes the dialog |
| `CreateChannel.IsModalOpen` | cinemaden/components/modals/create-channel-modal.tsx:39 | the dialog is open iff the store is open with kind "createChannel" |
| `CreateChannel.DefaultsAreRefused` | cinemaden/components/modals/create-channel-modal.tsx:44-47 | the untouched form (name "", type TEXT) is refused, only because the name is required |
| `CreateChannel.PostUrl` | cinemaden/components/modals/create-channel-modal.tsx:54-59 | the request goes to `/api/channels?serverId={route server id}`, or to `/api/channels` when the route has none |
| `CreateChannel.CreateChannelModal.constructor` | cinemaden/components/modals/create-channel-modal.tsx:42-48 | the form starts at the fixed defaults and the dialog holds the current route's server id (`RouteChanged` replaces it on later renders) |
| `CreateChannel.CreateChannelModal.RouteChanged` | cinemaden/components/modals/create-channel-modal.tsx:37 | a render under a new route takes that route's server id, which the next POST uses |
| `CreateChannel.CreateChannelModal.StoreChanged` | cinemaden/components/modals/create-channel-modal.tsx:35 | the dialog reads the store's new state |
| `CreateChannel.CreateChannelModal.EnterName` | cinemaden/components/modals/create-channel-modal.tsx:87-97 | typing sets the name field only |
| `CreateChannel.CreateChannelModal.SelectType` | cinemaden/components/modals/create-channel-modal.tsx:98-124 | choosing a type sets the type field only |
| `CreateChannel.CreateChannelModal.Submit` | cinemaden/components/modals/create-channel-modal.tsx:52-69 | refused values send nothing; accepted values are POSTed to the create URL; success resets the form and closes the dialog; failure leaves both unchanged |
| `CreateChannel.CreateChannelModal.HandleClose` | cinemaden/components/modals/create-channel-modal.tsx:71-74 | cancel always resets the form and closes the dialog |
| `Members.RoleIconOf` | cinemaden/components/modals/members-modal.tsx:16-20 | GUEST has no icon; ADMIN gets the alert shield and MODERATOR the check shield |
| `Members.RoleIconInjective` | cinemaden/components/modals/members-modal.tsx:16-20 | two roles with the same icon (or both none) are the same role |
| `Members.RowFor` | cinemaden/components/modals/members-modal.tsx:42-81 | a member's row has exactly the icon its role maps to; it offers the role menu iff the member is not the owner's profile and not the member being updated; the check mark beside "Guest" is on screen iff the menu is and the role is GUEST |
| `Members.Rows` | cinemaden/components/modals/members-modal.tsx:41-82 | there is one row per member, in the members' order |
| `Members.InviteUrl` | cinemaden/components/modals/members-modal.tsx:28 | the invite URL is origin + "/invite/" + the invite code ("undefined" without a server) |
| `Members.Dialog` | cinemaden/components/modals/members-modal.tsx:25-37 | the dialog is open iff the store is open with kind "members"; the total equals the length of the server's member list, and the rows are exactly the members' rows, in order |
| `Members.RoleMenuExactlyForNonOwners` | cinemaden/components/modals/members-modal.tsx:53 | the owner's row never offers the role menu; with the initial empty `loadingId`, every other member with an id gets it |
| `Dialogs.AtMostOneDialogOpen` | cinemaden/components/modals/members-modal.tsx:25 | the create, edit and members dialogs key on distinct kinds, so no two are open together |

## Left out

- Network calls (axios PATCH/POST), `router.refresh`, `router.push` and `console.log`: each `Submit` takes the request's outcome as a parameter and returns the request; the click target is returned instead of pushed.
- `isSubmitting` (inputs and buttons disabled while a request is in flight) and concurrent re-renders during a request: no concurrency is modelled.
- The window keydown listener's registration and cleanup. The cleanup removes "keyDown" rather than "keydown", so the listener is never removed. That is a browser-API leak and is outside this model; only the handler's effect is modelled (`Chat.ChatItem.KeyDown`).
- React's effect scheduling. `Chat.ChatItem.ReceiveProps` and `EditChannel.EditChannelModal.Prefill` are called where React would run the effects. The prefill effect's dependency on the channel object's identity is not modelled.
- Web.StringifyUrl: does not sort query keys, percent-encode, or merge a query already present in the base URL, as `query-string` does. The queries built here have one key, or come from the caller in order.
- ChannelSchema.ErrorMessage: only the two name messages are the source's text; zod's own enum message and its error object structure are not modelled.
- Chat.ValidateEdit: zod's `min(1)` counts UTF-16 code units; the model counts characters. Both agree on the only boundary that matters, the empty string.
- ModalState.Closed: the modal store is not part of this model. Its `onClose` is modelled only as "no dialog open"; whatever else it resets is not captured.
- Members: the `loadingId` setter is never called in the source, so no role change is modelled. Names, e-mails, avatars, the scroll area and the dropdown's layout are display only.
- Display-only parts: timestamps, avatars, link targets of the file views, and all styling and icons beyond which shield a role gets.
- The paginated message cache, the real-time bus and the modal store itself, none of which is part of the modelled files.
- The navigation sidebar, the delete-server dialog, the emoji picker, the mobile toggle and the app layouts, which are layout, database or third-party wiring.
