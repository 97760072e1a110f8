/**
 * One message in a chat: who may edit or delete it, how an attached file is
 * shown, which parts of the item are rendered, where its actions point, and
 * the inline edit mode with its form.
 */
module Chat {
  import opened Wrappers
  import opened Strings
  import opened Web
  import opened Domain

  /** The properties a chat item is rendered with. `author` is the member who
      wrote the message, `currentMember` the viewer's membership. */
  datatype ChatItemProps = ChatItemProps(
    id: string,
    content: string,
    author: Member,
    timestamp: string,
    fileUrl: Option<string>,
    deleted: bool,
    currentMember: Member,
    isUpdated: bool,
    socketUrl: string,
    socketQuery: seq<QueryParam>)

  /** What the item shows. */
  datatype ChatView = ChatView(
    authorIcon: Option<RoleIcon>,
    showImage: bool,
    showPdf: bool,
    showText: bool,
    showEditedMarker: bool,
    showEditForm: bool,
    showActionBar: bool,
    showEditButton: bool,
    showDeleteButton: bool)

  /** The payload the Delete button opens the "deleteMessage" dialog with. */
  datatype DeleteDialogRequest = DeleteDialogRequest(kind: string, apiUrl: string, query: seq<QueryParam>)

  /** The body of the PATCH that saves an edit. */
  datatype EditBody = EditBody(content: string)

  datatype EditError = ContentRequired

  /** The shield beside the author's name: none for a guest, one per staff
      role. The chat item keeps its own role map, apart from the members
      dialog's (they differ only in colour). */
  function AuthorIcon(p: ChatItemProps): (icon: Option<RoleIcon>)
    ensures icon.None? <==> p.author.role == Guest
    ensures icon == Some(ShieldAlert) <==> p.author.role == Admin
    ensures icon == Some(ShieldCheck) <==> p.author.role == Moderator
  {
    match p.author.role
    case Guest => None
    case Moderator => Some(ShieldCheck)
    case Admin => Some(ShieldAlert)
  }

  /** JavaScript truthiness of `fileUrl`: neither null nor the empty string. */
  predicate HasFile(fileUrl: Option<string>)
  {
    fileUrl.Some? && fileUrl.value != ""
  }

  /** `fileUrl?.split(".").pop()`: the text after the last ".", or the whole
      URL when it has no "."; undefined when there is no URL. */
  function FileType(fileUrl: Option<string>): (ext: Option<string>)
    ensures ext.None? <==> fileUrl.None?
    ensures ext.Some? ==> '.' !in ext.value
    ensures ext.Some? ==> |ext.value| <= |fileUrl.value|
                          && fileUrl.value[|fileUrl.value| - |ext.value|..] == ext.value
    ensures ext.Some? && '.' !in fileUrl.value ==> ext.value == fileUrl.value
    ensures ext.Some? && '.' in fileUrl.value ==>
              |ext.value| < |fileUrl.value|
              && fileUrl.value[|fileUrl.value| - |ext.value| - 1] == '.'
  {
    match fileUrl
    case None => None
    case Some(u) => LastSegment(u, '.'); Some(Last(Split(u, '.')))
  }

  predicate IsAdmin(p: ChatItemProps) { p.currentMember.role == Admin }

  predicate IsModerator(p: ChatItemProps) { p.currentMember.role == Moderator }

  /** The viewer wrote the message. */
  predicate IsOwner(p: ChatItemProps) { p.currentMember.id == p.author.id }

  /** A live message may be deleted by its author and by any admin or moderator. */
  function CanDeleteMessage(p: ChatItemProps): (r: bool)
    ensures p.deleted ==> !r
    ensures !p.deleted && p.currentMember.role != Guest ==> r
    ensures !p.deleted && p.currentMember.id == p.author.id ==> r
    ensures r && p.currentMember.role == Guest ==> p.currentMember.id == p.author.id
  {
    !p.deleted && (IsAdmin(p) || IsModerator(p) || IsOwner(p))
  }

  /** Only the author may edit, and only a live message without a file. */
  function CanEditMessage(p: ChatItemProps): (r: bool)
    ensures r ==> CanDeleteMessage(p)
    ensures r ==> p.currentMember.id == p.author.id && !p.deleted && !HasFile(p.fileUrl)
    ensures p.currentMember.id == p.author.id && !p.deleted && !HasFile(p.fileUrl) ==> r
  {
    !p.deleted && IsOwner(p) && !HasFile(p.fileUrl)
  }

  /** The file is shown as a PDF link: its URL is "pdf" or ends in ".pdf". */
  function IsPdf(p: ChatItemProps): (r: bool)
    ensures r <==> HasFile(p.fileUrl) && EndsWithPdf(p.fileUrl.value)
  {
    if HasFile(p.fileUrl) then
      PdfExtension(p.fileUrl.value);
      FileType(p.fileUrl) == Some("pdf")
    else false
  }

  /** Every other file is shown as an image. */
  function IsImage(p: ChatItemProps): (r: bool)
    ensures r <==> HasFile(p.fileUrl) && !EndsWithPdf(p.fileUrl.value)
  {
    !IsPdf(p) && HasFile(p.fileUrl)
  }

  predicate EndsWithPdf(u: string)
  {
    u == "pdf" || (|u| >= 4 && u[|u| - 4..] == ".pdf")
  }

  /** The extension is exactly "pdf" iff the URL is "pdf" or ends in ".pdf". */
  lemma PdfExtension(u: string)
    ensures FileType(Some(u)) == Some("pdf") <==> EndsWithPdf(u)
  {
    var e := FileType(Some(u)).value;
    var n := |u|;
    if e == "pdf" && '.' in u {
      assert u[n - 4..] == [u[n - 4]] + u[n - 3..];
    }
    if u != "pdf" && n >= 4 && u[n - 4..] == ".pdf" {
      assert u[n - 4] == '.';
      var tail := u[n - 3..];
      assert tail == "pdf";
      assert e == tail;
    }
  }

  /** For a non-empty URL exactly one of the two file views applies; for a
      missing or empty URL neither does. */
  lemma FileViewsPartition(p: ChatItemProps)
    ensures HasFile(p.fileUrl) ==> IsPdf(p) != IsImage(p)
    ensures !HasFile(p.fileUrl) ==> !IsPdf(p) && !IsImage(p)
  {
  }

  /** "pdf" is matched case-sensitively: an upper-case ".PDF" is shown as an image. */
  lemma UpperCasePdfIsImage(p: ChatItemProps)
    requires p.fileUrl == Some("report.PDF")
    ensures IsImage(p) && !IsPdf(p)
  {
  }

  /** The item as rendered while `isEditing` has the given value. */
  function Render(p: ChatItemProps, isEditing: bool): (v: ChatView)
    ensures v.authorIcon == AuthorIcon(p)
    ensures v.showImage == IsImage(p) && v.showPdf == IsPdf(p)
    ensures !(v.showText && v.showEditForm)
    ensures HasFile(p.fileUrl) ==> !v.showText && !v.showEditForm
    ensures !HasFile(p.fileUrl) ==> (v.showText <==> !isEditing) && (v.showEditForm <==> isEditing)
    ensures v.showEditedMarker <==> v.showText && p.isUpdated && !p.deleted
    ensures v.showActionBar <==> CanDeleteMessage(p)
    ensures v.showEditButton ==> v.showActionBar
    ensures v.showEditButton <==> CanEditMessage(p)
    ensures v.showDeleteButton <==> v.showActionBar
  {
    var text := !HasFile(p.fileUrl) && !isEditing;
    var actions := CanDeleteMessage(p);
    ChatView(
      authorIcon := AuthorIcon(p),
      showImage := IsImage(p),
      showPdf := IsPdf(p),
      showText := text,
      showEditedMarker := text && p.isUpdated && !p.deleted,
      showEditForm := !HasFile(p.fileUrl) && isEditing,
      showActionBar := actions,
      showEditButton := actions && CanEditMessage(p),
      showDeleteButton := actions)
  }

  /** The edit form does not look at permissions: once edit mode is on, the
      form stays up for a message that has since been deleted, which nobody
      may edit. */
  lemma EditFormOutlivesPermission(p: ChatItemProps)
    requires p.deleted && p.fileUrl.None?
    ensures Render(p, true).showEditForm && !CanEditMessage(p)
  {
  }

  /** Where a click on the author's avatar or name leads: nowhere for one's own
      messages, otherwise the direct conversation with the author. */
  function MemberClickTarget(p: ChatItemProps, serverId: Option<string>): (route: Option<string>)
    ensures route.None? <==> p.author.id == p.currentMember.id
    ensures route.Some? ==>
              route.value == "/servers/" + Interpolate(serverId) + "/conversations/" + p.author.id
  {
    if p.author.id == p.currentMember.id then None
    else Some("/servers/" + Interpolate(serverId) + "/conversations/" + p.author.id)
  }

  /** The message's own endpoint under the socket API. */
  function MessageApiUrl(p: ChatItemProps): string
  {
    p.socketUrl + "/" + p.id
  }

  /** The URL an edit is PATCHed to. */
  function EditUrl(p: ChatItemProps): (url: string)
    ensures |url| >= |p.socketUrl| + 1 + |p.id|
    ensures url[..|p.socketUrl| + 1 + |p.id|] == p.socketUrl + "/" + p.id
    ensures url == p.socketUrl + "/" + p.id <==> p.socketQuery == []
  {
    StringifyUrl(MessageApiUrl(p), p.socketQuery)
  }

  /** The Delete button hands the delete dialog the very endpoint and query
      that an edit is sent to. */
  function DeleteTarget(p: ChatItemProps): (d: DeleteDialogRequest)
    ensures d.kind == "deleteMessage"
    ensures StringifyUrl(d.apiUrl, d.query) == EditUrl(p)
    ensures d.query == p.socketQuery
  {
    DeleteDialogRequest("deleteMessage", MessageApiUrl(p), p.socketQuery)
  }

  /** The edit form's schema: the content must be a non-empty string. */
  function ValidateEdit(content: string): (r: Result<EditBody, EditError>)
    ensures r.Success? <==> content != ""
    ensures r.Success? ==> r.value.content == content
  {
    if |content| >= 1 then Success(EditBody(content)) else Failure(ContentRequired)
  }

  /** The Escape key test of the window's keydown handler. */
  predicate IsEscape(key: string, keyCode: int)
  {
    key == "Escape" || keyCode == 27
  }

  /** A mounted chat item: its current properties, the edit-mode flag and the
      edit form (its value and the defaults `reset()` restores). */
  class ChatItem {
    var props: ChatItemProps
    var isEditing: bool
    var formContent: string
    var formDefault: string

    constructor (p: ChatItemProps)
      ensures props == p && !isEditing
      ensures formContent == p.content && formDefault == p.content
    {
      props := p;
      isEditing := false;
      formContent := p.content;
      formDefault := p.content;
    }

    /** What is on screen now. */
    function View(): (v: ChatView)
      reads this
      ensures v.showEditForm ==> isEditing
      ensures v.showText ==> !isEditing
      ensures !HasFile(props.fileUrl) ==> (v.showEditForm <==> isEditing) && (v.showText <==> !isEditing)
      ensures HasFile(props.fileUrl) ==> !v.showText && !v.showEditForm
      ensures v.showActionBar <==> CanDeleteMessage(props)
      ensures v.showEditButton <==> CanEditMessage(props)
    {
      Render(props, isEditing)
    }

    /** A re-render with new properties; when the content changed, the form is
        reset to it (and it becomes the form's new default). */
    method ReceiveProps(p: ChatItemProps)
      modifies this`props, this`formContent, this`formDefault
      ensures props == p
      ensures p.content != old(props.content) ==> formContent == p.content && formDefault == p.content
      ensures p.content == old(props.content) ==>
                formContent == old(formContent) && formDefault == old(formDefault)
    {
      var previous := props.content;
      props := p;
      if p.content != previous {
        formContent, formDefault := p.content, p.content;
      }
    }

    /** Typing into the edit field. */
    method InputContent(s: string)
      modifies this`formContent
      ensures formContent == s
    {
      formContent := s;
    }

    /** The Edit button. */
    method ClickEdit()
      modifies this`isEditing
      ensures isEditing
    {
      isEditing := true;
    }

    /** A key press anywhere in the window: Escape leaves edit mode (without
        touching what was typed); every other key changes nothing. */
    method KeyDown(key: string, keyCode: int)
      modifies this`isEditing
      ensures isEditing == (old(isEditing) && !IsEscape(key, keyCode))
    {
      if IsEscape(key, keyCode) {
        isEditing := false;
      }
    }

    /** Saving the edit form. An empty content is refused before any request;
        otherwise the content is PATCHed to the message's endpoint, and only
        a request that succeeds resets the form and leaves edit mode. */
    method Submit(succeeds: bool) returns (r: SubmitResult<EditError, EditBody>)
      modifies this`isEditing, this`formContent
      ensures ValidateEdit(old(formContent)).Failure? ==> r == Rejected(ContentRequired)
      ensures ValidateEdit(old(formContent)).Success? ==>
                r == Sent(Request(Patch, EditUrl(props), EditBody(old(formContent))), succeeds)
      ensures r.Sent? && succeeds ==> !isEditing && formContent == formDefault
      ensures !(r.Sent? && succeeds) ==> isEditing == old(isEditing) && formContent == old(formContent)
    {
      var checked := ValidateEdit(formContent);
      if checked.Failure? {
        return Rejected(checked.error);
      }
      var request := Request(Patch, EditUrl(props), checked.value);
      r := Sent(request, succeeds);
      if succeeds {
        formContent := formDefault;
        isEditing := false;
      }
    }
  }
}
