/**
 * The "Manage Members" dialog: one row per member of the server, with the
 * role badge and, for members other than the owner, the role menu.
 */
module Members {
  import opened Wrappers
  import opened Domain
  import opened Web
  import opened ModalState

  const DialogKind := "members"

  /** `loadingId` starts empty and nothing sets it. */
  const InitialLoadingId := ""

  /** A member's row. `guestMarkShown` is the check mark beside "Guest",
      which lives inside the role menu and so is on screen only with it. */
  datatype MemberRow = MemberRow(member: Member, icon: Option<RoleIcon>, showsRoleMenu: bool, guestMarkShown: bool)

  datatype MembersDialog = MembersDialog(open: bool, total: Option<nat>, inviteUrl: string, rows: seq<MemberRow>)

  /** The shield beside a member's name: none for a guest, one per staff role. */
  function RoleIconOf(role: MemberRole): (icon: Option<RoleIcon>)
    ensures icon.None? <==> role == Guest
    ensures icon == Some(ShieldAlert) <==> role == Admin
    ensures icon == Some(ShieldCheck) <==> role == Moderator
  {
    match role
    case Guest => None
    case Moderator => Some(ShieldCheck)
    case Admin => Some(ShieldAlert)
  }

  /** Different roles never show the same badge. */
  lemma RoleIconInjective(a: MemberRole, b: MemberRole)
    requires RoleIconOf(a) == RoleIconOf(b)
    ensures a == b
  {
  }

  /** The role menu is offered for everyone but the server's owner and the
      member whose role is being changed. */
  predicate ShowsRoleMenu(server: Server, m: Member, loadingId: string)
  {
    server.profileId != m.profileId && loadingId != m.id
  }

  /** The row for one member. */
  function RowFor(server: Server, m: Member, loadingId: string): (row: MemberRow)
    ensures row.member == m
    ensures row.icon == RoleIconOf(m.role)
    ensures row.icon.None? <==> m.role == Guest
    ensures row.showsRoleMenu ==> m.profileId != server.profileId
    ensures row.showsRoleMenu <==> ShowsRoleMenu(server, m, loadingId)
    ensures row.guestMarkShown ==> row.showsRoleMenu
    ensures row.guestMarkShown <==> row.showsRoleMenu && m.role == Guest
  {
    var menu := ShowsRoleMenu(server, m, loadingId);
    MemberRow(m, RoleIconOf(m.role), menu, menu && m.role == Guest)
  }

  /** `members.map(...)`: one row per member, in order. */
  function Rows(server: Server, members: seq<Member>, loadingId: string): (rows: seq<MemberRow>)
    ensures |rows| == |members|
    ensures forall i :: 0 <= i < |members| ==> rows[i] == RowFor(server, members[i], loadingId)
  {
    if members == [] then []
    else [RowFor(server, members[0], loadingId)] + Rows(server, members[1..], loadingId)
  }

  /** `${origin}/invite/${server?.inviteCode}` */
  function InviteUrl(origin: string, server: Option<Server>): (url: string)
    ensures server.Some? ==> url == origin + "/invite/" + server.value.inviteCode
    ensures server.None? ==> url == origin + "/invite/undefined"
  {
    origin + "/invite/" + Interpolate(if server.Some? then Some(server.value.inviteCode) else None)
  }

  /** The dialog for a store state. */
  function Dialog(s: Store, origin: string, loadingId: string): (d: MembersDialog)
    ensures d.open <==> s.isOpen && s.kind == DialogKind
    ensures s.data.server.None? ==> d.total.None? && d.rows == []
    ensures s.data.server.Some? ==> d.total == Some(|s.data.server.value.members|)
                                    && |d.rows| == |s.data.server.value.members|
    ensures s.data.server.Some? ==> d.rows == Rows(s.data.server.value, s.data.server.value.members, loadingId)
    ensures d.inviteUrl == InviteUrl(origin, s.data.server)
  {
    match s.data.server
    case None => MembersDialog(IsOpenWith(s, DialogKind), None, InviteUrl(origin, None), [])
    case Some(srv) =>
      MembersDialog(IsOpenWith(s, DialogKind), Some(|srv.members|),
                    InviteUrl(origin, Some(srv)), Rows(srv, srv.members, loadingId))
  }

  /** The owner never gets a role menu, whatever `loadingId` is; with the
      initial empty `loadingId` every other member with an id does. */
  lemma RoleMenuExactlyForNonOwners(s: Store, origin: string, loadingId: string, i: nat)
    requires s.data.server.Some? && i < |s.data.server.value.members|
    ensures var m := s.data.server.value.members[i];
            var row := Dialog(s, origin, loadingId).rows[i];
            && row.member == m
            && (m.profileId == s.data.server.value.profileId ==> !row.showsRoleMenu)
            && (loadingId == InitialLoadingId && m.id != "" && m.profileId != s.data.server.value.profileId
                ==> row.showsRoleMenu)
  {
  }
}
