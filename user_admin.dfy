/** One row of the admin's user table: the inline role editor and the delete button, with
    the rules that keep an admin from demoting or deleting their own account. The two
    mutations are awaited; each is split into the step that issues it and the step in which
    it settles. */
module UserAdmin {
  import opened Wrappers
  import opened JsStrings

  const AvailableRoles: seq<string> := ["attendee", "organizer", "speaker", "admin"]

  /** A toast notification. */
  datatype Toast = Success(text: string) | Failure(text: string)

  const OwnRoleRefused := "Cannot change your own role from Admin via this panel."
  const OwnDeleteRefused := "You cannot delete your own account"

  /** What saving the selected role does before any request. */
  datatype SaveAction =
    | CloseUnchanged                       // nothing selected differs: just close the editor
    | RefuseOwnDemotion                    // own row, non-admin role: refuse and reset to admin
    | RequestUpdate(userId: string, role: string)

  function SaveDecision(userId: string, role: string, selected: string, isSelf: bool): (a: SaveAction)
    ensures a.CloseUnchanged? <==> selected == role
    ensures a.RefuseOwnDemotion? <==> selected != role && isSelf && selected != "admin"
    ensures a.RequestUpdate? ==> a.userId == userId && a.role == selected && selected != role
    ensures a.RequestUpdate? && isSelf ==> selected == "admin"
  {
    if selected == role then CloseUnchanged
    else if isSelf && selected != "admin" then RefuseOwnDemotion
    else RequestUpdate(userId, selected)
  }

  /** What the delete button does before any request. */
  datatype DeleteAction = RefuseOwnDelete | NotConfirmed | RequestDelete(userId: string)

  function DeleteDecision(userId: string, isSelf: bool, confirmed: bool): (a: DeleteAction)
    ensures a.RequestDelete? <==> !isSelf && confirmed
    ensures a.RequestDelete? ==> a.userId == userId
    ensures a.RefuseOwnDelete? <==> isSelf
  {
    if isSelf then RefuseOwnDelete
    else if confirmed then RequestDelete(userId)
    else NotConfirmed
  }

  /** The edit button is hidden on the admin's own row while its role is admin. */
  predicate EditVisible(isSelf: bool, role: string) {
    !(isSelf && role == "admin")
  }

  /** The delete button is hidden on the admin's own row. */
  predicate DeleteVisible(isSelf: bool) {
    !isSelf
  }

  /** The save button is disabled while a role update is in flight or nothing changed. */
  predicate SaveDisabled(updating: bool, selected: string, role: string) {
    updating || selected == role
  }

  /** On their own row an admin can neither issue a role change away from admin nor a
      deletion, whatever is selected or confirmed. */
  lemma OwnAccountProtected(userId: string, role: string, selected: string, confirmed: bool)
    ensures SaveDecision(userId, role, selected, true).RequestUpdate? ==> selected == "admin"
    ensures !DeleteDecision(userId, true, confirmed).RequestDelete?
    ensures !DeleteVisible(true) && (role == "admin" ==> !EditVisible(true, role))
  {
  }

  /** A save the button allows always leaves the unchanged case aside. */
  lemma EnabledSaveChangesSomething(userId: string, role: string, selected: string, isSelf: bool)
    requires !SaveDisabled(false, selected, role)
    ensures !SaveDecision(userId, role, selected, isSelf).CloseUnchanged?
  {
  }

  class UserRow {
    const userId: string
    const name: string
    const role: string
    /** Whether this row is the signed-in admin's own account. */
    const isSelf: bool
    var isEditingRole: bool
    var selectedRole: string
    var updating: bool
    var deleting: bool
    var roleRequests: seq<(string, string)>
    var deleteRequests: seq<string>
    var toasts: seq<Toast>

    /** Every request names this row's user, on the admin's own row no deletion and no
        role other than admin was ever requested, and an update in flight is the last
        role request, whose role stays selected since the controls are disabled meanwhile. */
    predicate Valid()
      reads this
    {
      (updating ==> roleRequests != [] && roleRequests[|roleRequests| - 1].1 == selectedRole) &&
      (forall i :: 0 <= i < |roleRequests| ==> roleRequests[i].0 == userId) &&
      (forall i :: 0 <= i < |deleteRequests| ==> deleteRequests[i] == userId) &&
      (isSelf ==> deleteRequests == [] && forall i :: 0 <= i < |roleRequests| ==> roleRequests[i].1 == "admin")
    }

    /** The selection starts at the row's role. */
    constructor (id: string, n: string, r: string, currentAdminId: Option<string>)
      ensures userId == id && name == n && role == r && (isSelf <==> currentAdminId == Some(id))
      ensures !isEditingRole && selectedRole == r && !updating && !deleting
      ensures roleRequests == [] && deleteRequests == [] && toasts == [] && Valid()
    {
      userId := id;
      name := n;
      role := r;
      isSelf := currentAdminId == Some(id);
      isEditingRole := false;
      selectedRole := r;
      updating := false;
      deleting := false;
      roleRequests := [];
      deleteRequests := [];
      toasts := [];
    }

    /** The edit button, shown only where the rules allow it. */
    method StartEdit()
      requires Valid()
      requires !isEditingRole && EditVisible(isSelf, role)
      modifies this
      ensures Valid()
      ensures isEditingRole && selectedRole == old(selectedRole) && updating == old(updating)
      ensures roleRequests == old(roleRequests) && deleteRequests == old(deleteRequests) && toasts == old(toasts)
    {
      isEditingRole := true;
    }

    /** A choice in the role select, which is shown only while editing, offers only the
        available roles and is disabled while an update is in flight. */
    method SelectRole(r: string)
      requires Valid()
      requires isEditingRole && !updating
      requires r in AvailableRoles
      modifies this
      ensures Valid()
      ensures selectedRole == r && isEditingRole == old(isEditingRole) && updating == old(updating)
      ensures roleRequests == old(roleRequests) && deleteRequests == old(deleteRequests) && toasts == old(toasts)
    {
      selectedRole := r;
    }

    /** The cancel button, shown only while editing and disabled while an update is in
        flight, restores the selection and closes the editor. */
    method CancelEdit()
      requires Valid()
      requires isEditingRole && !updating
      modifies this
      ensures Valid()
      ensures !isEditingRole && selectedRole == role && updating == old(updating)
      ensures roleRequests == old(roleRequests) && deleteRequests == old(deleteRequests) && toasts == old(toasts)
    {
      isEditingRole := false;
      selectedRole := role;
    }

    /** `handleSaveRole` up to the awaited request. */
    method SaveRole() returns (a: SaveAction)
      requires Valid()
      requires !updating
      modifies this
      ensures Valid()
      ensures a == SaveDecision(userId, role, old(selectedRole), isSelf)
      ensures a.CloseUnchanged? ==> !isEditingRole && selectedRole == old(selectedRole) &&
                                    toasts == old(toasts) && roleRequests == old(roleRequests) && updating == old(updating)
      ensures a.RefuseOwnDemotion? ==> !isEditingRole && selectedRole == "admin" &&
                                       toasts == old(toasts) + [Failure(OwnRoleRefused)] &&
                                       roleRequests == old(roleRequests) && updating == old(updating)
      ensures a.RequestUpdate? ==> isEditingRole == old(isEditingRole) && selectedRole == old(selectedRole) &&
                                   toasts == old(toasts) && updating &&
                                   roleRequests == old(roleRequests) + [(userId, old(selectedRole))]
      ensures deleteRequests == old(deleteRequests) && deleting == old(deleting)
    {
      a := SaveDecision(userId, role, selectedRole, isSelf);
      match a
      case CloseUnchanged =>
        isEditingRole := false;
      case RefuseOwnDemotion =>
        toasts := toasts + [Failure(OwnRoleRefused)];
        selectedRole := "admin";
        isEditingRole := false;
      case RequestUpdate(id, r) =>
        updating := true;
        roleRequests := roleRequests + [(id, r)];
    }

    /** The role request settles: success confirms the role the request carried and closes;
        failure toasts the server's message or a default, resets the selection to the row's
        role and closes. */
    method SettleRoleUpdate(succeeded: bool, serverMessage: Option<string>)
      requires Valid()
      requires updating
      modifies this
      ensures Valid()
      ensures !updating && !isEditingRole
      ensures succeeded ==> selectedRole == old(selectedRole) &&
                            toasts == old(toasts) + [Success("Role for " + name + " updated to " + old(roleRequests[|roleRequests| - 1].1))]
      ensures !succeeded ==> selectedRole == role &&
                             toasts == old(toasts) + [Failure(MessageOr(serverMessage, "Failed to update role."))]
      ensures roleRequests == old(roleRequests) && deleteRequests == old(deleteRequests) && deleting == old(deleting)
    {
      if succeeded {
        toasts := toasts + [Success("Role for " + name + " updated to " + roleRequests[|roleRequests| - 1].1)];
      } else {
        toasts := toasts + [Failure(MessageOr(serverMessage, "Failed to update role."))];
        selectedRole := role;
      }
      isEditingRole := false;
      updating := false;
    }

    /** `handleDeleteUser` up to the awaited request; `confirmed` is the answer to the
        confirmation dialog, asked only on another user's row. */
    method DeleteUser(confirmed: bool) returns (a: DeleteAction)
      requires Valid()
      requires !deleting
      modifies this
      ensures Valid()
      ensures a == DeleteDecision(userId, isSelf, confirmed)
      ensures a.RefuseOwnDelete? ==> toasts == old(toasts) + [Failure(OwnDeleteRefused)]
      ensures !a.RefuseOwnDelete? ==> toasts == old(toasts)
      ensures a.RequestDelete? ==> deleting && deleteRequests == old(deleteRequests) + [userId]
      ensures !a.RequestDelete? ==> deleting == old(deleting) && deleteRequests == old(deleteRequests)
      ensures roleRequests == old(roleRequests) && isEditingRole == old(isEditingRole) &&
              selectedRole == old(selectedRole) && updating == old(updating)
    {
      a := DeleteDecision(userId, isSelf, confirmed);
      match a
      case RefuseOwnDelete =>
        toasts := toasts + [Failure(OwnDeleteRefused)];
      case NotConfirmed =>
      case RequestDelete(id) =>
        deleting := true;
        deleteRequests := deleteRequests + [id];
    }

    method SettleDelete(succeeded: bool, serverMessage: Option<string>)
      requires Valid()
      requires deleting
      modifies this
      ensures Valid()
      ensures !deleting
      ensures succeeded ==> toasts == old(toasts) + [Success("User " + name + " deleted successfully.")]
      ensures !succeeded ==> toasts == old(toasts) + [Failure(MessageOr(serverMessage, "Failed to delete user."))]
      ensures roleRequests == old(roleRequests) && deleteRequests == old(deleteRequests)
      ensures isEditingRole == old(isEditingRole) && selectedRole == old(selectedRole) && updating == old(updating)
    {
      if succeeded {
        toasts := toasts + [Success("User " + name + " deleted successfully.")];
      } else {
        toasts := toasts + [Failure(MessageOr(serverMessage, "Failed to delete user."))];
      }
      deleting := false;
    }
  }
}
