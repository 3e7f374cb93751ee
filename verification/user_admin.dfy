/** The user manager page: the generic manager over accounts, plus
    deactivate and reactivate, which flip `active` on the matching id. */
module UserAdmin {
  import opened Http
  import opened Records
  import Mirror
  import Manager

  const Messages := Manager.Messages("Failed to delete user.", "Error deleting user.")

  /** The outcome of a deactivate or reactivate: the new state and the alert. */
  datatype Toggled = Toggled(admin: Manager.Admin<User>, alert: Option<string>)

  /** `handleDelete(id)` on the user list. */
  function Delete(a: Manager.Admin<User>, id: int, confirmed: bool, resp: Response<(), ()>): (r: Manager.Deleted<User>)
    ensures !confirmed ==> r.admin == a && !r.sent
    ensures confirmed && resp.Ok? ==> r.admin.items == Mirror.RemoveById(a.items, UserId, id)
    ensures confirmed && resp.Rejected? ==> r.admin == a && r.alert == Some("Failed to delete user.")
    ensures confirmed && resp.NetworkError? ==> r.admin == a && r.alert == Some("Error deleting user.")
  {
    Manager.Delete(a, UserId, id, confirmed, resp, Messages)
  }

  /** `{...u, active}` for the user with id `k`, every other user unchanged. */
  function SetActiveById(users: seq<User>, k: int, active: bool): (r: seq<User>)
    ensures |r| == |users|
    ensures forall i :: 0 <= i < |users| && users[i].id == k ==> r[i] == users[i].(active := active)
    ensures forall i :: 0 <= i < |users| && users[i].id != k ==> r[i] == users[i]
  {
    Mirror.UpdateById(users, UserId, k, (u: User) => u.(active := active))
  }

  /** `handleDeactivate(id)` (`active` false) and `handleReactivate(id)`
      (`active` true): a 2xx flips the flag on the matching id; a failure
      alerts and leaves the list as it was. */
  function SetActive(a: Manager.Admin<User>, id: int, active: bool, resp: Response<(), ()>): (r: Toggled)
    ensures resp.Ok? ==> r.admin == a.(items := SetActiveById(a.items, id, active)) && r.alert.None?
    ensures resp.Rejected? ==> r.admin == a
    ensures resp.Rejected? ==> r.alert == Some(if active then "Failed to reactivate user" else "Failed to deactivate user")
    ensures resp.NetworkError? ==> r.admin == a && r.alert == Some(resp.reason)
  {
    match resp
    case Ok(_) => Toggled(a.(items := SetActiveById(a.items, id, active)), None)
    case Rejected(_) => Toggled(a, Some(if active then "Failed to reactivate user" else "Failed to deactivate user"))
    case NetworkError(m) => Toggled(a, Some(m))
  }

  /** `handleFormSuccess`: the form closes and `editingUser` is cleared. */
  function FormSuccess(a: Manager.Admin<User>, cb: Manager.Callback<User>): (r: Manager.View<User>)
    ensures r.Shown? ==> !r.admin.showForm && r.admin.editing.None?
    ensures cb.data.Some? && !cb.isEdit ==> r.Shown? && r.admin.items == [cb.data.value] + a.items
  {
    Manager.FormSuccess(a, UserId, cb, true)
  }

  /** Deactivating then reactivating an account restores the list, provided
      the account was active before. */
  lemma DeactivateThenReactivate(users: seq<User>, k: int)
    requires forall i :: 0 <= i < |users| && users[i].id == k ==> users[i].active
    ensures SetActiveById(SetActiveById(users, k, false), k, true) == users
  {
    var r := SetActiveById(SetActiveById(users, k, false), k, true);
    assert forall i :: 0 <= i < |users| ==> r[i] == users[i];
  }

  /** Flipping `active` keeps every id in place, so ids stay unique. */
  lemma SetActiveKeepsIds(users: seq<User>, k: int, active: bool)
    ensures forall i :: 0 <= i < |users| ==> SetActiveById(users, k, active)[i].id == users[i].id
    ensures Mirror.UniqueIds(users, UserId) ==> Mirror.UniqueIds(SetActiveById(users, k, active), UserId)
  {
    var r := SetActiveById(users, k, active);
    assert forall i :: 0 <= i < |users| ==> UserId(r[i]) == UserId(users[i]);
  }
}
