/** The plant manager page: the generic manager over plants, clearing the
    editing plant after every form success. */
module PlantAdmin {
  import opened Http
  import opened Records
  import Mirror
  import Manager
  import PlantAdminForm

  const Messages := Manager.Messages("Failed to delete plant.", "Error deleting plant.")

  /** `handleDelete(id)` on the plant list. */
  function Delete(a: Manager.Admin<Plant>, id: int, confirmed: bool, resp: Response<(), ()>): (r: Manager.Deleted<Plant>)
    ensures !confirmed ==> r.admin == a && !r.sent
    ensures confirmed && resp.Ok? ==> r.admin.items == Mirror.RemoveById(a.items, PlantId, id)
    ensures confirmed && resp.Rejected? ==> r.admin == a && r.alert == Some("Failed to delete plant.")
    ensures confirmed && resp.NetworkError? ==> r.admin == a && r.alert == Some("Error deleting plant.")
  {
    Manager.Delete(a, PlantId, id, confirmed, resp, Messages)
  }

  /** `handleFormSuccess`: the form closes and `editingPlant` is cleared. */
  function FormSuccess(a: Manager.Admin<Plant>, cb: Manager.Callback<Plant>): (r: Manager.View<Plant>)
    ensures r.Shown? ==> !r.admin.showForm && r.admin.editing.None?
    ensures cb.data.Some? && !cb.isEdit ==> r.Shown? && r.admin.items == [cb.data.value] + a.items
  {
    Manager.FormSuccess(a, PlantId, cb, true)
  }

  /** Because the form does not check the status, the body of a refused
      create is put at the top of the list as if it were a new plant. */
  lemma RefusedCreateIsListed(a: Manager.Admin<Plant>, body: Plant)
    ensures var s := PlantAdminForm.SubmitSettled(None, Rejected(body));
      s.Notify? && FormSuccess(a, s.cb).Shown? && FormSuccess(a, s.cb).admin.items == [body] + a.items
  {
  }
}
