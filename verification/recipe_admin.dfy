/** The recipe manager page: the generic manager over recipes. Unlike the
    other managers it does not clear the editing recipe after a save. */
module RecipeAdmin {
  import opened Http
  import opened Records
  import Mirror
  import Manager
  import RecipeAdminForm

  const Messages := Manager.Messages("Failed to delete recipe.", "Error deleting recipe.")

  /** `handleDelete(id)` on the recipe list. */
  function Delete(a: Manager.Admin<Recipe>, id: int, confirmed: bool, resp: Response<(), ()>): (r: Manager.Deleted<Recipe>)
    ensures !confirmed ==> r.admin == a && !r.sent
    ensures confirmed && resp.Ok? ==> r.admin.items == Mirror.RemoveById(a.items, RecipeId, id)
    ensures confirmed && resp.Rejected? ==> r.admin == a && r.alert == Some("Failed to delete recipe.")
    ensures confirmed && resp.NetworkError? ==> r.admin == a && r.alert == Some("Error deleting recipe.")
  {
    Manager.Delete(a, RecipeId, id, confirmed, resp, Messages)
  }

  /** `handleFormSuccess`: the form closes, `editingRecipe` is kept. */
  function FormSuccess(a: Manager.Admin<Recipe>, cb: Manager.Callback<Recipe>): (r: Manager.View<Recipe>)
    ensures r.Shown? ==> !r.admin.showForm && r.admin.editing == a.editing
    ensures cb.data.Some? && !cb.isEdit ==> r.Shown? && r.admin.items == [cb.data.value] + a.items
  {
    Manager.FormSuccess(a, RecipeId, cb, false)
  }

  /** Saving an edit of the recipe at index `i` (ids unique) replaces exactly
      that position, and the edited recipe stays selected. */
  lemma EditRoundTrip(a: Manager.Admin<Recipe>, i: int, d: Recipe)
    requires Mirror.UniqueIds(a.items, RecipeId) && 0 <= i < |a.items| && d.id == a.items[i].id
    ensures var s := RecipeAdminForm.SubmitSettled(Some(a.items[i]), Ok(d));
      s.Notify? && FormSuccess(a, s.cb) == Manager.Shown(a.(items := a.items[i := d], showForm := false))
  {
    Mirror.ReplaceUniqueAt(a.items, RecipeId, i, d);
  }
}
