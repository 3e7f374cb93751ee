/** The blog manager page: the generic manager over posts, clearing the
    editing post after every form success. */
module BlogAdmin {
  import opened Http
  import opened Records
  import Mirror
  import Manager
  import BlogAdminForm

  const Messages := Manager.Messages("Failed to delete post.", "Error deleting post.")

  /** `handleDelete(id)` on the post list. */
  function Delete(a: Manager.Admin<Post>, id: int, confirmed: bool, resp: Response<(), ()>): (r: Manager.Deleted<Post>)
    ensures !confirmed ==> r.admin == a && !r.sent
    ensures confirmed && resp.Ok? ==> r.admin.items == Mirror.RemoveById(a.items, PostId, id)
    ensures confirmed && resp.Rejected? ==> r.admin == a && r.alert == Some("Failed to delete post.")
    ensures confirmed && resp.NetworkError? ==> r.admin == a && r.alert == Some("Error deleting post.")
  {
    Manager.Delete(a, PostId, id, confirmed, resp, Messages)
  }

  /** `handleFormSuccess`: the form closes and `editingPost` is cleared. */
  function FormSuccess(a: Manager.Admin<Post>, cb: Manager.Callback<Post>): (r: Manager.View<Post>)
    ensures r.Shown? ==> !r.admin.showForm && r.admin.editing.None?
    ensures cb.data.Some? && !cb.isEdit ==> r.Shown? && r.admin.items == [cb.data.value] + a.items
  {
    Manager.FormSuccess(a, PostId, cb, true)
  }

  /** Saving an edit of the post at index `i` (ids unique) replaces exactly
      that position with the server's copy. */
  lemma EditRoundTrip(a: Manager.Admin<Post>, i: int, d: Post)
    requires Mirror.UniqueIds(a.items, PostId) && 0 <= i < |a.items| && d.id == a.items[i].id
    ensures var s := BlogAdminForm.SubmitSettled(Some(a.items[i]), Ok(d));
      s.Notify? && FormSuccess(a, s.cb) == Manager.Shown(a.(items := a.items[i := d], editing := None, showForm := false))
  {
    Mirror.ReplaceUniqueAt(a.items, PostId, i, d);
  }

  /** The form-level delete calls `onSuccess(null)` without a flag, so this
      page takes it for a create and puts `null` at the top of the list; the
      deleted post stays listed and the next render fails. */
  lemma FormDeleteBreaksList(a: Manager.Admin<Post>, p: Post)
    ensures var s := BlogAdminForm.DeleteSettled(Some(p), true, Ok(()));
      s.Notify? && FormSuccess(a, s.cb).RenderError?
  {
  }
}
