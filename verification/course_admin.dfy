/** The course manager page: the generic manager over courses, clearing the
    editing course after every form success. */
module CourseAdmin {
  import opened Http
  import opened Records
  import Mirror
  import Manager
  import CourseAdminForm

  const Messages := Manager.Messages("Failed to delete course.", "Error deleting course.")

  /** `handleDelete(id)` on the course list. */
  function Delete(a: Manager.Admin<Course>, id: int, confirmed: bool, resp: Response<(), ()>): (r: Manager.Deleted<Course>)
    ensures !confirmed ==> r.admin == a && !r.sent
    ensures confirmed && resp.Ok? ==> r.admin.items == Mirror.RemoveById(a.items, CourseId, id)
    ensures confirmed && resp.Rejected? ==> r.admin == a && r.alert == Some("Failed to delete course.")
    ensures confirmed && resp.NetworkError? ==> r.admin == a && r.alert == Some("Error deleting course.")
  {
    Manager.Delete(a, CourseId, id, confirmed, resp, Messages)
  }

  /** `handleFormSuccess(x, isEdit = false)`: the form closes and
      `editingCourse` is cleared. */
  function FormSuccess(a: Manager.Admin<Course>, cb: Manager.Callback<Course>): (r: Manager.View<Course>)
    ensures r.Shown? ==> !r.admin.showForm && r.admin.editing.None?
    ensures cb.data.Some? && !cb.isEdit ==> r.Shown? && r.admin.items == [cb.data.value] + a.items
  {
    Manager.FormSuccess(a, CourseId, cb, true)
  }

  /** A created course from the form lands at index 0. */
  lemma CreateRoundTrip(a: Manager.Admin<Course>, d: Course)
    ensures var s := CourseAdminForm.SubmitSettled(None, Ok(d));
      s.Notify? && FormSuccess(a, s.cb).Shown? && FormSuccess(a, s.cb).admin.items[0] == d
  {
  }

  /** The form-level delete reports `onSuccess(null)` without a flag, which
      this page prepends: the list then holds `null` and cannot render. */
  lemma FormDeleteBreaksList(a: Manager.Admin<Course>, c: Course)
    ensures var s := CourseAdminForm.DeleteSettled(Some(c), true, Ok(()));
      s.Notify? && FormSuccess(a, s.cb).RenderError?
  {
  }
}
