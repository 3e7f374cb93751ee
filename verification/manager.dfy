/** The state machine every admin manager page shares: the mirrored list,
    the record open in the form (if any) and whether the form is shown.
    The list changes only after the server confirms (or, for the load,
    after a body arrives). */
module Manager {
  import opened Http
  import Mirror

  datatype Admin<T> = Admin(items: seq<T>, editing: Option<T>, showForm: bool)

  /** The arguments a form passes to `onSuccess(data, isEdit)`: `data` is
      `None` for `null`, and an omitted flag is `false` (the parent's
      default parameter). */
  datatype Callback<T> = Callback(data: Option<T>, isEdit: bool)

  /** How a form's request settles: `onSuccess` is called, a browser alert
      is raised, an inline error is set, or nothing observable happens
      (no request was sent, or the promise rejects with no handler). */
  datatype Settled<T> = Notify(cb: Callback<T>) | Alert(message: string) | ShowError(message: string) | Silent

  /** After a form success the page either shows the new state, or holds a
      `null` entry whose `.id` the next render reads, which throws. */
  datatype View<T> = Shown(admin: Admin<T>) | RenderError

  /** The alert texts of a page's delete handler. */
  datatype Messages = Messages(rejected: string, failed: string)

  /** A settled delete: the new state, whether a request went out, the alert. */
  datatype Deleted<T> = Deleted(admin: Admin<T>, sent: bool, alert: Option<string>)

  function Init<T>(): (a: Admin<T>)
    ensures a.items == [] && a.editing.None? && !a.showForm
  {
    Admin([], None, false)
  }

  /** The mount-time load `fetch(...).then(r => r.json()).then(setItems)`:
      a parsed body replaces the list wholesale; a thrown error is only
      logged. */
  function Load<T>(a: Admin<T>, body: Option<seq<T>>): (r: Admin<T>)
    ensures body.Some? ==> r.items == body.value
    ensures body.None? ==> r == a
    ensures r.editing == a.editing && r.showForm == a.showForm
  {
    match body
    case Some(xs) => a.(items := xs)
    case None => a
  }

  /** The Edit button: open the form on `x`. */
  function Edit<T>(a: Admin<T>, x: T): (r: Admin<T>)
    ensures r.items == a.items && r.editing == Some(x) && r.showForm
  {
    a.(editing := Some(x), showForm := true)
  }

  /** The Create button: open an empty form. */
  function Create<T>(a: Admin<T>): (r: Admin<T>)
    ensures r.items == a.items && r.editing.None? && r.showForm
  {
    a.(editing := None, showForm := true)
  }

  /** `handleDelete(k)`: without confirmation nothing is sent; a 2xx removes
      the records with id `k`; a refusal or network failure alerts and
      leaves the list as it was. */
  function Delete<T>(a: Admin<T>, idOf: T -> int, k: int, confirmed: bool, resp: Response<(), ()>, msgs: Messages): (r: Deleted<T>)
    ensures !confirmed ==> r == Deleted(a, false, None)
    ensures confirmed ==> r.sent
    ensures confirmed && resp.Ok? ==>
      r.admin == a.(items := Mirror.RemoveById(a.items, idOf, k)) && r.alert.None?
    ensures confirmed && resp.Rejected? ==> r.admin == a && r.alert == Some(msgs.rejected)
    ensures confirmed && resp.NetworkError? ==> r.admin == a && r.alert == Some(msgs.failed)
  {
    if !confirmed then Deleted(a, false, None)
    else match resp
      case Ok(_) => Deleted(a.(items := Mirror.RemoveById(a.items, idOf, k)), true, None)
      case Rejected(_) => Deleted(a, true, Some(msgs.rejected))
      case NetworkError(_) => Deleted(a, true, Some(msgs.failed))
  }

  /** `handleFormSuccess(x, isEdit = false)`: an edit replaces by `x.id` in
      place, a create prepends `x`; the form closes, and the editing record
      is cleared when the page does so (`clearsEditing`). A `null` create
      puts `null` at the top of the list, which the next render cannot read;
      a `null` edit throws while mapping, unless the list is empty. */
  function FormSuccess<T>(a: Admin<T>, idOf: T -> int, cb: Callback<T>, clearsEditing: bool): (r: View<T>)
    ensures cb.data.Some? ==> r.Shown?
    ensures cb.data.None? && (!cb.isEdit || a.items != []) ==> r.RenderError?
    ensures r.Shown? ==> !r.admin.showForm
    ensures r.Shown? ==> r.admin.editing == (if clearsEditing then None else a.editing)
    ensures cb.data.Some? && cb.isEdit ==>
      r.admin.items == Mirror.ReplaceById(a.items, idOf, idOf(cb.data.value), cb.data.value)
    ensures cb.data.Some? && !cb.isEdit ==>
      |r.admin.items| == |a.items| + 1 && r.admin.items[0] == cb.data.value && r.admin.items[1..] == a.items
  {
    var closed := a.(showForm := false, editing := if clearsEditing then None else a.editing);
    match cb.data
    case Some(x) =>
      if cb.isEdit then Shown(closed.(items := Mirror.ReplaceById(a.items, idOf, idOf(x), x)))
      else Shown(closed.(items := Mirror.Prepend(a.items, x)))
    case None =>
      if cb.isEdit && a.items == [] then Shown(closed) else RenderError
  }

  /** Confirm-then-apply: a delete the server did not accept, or that was
      never confirmed, leaves the page exactly as it was, and repeating it
      changes nothing either. */
  lemma FailedDeleteIsNoOp<T>(a: Admin<T>, idOf: T -> int, k: int, confirmed: bool, resp: Response<(), ()>, msgs: Messages)
    requires !confirmed || !resp.Ok?
    ensures var d := Delete(a, idOf, k, confirmed, resp, msgs);
      d.admin == a && Delete(d.admin, idOf, k, confirmed, resp, msgs) == d
  {
  }

  /** Create-then-delete round trip: a confirmed delete of a record the page
      just created (with a fresh id) restores the list. */
  lemma CreateThenDelete<T>(a: Admin<T>, idOf: T -> int, x: T, msgs: Messages, clearsEditing: bool)
    requires !Mirror.HasId(a.items, idOf, idOf(x))
    ensures var v := FormSuccess(a, idOf, Callback(Some(x), false), clearsEditing);
      v.Shown? && Delete(v.admin, idOf, idOf(x), true, Ok(()), msgs).admin.items == a.items
  {
    Mirror.PrependThenRemove(a.items, idOf, x);
  }

  /** Every confirmed edit keeps ids unique, provided a create brings a
      fresh id (the server's contract). */
  lemma FormSuccessKeepsUnique<T>(a: Admin<T>, idOf: T -> int, x: T, isEdit: bool, clearsEditing: bool)
    requires Mirror.UniqueIds(a.items, idOf)
    requires !isEdit ==> !Mirror.HasId(a.items, idOf, idOf(x))
    ensures var v := FormSuccess(a, idOf, Callback(Some(x), isEdit), clearsEditing);
      v.Shown? && Mirror.UniqueIds(v.admin.items, idOf)
  {
    if isEdit {
      Mirror.ReplaceKeepsIds(a.items, idOf, x);
    } else {
      Mirror.PrependKeepsUnique(a.items, idOf, x);
    }
  }

  /** A delete keeps ids unique. */
  lemma DeleteKeepsUnique<T>(a: Admin<T>, idOf: T -> int, k: int, confirmed: bool, resp: Response<(), ()>, msgs: Messages)
    requires Mirror.UniqueIds(a.items, idOf)
    ensures Mirror.UniqueIds(Delete(a, idOf, k, confirmed, resp, msgs).admin.items, idOf)
  {
    Mirror.RemoveKeepsUnique(a.items, idOf, k);
  }
}
