/** The comment thread under a blog post: add (appended), edit in place,
    and a two-step delete through a confirmation modal; edit and delete are
    offered to the comment's author and to admins. */
module BlogPostDetail {
  import opened Http
  import opened Records
  import Mirror

  /** `editing` is the id of the comment open for editing, `deleteTarget`
      the id awaiting confirmation. */
  datatype Thread = Thread(
    comments: seq<Comment>,
    body: string,
    editing: Option<int>,
    editingBody: string,
    deleteTarget: Option<int>,
    alert: Notice)

  const Added := Notice("success", "Comment added!")
  const AddFailed := Notice("danger", "Could not add comment")
  const Deleted := Notice("success", "Comment deleted")
  const DeleteFailed := Notice("danger", "Failed to delete comment")
  const EditSaved := Notice("success", "Comment updated")
  const EditFailed := Notice("danger", "Failed to update comment")

  /** `canModify`: the identity is an admin or wrote the comment. */
  predicate CanModify(user: Option<User>, c: Comment) {
    user.Some? && (user.value.admin || user.value.id == c.userId)
  }

  /** The modal renders while `deleteTarget` is truthy; an id of 0 is falsy. */
  predicate ModalShown(t: Thread) {
    t.deleteTarget.Some? && t.deleteTarget.value != 0
  }

  /** The thread after the mount-time load. */
  function Init(comments: seq<Comment>): (t: Thread)
    ensures t.comments == comments && t.body == "" && t.editing.None? && t.deleteTarget.None?
  {
    Thread(comments, "", None, "", None, NoNotice)
  }

  /** `handleAddComment`: a 2xx appends the new comment and clears the input;
      a failure keeps the comments and the typed text. */
  function AddComment(t: Thread, resp: Response<Comment, ()>): (r: Thread)
    ensures resp.Ok? ==> r.comments == t.comments + [resp.payload] && r.body == "" && r.alert == Added
    ensures !resp.Ok? ==> r == t.(alert := AddFailed)
    ensures r.editing == t.editing && r.deleteTarget == t.deleteTarget
  {
    match resp
    case Ok(c) => t.(comments := Mirror.Append(t.comments, c), body := "", alert := Added)
    case Rejected(_) => t.(alert := AddFailed)
    case NetworkError(_) => t.(alert := AddFailed)
  }

  /** The Delete button only records the target; no request is sent. */
  function ConfirmDelete(t: Thread, id: int): (r: Thread)
    ensures r.deleteTarget == Some(id) && r.comments == t.comments
  {
    t.(deleteTarget := Some(id))
  }

  /** Cancel in the modal clears the target; no request is sent. */
  function CancelDelete(t: Thread): (r: Thread)
    ensures r.deleteTarget.None? && r.comments == t.comments && !ModalShown(r)
  {
    t.(deleteTarget := None)
  }

  /** `handleDelete` for the current target: a 2xx removes comments with that
      id and clears the target; a failure keeps both. A missing target
      matches no comment. */
  function HandleDelete(t: Thread, resp: Response<(), ()>): (r: Thread)
    ensures resp.Ok? && t.deleteTarget.Some? ==>
      r.comments == Mirror.RemoveById(t.comments, CommentId, t.deleteTarget.value)
    ensures resp.Ok? && t.deleteTarget.None? ==> r.comments == t.comments
    ensures resp.Ok? ==> r.deleteTarget.None? && r.alert == Deleted
    ensures !resp.Ok? ==> r == t.(alert := DeleteFailed)
  {
    if resp.Ok? then
      var kept := match t.deleteTarget
        case Some(k) => Mirror.RemoveById(t.comments, CommentId, k)
        case None => t.comments;
      t.(comments := kept, deleteTarget := None, alert := Deleted)
    else t.(alert := DeleteFailed)
  }

  /** `startEdit`: open the comment's body for editing. */
  function StartEdit(t: Thread, c: Comment): (r: Thread)
    ensures r.editing == Some(c.id) && r.editingBody == c.body && r.comments == t.comments
  {
    t.(editing := Some(c.id), editingBody := c.body)
  }

  /** `cancelEdit`: leave edit mode. */
  function CancelEdit(t: Thread): (r: Thread)
    ensures r.editing.None? && r.editingBody == "" && r.comments == t.comments
  {
    t.(editing := None, editingBody := "")
  }

  /** `handleEditSubmit(id)`: a 2xx replaces the comments with id `id` (the
      id submitted, not the response's) by the response, in place, and
      leaves edit mode; a failure keeps both. */
  function EditSubmit(t: Thread, id: int, resp: Response<Comment, ()>): (r: Thread)
    ensures resp.Ok? ==>
      r.comments == Mirror.ReplaceById(t.comments, CommentId, id, resp.payload)
      && r.editing.None? && r.alert == EditSaved
    ensures !resp.Ok? ==> r == t.(alert := EditFailed)
  {
    match resp
    case Ok(c) => CancelEdit(t).(comments := Mirror.ReplaceById(t.comments, CommentId, id, c), alert := EditSaved)
    case Rejected(_) => t.(alert := EditFailed)
    case NetworkError(_) => t.(alert := EditFailed)
  }

  /** A visitor who is not logged in can modify no comment; an admin can
      modify every comment; a non-admin only their own. */
  lemma CanModifyCases(user: Option<User>, c: Comment)
    ensures user.None? ==> !CanModify(user, c)
    ensures user.Some? && user.value.admin ==> CanModify(user, c)
    ensures user.Some? && !user.value.admin ==> (CanModify(user, c) <==> user.value.id == c.userId)
  {
  }

  /** Posting a comment with a fresh id and then deleting it through the
      modal restores the thread's comments. The modal only opens for a
      truthy id, so for id 0 the delete cannot be reached from the page. */
  lemma AddThenDelete(t: Thread, c: Comment)
    requires !Mirror.HasId(t.comments, CommentId, c.id)
    ensures ModalShown(ConfirmDelete(AddComment(t, Ok(c)), c.id)) <==> c.id != 0
    ensures HandleDelete(ConfirmDelete(AddComment(t, Ok(c)), c.id), Ok(())).comments == t.comments
  {
    Mirror.AppendThenRemove(t.comments, CommentId, c);
  }

  /** A failed delete can be retried: the target and the comments survive. */
  lemma FailedDeleteKeepsTarget(t: Thread, resp: Response<(), ()>)
    requires !resp.Ok? && ModalShown(t)
    ensures ModalShown(HandleDelete(t, resp)) && HandleDelete(t, resp).comments == t.comments
  {
  }
}
