# Healing Home client, modelled in Dafny

This project models the client-side logic of the Healing Home React
application: the session context and route gate, the login, registration and
profile screens, the navigation bar, the five administration managers with
their forms, the blog comment thread, the plant directory's search and sort,
the recipe search, the course lists, the plant lock gate, and the course page
with its Vimeo link parser.

Everything the client does over the network is an input. A request's outcome
is a value of `Http.Response`:
- `Ok(payload)` is a 2xx status whose body parsed.
- `Rejected(body)` is any other status, with the body where the component reads it.
- `NetworkError(reason)` is any exception the request chain throws, including an unparsable body, carrying the error's message.

Loads that ignore the status and only parse the body take an
`Option<seq<T>>`: `Some` is the parsed list and `None` is a thrown error. A
`window.confirm` answer is a boolean input. `alert` and inline error
messages are outputs.

Module layout:
- `Http`: the response, the request and the notice datatypes, and the create-or-update request every form sends.
- `Records`: the server's records as the client sees them.
- `Mirror`: the list edits every manager applies after a 2xx response, over any record type with an id. These are prepend, append, replace-by-id and remove-by-id.
- `Manager`: the state machine that all five administration pages share. It holds the list, the record being edited and whether the form is shown. Each page module (`BlogAdmin`, `PlantAdmin`, `RecipeAdmin`, `CourseAdmin`, `UserAdmin`) instantiates it with its own messages and edit-clearing behaviour.
- Each `*AdminForm` module models one form's initial state, input handling, request and how its response settles.
- `UserContext` and `Routes` model the session and the route gate. `Login`, `Register`, `UserProfile` and `Navbar` are built on them.
- `BlogPostDetail`, `PlantDirectory`, `RecipeList`, `CoursesPage`, `PlantDetail` and `CoursePage` model the views of the same names. `Ordering` supplies the string order and the stable sort that the plant directory uses.

Some of the code's quirks are modelled as written, and lemmas state their
consequences:
- The plant form hands any parsed body to its parent, 2xx or not.
- The blog and course forms report a delete as `onSuccess(null)` with no edit flag. The parent then prepends `null` to its list.
- The plant lock gate reads `is_admin`, while every other check reads `admin`.
- The plant directory's Search button clears the query.
- A sort-key change discards an active search.

## Model

| member | source | states |
|---|---|---|
| Http.SaveRequest | src/admin/BlogAdminForm.js:22-23 | PATCH to the member path exactly when a record is being edited, POST to the collection path exactly when creating; the body is passed through |
| UserContext.Init | src/contexts/UserContext.js:9-11 | the context starts with no identity and in the loading phase |
| UserContext.Probe | src/contexts/UserContext.js:14-20 | after the `/me` probe loading is over whatever happened; an identity is set iff the probe answered 2xx, and it is the response body |
| UserContext.Logout | src/contexts/UserContext.js:23-38 | a 2xx logout clears the identity; a refusal or network failure leaves the session exactly as it was |
| UserContext.SetUser | src/contexts/UserContext.js:42 | consumers replace the identity wholesale without touching the loading flag |
| UserContext.ProbeThenLogout | src/contexts/UserContext.js:14-38 | after probe then logout the gate is never loading, and the session is logged out when the logout was accepted or the probe failed |
| UserContext.LogoutIdempotent | src/contexts/UserContext.js:28-31 | a second logout after an accepted one changes nothing |
| Routes.PrivateRoute | src/App.js:37-39 | the child renders iff somebody is logged in, otherwise a redirect to `/login` |
| Routes.Decide | src/App.js:35-214 | while loading only the loading message shows; public routes always render; `/login` and `/register` render iff nobody is logged in, else redirect to `/home`; private routes render iff somebody is logged in, else redirect to `/login` |
| Routes.AdminRoutesIgnoreAdminFlag | src/App.js:161-213 | every `/admin` route admits any logged-in identity; flipping `admin` or `is_admin` never changes the decision |
| Routes.FailedProbeRedirects | src/App.js:37-39 | when the start-up probe fails every private route redirects to `/login` |
| Login.Screen | src/components/Login.js:23 | a logged-in visitor is redirected to `/home` instead of seeing the form |
| Login.RefusalMessage | src/components/Login.js:46-49 | a refused login shows the body's `error` when it is non-empty, else "Invalid credentials"; never an empty message |
| Login.Submit | src/components/Login.js:26-55 | no error iff 2xx; a 2xx installs the whole body as identity and navigates to `/home`; a refusal shows the refusal message; a thrown error shows "Something went wrong"; failures keep the identity |
| Login.SuccessLeavesForm | src/components/Login.js:23-45 | after a successful submission the login view itself redirects home |
| Register.Screen | src/components/Register.js:26 | a logged-in visitor is redirected to `/home` |
| Register.HandleChange | src/components/Register.js:29-31 | the input named by the event takes its value and every other field keeps its own |
| Register.Submit | src/components/Register.js:34-56 | a 2xx installs `data.user` (possibly absent) with no errors; a refusal shows `data.errors` when present, else `['Something went wrong']`; a thrown error shows the fallback; failures keep the identity |
| Register.ChangesCommute | src/components/Register.js:29-31 | edits to two different fields commute |
| Register.MissingUserStaysOnForm | src/components/Register.js:26-49 | a 2xx body without `user` leaves the visitor on the form with no error shown |
| UserProfile.InitForm | src/views/UserProfile.js:13-14 | the inputs start from the identity's username and email, or empty |
| UserProfile.UpdateRequest | src/views/UserProfile.js:23-31 | the update is `PATCH /me` carrying the two inputs under `user` |
| UserProfile.Update | src/views/UserProfile.js:19-46 | a 2xx replaces the identity with the response and shows "Profile updated!"; anything else keeps the identity and shows "Failed to update profile." |
| UserProfile.Deactivate | src/views/UserProfile.js:49-69 | nothing is sent unless confirmed; a 2xx clears the identity, calls the logout and navigates to `/`; a failure keeps the identity and shows "Failed to deactivate account." |
| UserProfile.DeactivateEndsSession | src/views/UserProfile.js:59-63 | after an accepted deactivation the session is logged out whatever `/logout` answers; `/` still renders and `/profile` redirects to `/login` |
| Navbar.Links | src/components/Navbar.js:18-48 | Log Out and the member links appear iff somebody is logged in; the admin link iff the identity's `admin` is set; guests see exactly Login, Register, About; About always appears |
| Navbar.AdminLinkIgnoresIsAdmin | src/components/Navbar.js:31-33 | the bar depends on `admin` only, never on `is_admin` |
| Mirror.RemoveById | src/admin/BlogAdmin.js:41 | the filtered list holds no element with the id, keeps every element with another id, adds nothing and never grows |
| Mirror.UpdateById | src/admin/UserAdmin.js:50-53 | the mapped list has the same length; positions with the id are transformed, every other position is unchanged |
| Mirror.ReplaceById | src/admin/BlogAdmin.js:65-67 | same length; each position with the id holds the new record, every other position is unchanged |
| Mirror.RemoveConcat | src/admin/BlogAdmin.js:41 | filtering distributes over concatenation, so the remaining elements keep their relative order |
| Mirror.RemoveAbsent | src/admin/BlogAdmin.js:41 | deleting an id that no element carries leaves the list unchanged |
| Mirror.RemoveUniqueAt | src/admin/BlogAdmin.js:41 | with unique ids, deleting the id at index i removes exactly that element: the result is the list without position i |
| Mirror.PrependThenRemove | src/admin/BlogAdmin.js:41-70 | deleting a just-created record with a fresh id restores the list |
| Mirror.AppendThenRemove | src/views/BlogPostDetail.js:60-79 | deleting a just-appended comment with a fresh id restores the thread |
| Mirror.PrependKeepsUnique | src/admin/BlogAdmin.js:70 | a create with a fresh id keeps ids unique |
| Mirror.AppendKeepsUnique | src/views/BlogPostDetail.js:60 | an append with a fresh id keeps ids unique |
| Mirror.RemoveKeepsUnique | src/admin/BlogAdmin.js:41 | filtering keeps ids unique |
| Mirror.ReplaceKeepsIds | src/admin/BlogAdmin.js:65-67 | replacing by a record's own id keeps every id at its position, hence keeps ids unique |
| Mirror.ReplaceIdempotent | src/admin/BlogAdmin.js:65-67 | applying the same replacement twice equals applying it once |
| Mirror.ReplaceAbsent | src/admin/BlogAdmin.js:65-67 | replacing an id nobody carries changes nothing |
| Mirror.ReplaceUniqueAt | src/admin/BlogAdmin.js:65-67 | with unique ids, replacing the id at index i is a point update of position i |
| Manager.Init | src/admin/BlogAdmin.js:8-14 | a manager starts with an empty list, nothing being edited and the form hidden |
| Manager.Load | src/admin/BlogAdmin.js:17-26 | a parsed load body replaces the list wholesale; a thrown error leaves the page as it was; the form state is untouched |
| Manager.Edit | src/admin/BlogAdmin.js:50-53 | the Edit button opens the form on that record without touching the list |
| Manager.Create | src/admin/BlogAdmin.js:56-59 | the Create button opens an empty form without touching the list |
| Manager.Delete | src/admin/BlogAdmin.js:29-47 | without confirmation nothing is sent and nothing changes; a 2xx removes the records with the id; a refusal or network failure raises the page's alert and changes nothing |
| Manager.FormSuccess | src/admin/BlogAdmin.js:62-76 | a record closes the form; an edit replaces by the record's id in place; a create puts the record at index 0 with the old list after it; a `null` create (or a `null` edit of a non-empty list) leaves the page unrenderable |
| Manager.FailedDeleteIsNoOp | src/admin/BlogAdmin.js:31-46 | an unconfirmed or failed delete leaves the page as it was, and repeating it changes nothing |
| Manager.CreateThenDelete | src/admin/BlogAdmin.js:29-70 | creating a record with a fresh id and then deleting it restores the list |
| Manager.FormSuccessKeepsUnique | src/admin/BlogAdmin.js:62-71 | form successes keep ids unique when creates bring fresh ids |
| Manager.DeleteKeepsUnique | src/admin/BlogAdmin.js:29-47 | every delete outcome keeps ids unique |
| BlogAdmin.Delete | src/admin/BlogAdmin.js:29-47 | post deletion: nothing sent without confirmation; a 2xx filters by id; "Failed to delete post." on a refusal and "Error deleting post." on a network failure, list unchanged |
| BlogAdmin.FormSuccess | src/admin/BlogAdmin.js:62-76 | the form closes and the edited post is cleared; an unflagged call prepends its argument |
| BlogAdmin.EditRoundTrip | src/admin/BlogAdmin.js:63-75 | saving an edit of the post at index i puts the server's copy at exactly that index and closes the form |
| BlogAdmin.FormDeleteBreaksList | src/admin/BlogAdminForm.js:55 | the form's delete reaches the page as an unflagged `null`, which is prepended and breaks the next render |
| BlogAdminForm.InitFields | src/admin/BlogAdminForm.js:10-12 | the inputs start from the post's title, image URL and body, or empty when creating |
| BlogAdminForm.SubmitRequest | src/admin/BlogAdminForm.js:18-33 | PATCH `/blog_posts/{id}` when editing, POST `/blog_posts` when creating; the body is exactly the three fields |
| BlogAdminForm.SubmitSettled | src/admin/BlogAdminForm.js:34-41 | `onSuccess(data, isEditing)` is called iff 2xx; a refusal alerts "Error saving post"; a network failure alerts its message |
| BlogAdminForm.DeleteRequest | src/admin/BlogAdminForm.js:45-52 | a delete is sent iff editing and confirmed, to the post's member path |
| BlogAdminForm.DeleteSettled | src/admin/BlogAdminForm.js:45-58 | nothing happens when no request went out; a 2xx calls `onSuccess(null)` with no flag; failures alert |
| BlogAdminForm.StaleInputsOnSwitch | src/admin/BlogAdminForm.js:10-32 | when the form is switched to another post while shown, the request follows the new post but the inputs keep the first mount's values |
| BlogAdminForm.UntouchedEditResends | src/admin/BlogAdminForm.js:10-32 | submitting an untouched edit on a freshly mounted form sends the post's own attributes back to its member path |
| CourseAdmin.Delete | src/admin/CourseAdmin.js:25-44 | course deletion: nothing sent without confirmation; a 2xx filters by id; "Failed to delete course." / "Error deleting course." with the list unchanged |
| CourseAdmin.FormSuccess | src/admin/CourseAdmin.js:61-75 | the form closes and the edited course is cleared; an unflagged call prepends its argument |
| CourseAdmin.CreateRoundTrip | src/admin/CourseAdmin.js:61-70 | a course created through the form lands at index 0 |
| CourseAdmin.FormDeleteBreaksList | src/admin/CourseAdminForm.js:64 | the form's delete reaches the page as an unflagged `null`, which is prepended and breaks the next render |
| CourseAdminForm.InitFields | src/admin/CourseAdminForm.js:10-14 | the inputs start from the course, or empty text, `false` and price "0.0"; the price is never empty |
| CourseAdminForm.SubmitRequest | src/admin/CourseAdminForm.js:20-40 | PATCH `/courses/{id}` when editing, POST `/courses` otherwise, with the five fields |
| CourseAdminForm.SubmitSettled | src/admin/CourseAdminForm.js:42-49 | `onSuccess(data, isEditing)` iff 2xx; "Error saving course" on a refusal; the error's message on a network failure |
| CourseAdminForm.DeleteRequest | src/admin/CourseAdminForm.js:53-61 | a delete is sent iff editing and confirmed, to the course's member path |
| CourseAdminForm.DeleteSettled | src/admin/CourseAdminForm.js:53-67 | nothing when no request went out; a 2xx calls `onSuccess(null)` with no flag; failures alert |
| PlantAdmin.Delete | src/admin/PlantAdmin.js:25-42 | plant deletion: nothing sent without confirmation; a 2xx filters by id; "Failed to delete plant." / "Error deleting plant." with the list unchanged |
| PlantAdmin.FormSuccess | src/admin/PlantAdmin.js:59-72 | the form closes and the edited plant is cleared; an unflagged call prepends its argument |
| PlantAdmin.RefusedCreateIsListed | src/admin/PlantAdminForm.js:57-58 | the body of a refused create is put at the top of the plant list |
| PlantAdminForm.InitialStateIsBlank | src/admin/PlantAdminForm.js:4-20 | the initial state has every text field empty, `is_sample` false and no id |
| PlantAdminForm.Reset | src/admin/PlantAdminForm.js:30-33 | the form data becomes the given plant, or the blank initial state |
| PlantAdminForm.HandleChange | src/admin/PlantAdminForm.js:36-43 | a text input sets only its own field; the checkbox sets `is_sample` from `checked`; everything else is kept |
| PlantAdminForm.ChangeUndo | src/admin/PlantAdminForm.js:36-43 | typing a value and then the field's old value restores the form data |
| PlantAdminForm.SubmitRequest | src/admin/PlantAdminForm.js:46-56 | PATCH `/plants/{id}` when a plant is given, POST `/plants` otherwise; the body is the whole form data |
| PlantAdminForm.SubmitSettled | src/admin/PlantAdminForm.js:57-58 | any parsed body, 2xx or not, goes to `onSuccess(data, !!plant)`; a network failure has no effect |
| RecipeAdmin.Delete | src/admin/RecipeAdmin.js:20-38 | recipe deletion: nothing sent without confirmation; a 2xx filters by id; "Failed to delete recipe." / "Error deleting recipe." with the list unchanged |
| RecipeAdmin.FormSuccess | src/admin/RecipeAdmin.js:53-64 | the form closes but the edited recipe stays selected; an unflagged call prepends its argument |
| RecipeAdmin.EditRoundTrip | src/admin/RecipeAdmin.js:53-64 | saving an edit of the recipe at index i replaces exactly that index and keeps the recipe selected |
| RecipeAdminForm.InitFields | src/admin/RecipeAdminForm.js:5-12 | the inputs start from the recipe's text fields and `is_remedy`, or empty and `false` |
| RecipeAdminForm.HandleChange | src/admin/RecipeAdminForm.js:18-25 | a text input sets only its own field; the checkbox sets `is_remedy` from `checked` |
| RecipeAdminForm.SubmitRequest | src/admin/RecipeAdminForm.js:28-41 | PATCH `/recipes/{id}` for an existing recipe, POST `/recipes` otherwise; the form data is wrapped under `recipe` |
| RecipeAdminForm.SubmitSettled | src/admin/RecipeAdminForm.js:43-50 | `onSuccess(data, !!recipe)` iff 2xx; a refusal shows "Failed to save recipe" inline; a network failure shows its message |
| UserAdmin.Delete | src/admin/UserAdmin.js:22-38 | user deletion: nothing sent without confirmation; a 2xx filters by id; "Failed to delete user." / "Error deleting user." with the list unchanged |
| UserAdmin.SetActiveById | src/admin/UserAdmin.js:50-53 | exactly the users with the id get the new `active` flag with every other attribute kept; other users are unchanged |
| UserAdmin.SetActive | src/admin/UserAdmin.js:41-74 | a 2xx deactivate or reactivate sets the flag on the matching id; a refusal alerts "Failed to deactivate user" / "Failed to reactivate user"; a network failure alerts its message; failures leave the list unchanged |
| UserAdmin.FormSuccess | src/admin/UserAdmin.js:89-102 | the form closes and the edited user is cleared; an unflagged call prepends its argument |
| UserAdmin.DeactivateThenReactivate | src/admin/UserAdmin.js:41-74 | deactivating then reactivating an active account restores the list |
| UserAdmin.SetActiveKeepsIds | src/admin/UserAdmin.js:50-53 | flipping `active` keeps every id in place, so ids stay unique |
| UserAdminForm.InitFields | src/admin/UserAdminForm.js:6-10 | the inputs start from the user's username, email and admin flag; both password inputs always start empty |
| UserAdminForm.BuildPayload | src/admin/UserAdminForm.js:19-29 | username, email and admin are always sent; both password keys are present iff the password is non-empty, the confirmation even when empty |
| UserAdminForm.SubmitRequest | src/admin/UserAdminForm.js:32-42 | PATCH `/users/{id}` when editing, POST `/users` otherwise, with the payload wrapped under `user` |
| UserAdminForm.SubmitSettled | src/admin/UserAdminForm.js:44-53 | `onSuccess(data, isEditing)` iff 2xx; "Failed to save user" on a refusal; the error's message on a network failure |
| UserAdminForm.UntouchedEditSendsNoPassword | src/admin/UserAdminForm.js:9-29 | an edit saved on a freshly mounted form without touching the password inputs sends no password keys |
| BlogPostDetail.Init | src/views/BlogPostDetail.js:14-33 | the thread starts with the loaded comments, an empty input, no edit and no delete target |
| BlogPostDetail.AddComment | src/views/BlogPostDetail.js:42-65 | a 2xx appends the new comment at the end and clears the input; a failure keeps comments and typed text and shows "Could not add comment" |
| BlogPostDetail.ConfirmDelete | src/views/BlogPostDetail.js:68 | the Delete button only records the target |
| BlogPostDetail.CancelDelete | src/views/BlogPostDetail.js:69 | cancelling clears the target and hides the modal, with no request |
| BlogPostDetail.HandleDelete | src/views/BlogPostDetail.js:72-84 | a 2xx removes the comments with the target id and clears the target; a failure keeps comments and target |
| BlogPostDetail.StartEdit | src/views/BlogPostDetail.js:87-90 | the comment's id and body are opened for editing |
| BlogPostDetail.CancelEdit | src/views/BlogPostDetail.js:92-95 | edit mode ends with an empty edit buffer |
| BlogPostDetail.EditSubmit | src/views/BlogPostDetail.js:98-117 | a 2xx replaces the comments with the submitted id in place and leaves edit mode; a failure keeps everything |
| BlogPostDetail.CanModifyCases | src/views/BlogPostDetail.js:153 | nobody logged in modifies nothing; an admin modifies every comment; anyone else only the comments they wrote |
| BlogPostDetail.AddThenDelete | src/views/BlogPostDetail.js:59-80 | adding a comment with a fresh id and deleting it restores the thread; the delete modal opens for it iff its id is non-zero |
| BlogPostDetail.FailedDeleteKeepsTarget | src/views/BlogPostDetail.js:72-84 | after a failed delete the modal is still open on the same target and no comment is lost |
| Ordering.Sort | src/views/PlantDirectory.js:21-23 | the sorted copy is a permutation of the input, of the same length, ordered by the key |
| Ordering.SortIdempotent | src/views/PlantDirectory.js:22 | sorting is idempotent on ordered input: an already ordered list comes back unchanged |
| Ordering.InsertFilter | src/views/PlantDirectory.js:22 | inserting an element puts it ahead of the elements with the same key and keeps their order |
| Ordering.SortStable | src/views/PlantDirectory.js:22 | the sort is stable: for every key, the elements carrying it come out in their input order |
| Ordering.SortTwice | src/views/PlantDirectory.js:22 | sorting twice is sorting once |
| PlantDirectory.SortPlants | src/views/PlantDirectory.js:21-23 | the displayed copy is a permutation of the input ordered by the chosen name |
| PlantDirectory.Init | src/views/PlantDirectory.js:5-8 | the directory starts empty, with an empty query, sorted by common name |
| PlantDirectory.Refresh | src/views/PlantDirectory.js:11-18 | a parsed body replaces the cache and the display shows all of it sorted; a failure changes nothing |
| PlantDirectory.HandleSearch | src/views/PlantDirectory.js:26-41 | the query always becomes the handled value; empty shows the cache sorted; a 2xx shows the results sorted; a refusal shows nothing; a network failure keeps the display |
| PlantDirectory.HandleSort | src/views/PlantDirectory.js:44-47 | the displayed plants are re-ordered under the new key, same contents |
| PlantDirectory.ClickSort | src/views/PlantDirectory.js:11-47 | the same key only re-sorts; a new key refetches and shows the whole fetched list sorted by it; a new key whose refetch fails leaves the display as the re-sort left it, with the cache unchanged |
| PlantDirectory.SearchButton | src/views/PlantDirectory.js:68-77 | the Search button clears the query and shows the whole cache sorted |
| PlantDirectory.KeyChangeDropsSearch | src/views/PlantDirectory.js:11-18 | changing the key during a search shows the full fetched list while the query text stays |
| PlantDirectory.HandleSortIdempotent | src/views/PlantDirectory.js:44-47 | pressing the same sort key twice equals pressing it once |
| PlantDirectory.SearchThenClear | src/views/PlantDirectory.js:30-32 | clearing the search restores the cached list sorted, whatever the server answered before |
| RecipeList.Init | src/views/RecipeList.js:7-10 | the page starts with no recipes and an empty search text |
| RecipeList.Load | src/views/RecipeList.js:13-17 | a parsed body replaces the list; a failure changes nothing |
| RecipeList.Type | src/views/RecipeList.js:46 | typing updates only the search text |
| RecipeList.SearchRequest | src/views/RecipeList.js:21 | the search request carries the current text as `ingredient`, for text without URL delimiters |
| RecipeList.Search | src/views/RecipeList.js:20-28 | a 2xx replaces the list with the results, even none; anything else keeps the list and alerts "No recipes found" |
| RecipeList.FailedSearchIsNoOp | src/views/RecipeList.js:24-27 | failed searches can be repeated without changing the list |
| RecipeList.TypingKeepsList | src/views/RecipeList.js:46 | any sequence of keystrokes leaves the list alone and ends with the last text |
| CoursesPage.Free | src/views/CoursesPage.js:17 | the free list holds exactly the fetched courses not requiring purchase |
| CoursesPage.Paid | src/views/CoursesPage.js:18 | the paid list holds exactly the fetched courses requiring purchase |
| CoursesPage.Load | src/views/CoursesPage.js:10-14 | a parsed body replaces the list; a failure changes nothing |
| CoursesPage.PartitionIsExact | src/views/CoursesPage.js:17-18 | every fetched course appears in exactly one list, as often as fetched |
| CoursesPage.PartitionKeepsOrder | src/views/CoursesPage.js:17-18 | both lists keep the fetched order |
| PlantDetail.Fetch | src/views/PlantDetail.js:15-23 | a 2xx shows the plant; a refusal shows "Failed to fetch plant details"; a network failure shows its message |
| PlantDetail.FakeSubscribe | src/views/PlantDetail.js:36-39 | the fake subscription sets the local unlock flag |
| PlantDetail.Render | src/views/PlantDetail.js:26-98 | the error shows iff the fetch failed with a non-empty message, and shows that message; otherwise "Loading..." until a plant arrives; the prompt shows iff the plant is locked; the table shows iff it is unlocked and then holds the displayed fields |
| PlantDetail.NonEmpty | src/views/PlantDetail.js:89-95 | a row is kept iff its value is non-empty |
| PlantDetail.Displayed | src/views/PlantDetail.js:42-95 | a label/value pair is displayed iff it is one of the thirteen fields and its value is non-empty |
| PlantDetail.SampleNeverLocked | src/views/PlantDetail.js:33 | a sample plant is never locked |
| PlantDetail.LockedIff | src/views/PlantDetail.js:32-33 | without the local flag a plant is locked iff it is not a sample and the identity has neither a subscription nor `is_admin` |
| PlantDetail.FakeSubscribeUnlocks | src/views/PlantDetail.js:33-39 | after the fake subscription no plant is locked |
| PlantDetail.NonEmptyConcat | src/views/PlantDetail.js:89-95 | the filter keeps the fixed label order |
| PlantDetail.FullPlantShowsAllRows | src/views/PlantDetail.js:42-56 | a plant with every field filled shows all thirteen rows in label order |
| CoursePage.DigitRun | src/views/CoursePage.js:47 | the greedy digit run: only digits, ending at a non-digit or the end |
| CoursePage.FindMatch | src/views/CoursePage.js:47 | the position returned is one where "vimeo.com/" is immediately followed by a digit |
| CoursePage.FindMatchLeftmost | src/views/CoursePage.js:47 | no position before the one returned matches, so the match is the leftmost |
| CoursePage.FindMatchNone | src/views/CoursePage.js:47-48 | nothing is returned iff no position matches |
| CoursePage.VimeoId | src/views/CoursePage.js:46-49 | an id, when returned, is a non-empty run of digits |
| CoursePage.VimeoIdNone | src/views/CoursePage.js:48 | `getVimeoId` returns null iff the pattern matches nowhere in the URL |
| CoursePage.VimeoIdAt | src/views/CoursePage.js:46-49 | with the leftmost match at j and only digits after the marker, the id is everything after the marker |
| CoursePage.VimeoIdLeftmostRun | src/views/CoursePage.js:46-49 | with the leftmost match at j, the id is exactly the maximal run of digits after the marker, whatever follows it |
| CoursePage.CanonicalUrl | src/views/CoursePage.js:11-48 | a `https://vimeo.com/<digits>` URL yields exactly its digits |
| CoursePage.CatalogueVideosValid | src/views/CoursePage.js:6-48 | every lesson in the catalogue yields a video id, so none renders "Invalid video URL" |
| CoursePage.PurchasedCatalogueShowsPlayers | src/views/CoursePage.js:53-106 | once purchased, every catalogue course shows a player for each of its lessons |
| CoursePage.Open | src/views/CoursePage.js:53-59 | an id absent from the catalogue is not found; otherwise that course, purchased iff its price is 0 |
| CoursePage.FakePurchase | src/views/CoursePage.js:62-65 | the fake purchase marks the course purchased and keeps it |
| CoursePage.ShowLessons | src/views/CoursePage.js:87-106 | lesson i is numbered i+1 with its title; it embeds the player with the URL's video id iff `getVimeoId` finds one, and shows "Invalid video URL" otherwise |
| CoursePage.Render | src/views/CoursePage.js:59-112 | "Course not found." iff not found; the purchase prompt, with the course's price, iff not purchased and the price is positive; otherwise one view per lesson, numbered from 1, titled, and showing its video id or "Invalid video URL" |
| CoursePage.FreeCourseIsOpen | src/views/CoursePage.js:56-77 | a free course shows its lessons on opening |
| CoursePage.PurchaseOpensCourse | src/views/CoursePage.js:62-77 | after the fake purchase every catalogue course shows its lessons |
| CoursePage.PaidCourses | src/views/CoursePage.js:6-77 | only courses "3" and "4" show the prompt on opening |

## Left out

- Network I/O, cookies, headers and JSON parsing: each request's outcome is an input value, and an unparsable body is folded into `NetworkError`.
- Load bodies that parse to something other than a list are not representable; a load is either a parsed list or a thrown error.
- `window.confirm` is a boolean input; `alert`, `console.error` and the flash notices are outputs or are dropped.
- The timer that clears the comment thread's notice after a few seconds (src/views/BlogPostDetail.js:38) is not modelled.
- Interleaved responses and stale closures are outside a sequential model. For example, the plant, recipe, course and post deletes filter the rendered list rather than the latest state (src/admin/PlantAdmin.js:36). Each operation here applies to the state it is given.
- Ordering.Le: `localeCompare` is modelled as ordinal character order, not locale collation.
- RecipeList.SearchRequest: the search text is interpolated into `/recipes/search?ingredient=${search}` without `encodeURIComponent` (src/views/RecipeList.js:21). Text holding `&`, `#`, `+` or `%` therefore does not reach the server as the `ingredient` parameter: "salt&pepper" arrives as `ingredient=salt`. The model carries the text as a structured parameter and does not model URL parsing.
- PlantDirectory.SortPlants: a plant whose sort field (`common_name` or `scientific_name`) is `null` or missing makes `localeCompare` throw a TypeError in the source (src/views/PlantDirectory.js:22). On a refresh the cache is then set but the display is not. In a sort click the exception escapes the handler. The model reads such a field as "" and sorts it first, so this error path is not modelled; `Ordering.Le` therefore never fails.
- Price formatting with `parseFloat(...).toFixed(2)` (src/views/CoursesPage.js:37) is floating point and is not modelled.
- JSX markup, CSS, `dangerouslySetInnerHTML` and the Vimeo iframe are left out; a view's render is reduced to what it decides.
- The static or fetch-and-render pages (HealingMoments, About, HomePage, LandingPage, Header, Footer, AdminDashboard, BlogPostsList, RecipeDetail) are not part of this model.
- The managers' `onCancel` (hide the form) and the profile page's "Loading user..." placeholder are trivial renders and are not modelled.
- BlogPostDetail.CanModifyCases: every comment is assumed to carry `user_id`. A comment without it, viewed by nobody logged in, would compare two undefined values as equal in the source.
- CoursePage.Open: the catalogue is a JavaScript object, so a route parameter naming an inherited property (`toString`) would find a value there. The model's map holds only the four courses. The purchase flag is initialised once per mount and is not re-initialised when the parameter changes.
- PlantDetail.FakeSubscribe: the unlock flag, the fetched plant and the error message are component state that survives a change of the plant id (src/views/PlantDetail.js:10-23); the model treats each page per id, so a stale error or plant shown while the next fetch is pending is not modelled.
- The login and registration request bodies, the comment creation body and the comment edit body `{comment: {body}}` (src/views/BlogPostDetail.js:99-104) are not modelled; only their outcomes are.
- BlogAdminForm.InitFields: the inputs are set once per mount (src/admin/BlogAdminForm.js:10-12) and the page mounts the form without a `key`. Edit or Create while the form is shown keeps the previous record's inputs, while the request follows the new prop. `InitFields` gives only the first mount's values; `StaleInputsOnSwitch` states the consequence.
- CourseAdminForm.InitFields: the inputs are set once per mount (src/admin/CourseAdminForm.js:10-14); Edit or Create while the form is shown keeps the previous course's inputs, as for the blog form.
- RecipeAdminForm.InitFields: the inputs are set once per mount (src/admin/RecipeAdminForm.js:5-12); Edit or Create while the form is shown keeps the previous recipe's inputs, as for the blog form.
- UserAdminForm.InitFields: the inputs, passwords included, are set once per mount (src/admin/UserAdminForm.js:6-10); Edit or Create while the form is shown keeps the previous user's inputs, so a password typed for one user goes with the edit of another. `UntouchedEditSendsNoPassword` holds for a fresh mount only.
