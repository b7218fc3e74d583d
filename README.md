# Synapse task tracker — a Dafny model of its board and its validators

Synapse is a task tracker. Tasks carry a title, a priority, an assignee, a
due date and a checklist of subtasks. Each task sits in one of four status
columns (backlog, todo, inprogress, done) and can be dragged between them.
This project models the parts of the React client and the Express/Mongoose
server that make decisions, and proves what those decisions guarantee.

The client side:

- **Board** (`Board.dfy`, `client/src/pages/Dashboard.tsx`). The board is a
  class with four column sequences.
  - Hydration sorts fetched tasks into columns by status, with To Do as the
    default. It never pushes the same id into a column twice.
  - The drag handler removes the task at the source position, sets its
    status, and inserts it with JavaScript `splice` index rules.
  - A drop is proved to keep every id in exactly one column. Hydration is
    proved to do so when the fetched ids are distinct. A response listing one
    id under two statuses puts it in two columns, because the duplicate check
    searches only the target column.
- **Optimistic subtask edits** (`Subtasks.dfy`, `client/src/components/SubtaskItem.tsx`).
  - An edit is a small state machine: Proposed, then Confirmed or RolledBack.
  - The component is a class that records, in order, the `onUpdate` calls
    and the PATCH request it makes.
- **Task card** (`TaskCard.dfy`, `client/src/components/TaskCard.tsx`). The
  card replaces checklist entries by id, and computes the completed/total
  counts, the initials, the status label and the draggable id. The card's
  list update is combined with the edit trace: after a failed edit the list
  is exactly what it was before.
- **Add/edit task form** (`TaskForm.dfy`, `client/src/components/AddTaskModal.tsx`).
  The checklist edits, the save guard, and the ordered `onSave`/`onClose`
  calls.
- **Registration form** (`Register.dfy`, `Regex.dfy`, `client/src/pages/auth/Register.tsx`).
  The password regular expression, read literally with its lookaheads, and
  proved equal to a plain rule. Then the order of the submit checks.
- **Session** (`Session.dfy`, `client/src/utils/auth.ts`). The JWT `exp`
  check, which must be strictly in the future, as section 4.1.4 of RFC 7519
  requires.

The server side:

- **Task schema** (`TaskModel.dfy`, `server/models/tasks.js`). Saving a
  document is a normalise-and-validate function: trim, defaults, required
  fields and enumerations. Saving a stored document again gives it back
  unchanged.
- **Task controllers** (`TaskControl.dfy`, `server/controllers/taskControl.js`).
  Each handler is a method of a store class that holds an id→document map.
  - Each method's contract gives the status code and body it answers, and
    the new store.
  - A partial update is proved equal to saving the stored document with the
    supplied fields laid over it.
- **User routes** (`Users.dfy`, `server/routes/userRoute.js`). The server
  password pattern, and the check-email, register and login decision chains.
  Hashing, comparison and signing are oracles.
- **Auth middleware** (`AuthMiddleware.dfy`, `server/middleware/auth.js`).
  The bearer-header parse follows `split(" ")[1]`, the gate is
  case-sensitive, and `req.user` is written before `next`. The admin gate
  checks the role.

`Js.dfy` holds the JavaScript built-ins the code relies on, with their exact
semantics: ECMAScript `trim` whitespace, `toUpperCase` on ASCII letters,
`split` on one character, first-occurrence `replace`, and `splice` index
normalisation.

In two places the system's written specification differs from the code. The
model follows the code in both:

- The specification says the subtask PATCH answers the updated subtask. The
  code answers the whole task (`server/controllers/taskControl.js:82`). The
  consequence is the first finding below.
- The specification says blank checklist entries are dropped from a saved
  task. The code sends the checklist unfiltered
  (`client/src/components/AddTaskModal.tsx:73-79`); see
  `TaskForm.BlankEntriesKept`.

## Model

| member | source | states |
|---|---|---|
| Board.StatusOfKey | client/src/pages/Dashboard.tsx:26-31 | a string names a column exactly when it is one of the four keys, and then names that column |
| Board.KeyRoundTrip | client/src/pages/Dashboard.tsx:26-31 | every column's key reads back as that column |
| Board.Step | client/src/pages/Dashboard.tsx:42-45 | one fetched task is appended to the column its status names (To Do when missing) unless that column already holds its id; no other column changes |
| Board.HydrateSound | client/src/pages/Dashboard.tsx:41-44 | after hydration every task sits in the column its status names, and only fetched tasks appear |
| Board.HydrateNoDup | client/src/pages/Dashboard.tsx:43-45 | no column ever holds the same id twice |
| Board.HydrateCovers | client/src/pages/Dashboard.tsx:41-45 | every fetched task's id appears in the column its status names |
| Board.HydrateFirstWins | client/src/pages/Dashboard.tsx:43-45 | the first task with a given id and status is the one kept in that column |
| Board.HydrateDistinctColumns | client/src/pages/Dashboard.tsx:40-46 | with distinct fetched ids, each column is the fetched tasks of that status in response order |
| Board.HydrateDistinctIds | client/src/pages/Dashboard.tsx:40-46 | with distinct fetched ids, the multiset of ids on the board equals that of the response |
| Board.HydratePartitioned | client/src/pages/Dashboard.tsx:40-46 | with distinct fetched ids, every id is in exactly one column |
| Board.NoMoveNoChange | client/src/pages/Dashboard.tsx:57 | a drop without a destination, or from a position that does not exist, changes no column and sends no request; only the first is silent |
| Board.DropKeepsIds | client/src/pages/Dashboard.tsx:59-64 | a drop keeps the multiset of task ids on the board |
| Board.DropKeepsPartition | client/src/pages/Dashboard.tsx:59-64 | a drop keeps every id in exactly one column |
| Board.DropPlacement | client/src/pages/Dashboard.tsx:62-64 | the task removed at the source index, with its status set to the destination key, lands at the destination index clamped to the column length; other columns are untouched |
| Board.DropLeavesSource | client/src/pages/Dashboard.tsx:62 | a move across columns leaves no copy of the task in the source column |
| Board.DropSameColumn | client/src/pages/Dashboard.tsx:59-64 | a drop within one column is a reorder: same length, same ids |
| Board.DropKeepsStatus | client/src/pages/Dashboard.tsx:63 | every task keeps its status equal to the column that holds it |
| Board.Board.constructor | client/src/pages/Dashboard.tsx:26-31 | the board starts with four empty columns |
| Board.Board.Hydrate | client/src/pages/Dashboard.tsx:40-46 | the push loop leaves the board equal to the hydration of its old value with the response |
| Board.Board.HandleDragEnd | client/src/pages/Dashboard.tsx:55-75 | the splices leave the board equal to the specified drop; the only request carries the id and the new status, and a failure is only logged |
| Board.ScenarioHydrate | client/src/pages/Dashboard.tsx:40-46 | a two-task response fills To Do and Done |
| Board.ScenarioDrag | client/src/pages/Dashboard.tsx:55-75 | dragging a To Do task to In Progress moves it, sets its status and sends `{status}`; a failed request is only logged |
| Subtasks.Merge | client/src/components/SubtaskItem.tsx:26 | the optimistic subtask is the original with exactly the supplied fields overwritten and the id kept |
| Subtasks.MergeIdempotent | client/src/components/SubtaskItem.tsx:26 | merging the same fields twice is merging them once |
| Subtasks.AsSubtask | client/src/components/SubtaskItem.tsx:41-42 | the PATCH answer read as a subtask carries the task's id |
| Subtasks.Settle | client/src/components/SubtaskItem.tsx:41-45 | a proposed edit settles: an answer confirms the answer read as a subtask, a failure rolls back to the original, a settled edit stays put |
| Subtasks.UpdateEffects | client/src/components/SubtaskItem.tsx:32-49 | three effects in order: the merged value reported, the PATCH with the edited subtask's id and the fields, then the answer or, on failure, the original subtask |
| Subtasks.SettleCorrected | client/src/components/SubtaskItem.tsx:41-42 | corrected settlement: an answer confirms the subtask the returned task stores under the edited id, or rolls back when it has none; a failure rolls back |
| Subtasks.CorrectedEffects | client/src/components/SubtaskItem.tsx:41-42 | corrected trace: on success the last report is the stored subtask with the edited id |
| Subtasks.CheckboxFields | client/src/components/SubtaskItem.tsx:51-53 | the checkbox sends the flipped completion flag and no text |
| Subtasks.BlurFields | client/src/components/SubtaskItem.tsx:55-59 | a blur sends fields exactly when the text is not blank and differs, and then sends the untrimmed text alone |
| Subtasks.SubtaskItem.constructor | client/src/components/SubtaskItem.tsx:16-19 | a row starts not editing, not loading, showing the subtask's text |
| Subtasks.SubtaskItem.StartEditing | client/src/components/SubtaskItem.tsx:82 | a click on the text starts editing and changes nothing else |
| Subtasks.SubtaskItem.ChangeText | client/src/components/SubtaskItem.tsx:74 | typing replaces the edited text and changes nothing else |
| Subtasks.SubtaskItem.HandleUpdate | client/src/components/SubtaskItem.tsx:32-49 | the effects grow by the update trace, and `loading` is false afterwards whatever the outcome |
| Subtasks.SubtaskItem.HandleCheckboxChange | client/src/components/SubtaskItem.tsx:51-53 | the checkbox performs the update trace with the flipped flag |
| Subtasks.SubtaskItem.HandleBlur | client/src/components/SubtaskItem.tsx:55-60 | editing always ends; the update trace runs only when the blur sends fields |
| TaskCard.ReplaceById | client/src/components/TaskCard.tsx:50-54 | same length and order; entries with the update's id become the update, the others stay |
| TaskCard.ReplaceNoMatch | client/src/components/TaskCard.tsx:52 | an update whose id matches no entry leaves the list unchanged |
| TaskCard.ReplaceIdempotent | client/src/components/TaskCard.tsx:52 | applying the same update twice equals applying it once |
| TaskCard.ReplaceSameId | client/src/components/TaskCard.tsx:52 | of two updates with the same id, the later one wins |
| TaskCard.ReplaceRestores | client/src/components/TaskCard.tsx:50-53 | reporting a changed value and then the original restores the list |
| TaskCard.DeliverUpdate | client/src/components/TaskCard.tsx:50-53 | the card's list after an edit trace is the list with the two reported values applied in order |
| TaskCard.FailedEditRestores | client/src/components/TaskCard.tsx:50-53 | after a failed edit the card's list equals its pre-edit value, entry by entry |
| TaskCard.SuccessLeavesOptimistic | client/src/components/TaskCard.tsx:52 | when the answer's id matches no subtask, a successful edit leaves the optimistic value in the list |
| TaskCard.SuccessIgnoresServerValue | client/src/components/SubtaskItem.tsx:41-42 | a text the server stores trimmed stays untrimmed on the card after success |
| TaskCard.SuccessShowsServerValue | client/src/components/SubtaskItem.tsx:41-42 | with the corrected trace, success leaves the server's stored subtask in the list |
| TaskCard.CorrectedFailedEditRestores | client/src/components/SubtaskItem.tsx:43-45 | with the corrected trace, a failure still restores the list exactly |
| TaskCard.CountCompleted | client/src/components/TaskCard.tsx:39 | the completed count is at most the total, equals it iff all are done, and is 0 iff none are |
| TaskCard.Checklist | client/src/components/TaskCard.tsx:39-40 | completed ≤ total, both 0 without subtasks, and total is the length of the task's subtasks |
| TaskCard.NewCard | client/src/components/TaskCard.tsx:47 | the local list starts as the task's subtasks, or empty |
| TaskCard.HandleSubtaskUpdate | client/src/components/TaskCard.tsx:50-54 | an update replaces by id in the local list and leaves the task prop alone |
| TaskCard.SummaryLagsLocalList | client/src/components/TaskCard.tsx:39-47 | the counts come from the task prop, so ticking a subtask locally does not change them |
| TaskCard.Initials | client/src/components/TaskCard.tsx:41 | "No Assignee" for an empty or missing assignee, else the first two characters (or fewer) upper-cased |
| TaskCard.PlainLabel | client/src/components/TaskCard.tsx:137 | any status other than inprogress is shown as its key upper-cased |
| TaskCard.InProgressLabel | client/src/components/TaskCard.tsx:137 | inprogress is shown as "IN PROGRESS" |
| TaskCard.StatusLabels | client/src/components/TaskCard.tsx:137 | the four labels are BACKLOG, TODO, IN PROGRESS and DONE |
| TaskCard.DraggableIdRoundTrip | client/src/components/TaskCard.tsx:57 | `status-id` can be split back into its status and its id |
| TaskCard.DraggableIdInjective | client/src/components/TaskCard.tsx:57 | two cards get the same draggable id iff they have the same status and id |
| TaskForm.RenameItem | client/src/components/AddTaskModal.tsx:53-57 | only titles of items with the id change; length, order, ids and flags are kept |
| TaskForm.RenameTwice | client/src/components/AddTaskModal.tsx:53-57 | renaming twice is renaming to the later title |
| TaskForm.AddItem | client/src/components/AddTaskModal.tsx:59-61 | one blank, unticked entry is appended after the unchanged list |
| TaskForm.RemoveItem | client/src/components/AddTaskModal.tsx:63-65 | every item with the id goes, every other item stays; the length is unchanged iff none had it |
| TaskForm.RemoveConcat | client/src/components/AddTaskModal.tsx:64 | removal works piecewise, so the relative order of the rest is kept |
| TaskForm.AddThenRemove | client/src/components/AddTaskModal.tsx:59-65 | removing a just-added entry with a fresh id gives back the list |
| TaskForm.NoMatchRemove | client/src/components/AddTaskModal.tsx:64 | removing an id no item has leaves the list unchanged |
| TaskForm.ToggleItem | client/src/components/AddTaskModal.tsx:158-163 | only flags of items with the id flip; titles, ids, length and order are kept |
| TaskForm.ToggleTwice | client/src/components/AddTaskModal.tsx:158-163 | toggling twice restores the list |
| TaskForm.CountFilled | client/src/components/AddTaskModal.tsx:68 | the count of entries with a non-blank title is at least 1 iff such an entry exists |
| TaskForm.CanSaveMeans | client/src/components/AddTaskModal.tsx:68 | save is allowed iff the title is non-empty, a priority is chosen and some entry has a non-blank title |
| TaskForm.BlankTitlePasses | client/src/components/AddTaskModal.tsx:68 | a title of one space passes the guard, while a checklist of blank entries fails it |
| TaskForm.SaveEffects | client/src/components/AddTaskModal.tsx:67-83 | a refused save only alerts "Please fill all required fields."; an accepted one calls `onSave` with the fields as entered and the task id, then `onClose` |
| TaskForm.BlankEntriesKept | client/src/components/AddTaskModal.tsx:73-79 | an accepted payload carries blank checklist entries unchanged |
| TaskForm.DatePart | client/src/components/AddTaskModal.tsx:49 | the prefilled date is the first ten characters, or the whole string if shorter |
| TaskForm.AddTaskModal.constructor | client/src/components/AddTaskModal.tsx:35-41 | the form starts empty, with one blank entry stamped with the given time |
| TaskForm.AddTaskModal.Prefill | client/src/components/AddTaskModal.tsx:43-51 | editing copies the existing task's fields with their defaults, and the date cut to ten characters |
| TaskForm.AddTaskModal.HandleSubtaskChange | client/src/components/AddTaskModal.tsx:53-57 | the checklist becomes its rename and no other field changes |
| TaskForm.AddTaskModal.AddNewSubtask | client/src/components/AddTaskModal.tsx:59-61 | the checklist gains one blank entry and no other field changes |
| TaskForm.AddTaskModal.RemoveSubtask | client/src/components/AddTaskModal.tsx:63-65 | the checklist loses the entries with the id and no other field changes |
| TaskForm.AddTaskModal.ToggleSubtask | client/src/components/AddTaskModal.tsx:158-163 | the checklist becomes its toggle and no other field changes |
| TaskForm.AddTaskModal.HandleSave | client/src/components/AddTaskModal.tsx:67-83 | the effects grow by the save effects and no field changes |
| Regex.AheadOnOneLine | client/src/pages/auth/Register.tsx:17 | on a single line, a `(?=.*X)` lookahead holds iff some character is in X |
| Regex.AheadStopsAtLineEnd | server/routes/userRoute.js:9 | a lookahead fails when no character of its class comes before or at the first line terminator |
| RegisterForm.PatternIsRule | client/src/pages/auth/Register.tsx:17 | the pattern accepts exactly passwords of 6 to 12 letters, digits and `@$!%*#?&`, with one of each kind |
| RegisterForm.PatternSamples | client/src/pages/auth/Register.tsx:17 | a space, a dash, a missing symbol, 3 characters or 13 characters each cause rejection |
| RegisterForm.Submit | client/src/pages/auth/Register.tsx:25-47 | a request goes out iff the pattern holds and the confirmation matches, and it carries name, e-mail and password only; the pattern message wins over the mismatch message |
| RegisterForm.PatternCheckedFirst | client/src/pages/auth/Register.tsx:28-40 | a password failing both checks shows the pattern message and sends nothing |
| Session.IsAuthenticated | client/src/utils/auth.ts:9-22 | false without a token or when decoding fails; otherwise true iff `exp` is present and later than now |
| Session.ExpiryIsStrict | client/src/utils/auth.ts:15-18 | at the expiry second the token no longer counts, and one millisecond earlier it does |
| Session.MonotoneInTime | client/src/utils/auth.ts:18 | authenticated at a time means authenticated at every earlier time |
| Session.StaysExpired | client/src/utils/auth.ts:18 | once not authenticated, never authenticated again later |
| Js.Trim | client/src/components/SubtaskItem.tsx:57 | the result neither starts nor ends with whitespace and is empty iff the input is all whitespace |
| Js.TrimIsInfix | client/src/components/SubtaskItem.tsx:57 | what trim keeps is an infix of the input, and only whitespace is cut on either side |
| Js.FindIndex | server/controllers/taskControl.js:75 | the position found is the first whose element satisfies the predicate; none is found iff no element does |
| Js.TrimIdempotent | server/models/tasks.js:17-21 | trimming twice is trimming once |
| Js.ToUpper | client/src/components/TaskCard.tsx:41 | the result has the same length and upper-cases each ASCII letter |
| Js.Split | server/middleware/auth.js:14 | the pieces contain no separator, and there is more than one iff the separator occurs |
| Js.JoinSplit | server/middleware/auth.js:14 | joining the pieces of a split gives back the string |
| Js.ReplaceFirst | client/src/components/TaskCard.tsx:137 | only the first occurrence is replaced, and the string is unchanged when there is none |
| Js.SpliceStart | client/src/pages/Dashboard.tsx:64 | an index past the end is clamped to the length; a negative index counts from the end |
| Js.RemoveAt | client/src/pages/Dashboard.tsx:62 | the element at the index is removed, order is kept and the multiset loses exactly that element |
| Js.InsertAt | client/src/pages/Dashboard.tsx:64 | the element is inserted at the index, order is kept and the multiset gains exactly that element |
| TaskModel.PriorityOfKey | server/models/tasks.js:22-26 | a string names a priority iff it is "high", "medium" or "low" |
| TaskModel.TrimmedOrEmpty | server/models/tasks.js:27-31 | the assignee is stored trimmed and defaults to "" |
| TaskModel.NormalizeSubtasks | server/models/tasks.js:3-13 | subtasks keep their order; text is trimmed, completion defaults to false, and a missing id gets a fresh one |
| TaskModel.Errors | server/models/tasks.js:15-43 | no errors iff the document is valid; the title, priority and status paths, and each subtask's text path, are reported iff that field breaks its rule |
| TaskModel.Normalize | server/models/tasks.js:15-43 | saving succeeds iff the document is valid; then the title is trimmed and non-empty, enums are parsed, status defaults to To Do, assignee to "", and the subtasks are normalised in order (text trimmed, completion false by default, ids kept or fresh) |
| TaskModel.NormalizeWellFormed | server/models/tasks.js:15-43 | every saved document has trimmed strings and non-empty required texts |
| TaskModel.StoredSubtasks | server/models/tasks.js:3-13 | stored subtasks saved again come back unchanged |
| TaskModel.NormalizeStored | server/models/tasks.js:15-43 | saving a stored document again gives it back unchanged |
| TaskModel.KeysRoundTrip | server/models/tasks.js:22-36 | priority and status keys read back as what they name |
| TaskModel.BlankTitleRejected | server/models/tasks.js:17-21 | a title of spaces fails `required` after trimming |
| TaskModel.EnumsRejected | server/models/tasks.js:22-36 | values outside both enumerations are reported, priority first |
| TaskModel.DefaultsFilled | server/models/tasks.js:17-36 | the title is stored trimmed; status and assignee take their defaults |
| TaskControl.PatchErrors | server/controllers/taskControl.js:44-47 | an update is rejected iff a supplied field breaks its rule; absent fields are never reported |
| TaskControl.ApplyPatch | server/controllers/taskControl.js:44-47 | an accepted update keeps the id; each supplied text field is stored trimmed, each supplied enumeration key as the value it names, a supplied checklist as saving would normalise it (trimmed texts, completed false by default, ids kept or fresh); every field not supplied keeps its stored value |
| TaskControl.PatchKeepsWellFormed | server/controllers/taskControl.js:44-47 | an accepted update of a stored document leaves it well formed |
| TaskControl.OverlayValid | server/controllers/taskControl.js:44-47 | the update validators accept exactly the bodies whose overlay on the stored document the schema accepts |
| TaskControl.PatchIsOverlaySave | server/controllers/taskControl.js:44-49 | updating in place equals saving the stored document with the supplied fields laid over it |
| TaskControl.EmptyPatchKeeps | server/controllers/taskControl.js:44-47 | an update with no fields leaves the document unchanged |
| TaskControl.FindSubtask | server/controllers/taskControl.js:75 | the position found holds the first subtask with the id; none is found iff no subtask has it |
| TaskControl.LocateSubtask | server/controllers/taskControl.js:75-76 | a missing subtask is answered 404 "Subtask not found"; otherwise its position |
| TaskControl.LocateForDelete | server/controllers/taskControl.js:96 | as written, a missing subtask ends in a 500 from calling `.remove()` on null |
| TaskControl.DeleteMissingSubtaskIsServerError | server/controllers/taskControl.js:93-101 | deleting a subtask a task does not have answers 500 where the update route answers 404 |
| TaskControl.LookupsAgree | server/controllers/taskControl.js:75-76 | the two lookups agree on every subtask that exists |
| TaskControl.PullSubtask | server/controllers/taskControl.js:96 | `.remove()` on an array subdocument pulls every subtask with that id: none with it is left, every other one stays, and nothing new appears; the length is kept iff no subtask had the id |
| TaskControl.PullCounts | server/controllers/taskControl.js:96 | the pull keeps each subtask without the id exactly as often as it occurred, and no subtask with it |
| TaskControl.PullConcat | server/controllers/taskControl.js:96 | the pull works piece by piece, so the remaining subtasks keep their order |
| TaskControl.PullAbsent | server/controllers/taskControl.js:96 | pulling an id no subtask has leaves the array unchanged |
| TaskControl.PullSingle | server/controllers/taskControl.js:96 | where only one subtask has the id, the pull removes exactly that one |
| TaskControl.PullDistinct | server/controllers/taskControl.js:95-96 | with distinct subtask ids, the pull removes exactly the subtask that `subtasks.id()` finds |
| TaskControl.PullTakesEveryMatch | server/controllers/taskControl.js:96 | two subtasks under one id are both removed, where removing only the first match would keep the second |
| TaskControl.EditSubtask | server/controllers/taskControl.js:78-79 | only supplied fields change; a supplied text is stored trimmed; the id is kept |
| TaskControl.EditKeepsWellFormed | server/controllers/taskControl.js:78-81 | an edit with a non-blank text keeps the stored document well formed |
| TaskControl.TaskStore.CreateTask | server/controllers/taskControl.js:4-18 | 400 with "Title and priority are required." for a falsy title or priority; 500 and no store change when the schema rejects; else 201 with a new To Do document stored under a fresh id, whatever status the body gave |
| TaskControl.TaskStore.GetTaskById | server/controllers/taskControl.js:31-39 | 500 for an id that does not cast, 404 "Task not found" for an absent id, else 200 with the document |
| TaskControl.TaskStore.UpdateTask | server/controllers/taskControl.js:42-53 | a cast failure, then a validation failure (even for an absent id) answer 500; an absent id answers 404; else 200 with the updated document, which is stored |
| TaskControl.TaskStore.DeleteTask | server/controllers/taskControl.js:56-64 | 404 for an absent id; else the document is removed and "Task deleted" is answered |
| TaskControl.TaskStore.UpdateSubtask | server/controllers/taskControl.js:67-86 | the missing task is reported before the missing subtask; a blank text fails on save with 500; else only that subtask's supplied fields change and the whole task is answered |
| TaskControl.TaskStore.DeleteSubtask | server/controllers/taskControl.js:89-102 | 404 for a missing task, 500 for a missing subtask; else every subtask with the id is pulled, the others keep their order, and the whole task is answered |
| UserRoutes.ValidatePasswordIsRule | server/routes/userRoute.js:8-11 | the pattern holds iff the password is one line of 6 to 15 characters with a lower-case letter, an upper-case letter and a non-word character |
| UserRoutes.LineBreakRejected | server/routes/userRoute.js:9 | a line break inside an otherwise good password makes the pattern fail |
| UserRoutes.FindByEmail | server/routes/userRoute.js:17 | the user found is the first stored user with the e-mail; none is found iff no user has it |
| UserRoutes.CheckEmail | server/routes/userRoute.js:13-30 | a taken e-mail is answered 200 with status "error" and "Email is already registered", a free one 200 with status "ok" and "Email is available"; 500 "Server error" on a store failure |
| UserRoutes.Register | server/routes/userRoute.js:33-75 | a taken e-mail is answered 400 "User already exists" with nothing stored; else the user is stored as a member with the hashed password, and the answer's token carries id and role |
| UserRoutes.RegisterIgnoresRoleAndRule | server/routes/userRoute.js:35-51 | the new user is a member whatever role the body names, and registration succeeds whatever the password |
| UserRoutes.WeakPasswordRegisters | server/routes/userRoute.js:33-53 | a password the server pattern rejects is still registered |
| UserRoutes.Login | server/routes/userRoute.js:78-109 | success iff the e-mail is found and the password matches its hash, then a token with id, name, e-mail and role; else 400 "Invalid email or password" |
| UserRoutes.LoginHidesWhichFailed | server/routes/userRoute.js:83-90 | an unknown e-mail and a wrong password get identical answers |
| UserRoutes.RegisterThenLogin | server/routes/userRoute.js:33-104 | after registering, logging in with the same e-mail and password succeeds and names the new member |
| AuthMiddleware.BearerToken | server/middleware/auth.js:14 | the token taken from the header contains no space |
| AuthMiddleware.BearerTokenAfterPrefix | server/middleware/auth.js:8-14 | after "Bearer ", the token is the text up to the next space |
| AuthMiddleware.PlainBearerToken | server/middleware/auth.js:14 | "Bearer abc" yields the token "abc" |
| AuthMiddleware.EmptyBearerToken | server/middleware/auth.js:14 | "Bearer " yields the empty token, which goes to verification rather than counting as missing |
| AuthMiddleware.FindById | server/middleware/auth.js:18 | the user found is the first stored user with the id, with its name, e-mail and role and without the password; none is found iff no user has it |
| AuthMiddleware.VerifyToken | server/middleware/auth.js:5-25 | a missing or non-"Bearer " header gets 401 "Authorization token missing!", a token that fails verification 401 "Invalid or expired token!"; otherwise the user (possibly none) is recorded and `next` called once |
| AuthMiddleware.VerifyAdmin | server/middleware/auth.js:28-35 | passes iff a user is recorded and its role is exactly "admin"; else 403 "Admin access required by you!" |
| AuthMiddleware.VanishedUserStopsAtAdmin | server/middleware/auth.js:18-33 | a valid token whose user is gone passes the token check but is refused by the admin gate |
| AuthMiddleware.AdminGateByRole | server/middleware/auth.js:29-34 | a member is always refused and an administrator always let through |

## Left out

- User interface: JSX markup, styling, React re-rendering and the modal's open/close state. `setBoard` is modelled as the board's new value.
- SubtaskItem's `useEffect` re-sync of the edited text with `subtask.text` (client/src/components/SubtaskItem.tsx:21-23) is not modelled. It is a React effect that runs after a render.
- The checkbox's and input's `disabled={loading}` is not modelled. Each handler runs to completion, so `loading` is false between calls.
- TaskCard's due-date display (`toLocaleString`, client/src/components/TaskCard.tsx:42-44) is not modelled: locale and date formatting.
- Transport is a parameter. Each remote call completes with a success or failure value before the next gesture, so no two requests interleave.
- The database is abstract. Ids are natural numbers from a counter. "Does not cast to an ObjectId" is the `Malformed` id. Timestamps from `{ timestamps: true }` are not modelled.
- Request bodies hold strings, booleans and integers only. Mongoose casting of other types, `null` values and `$unset` are not modelled. The due date is an integer.
- `getAllTasks` (server/controllers/taskControl.js:21-28) makes no decision: it answers the whole store.
- server/models/User.js is not part of this model. Any validation it would apply on save is absent.
- Store failures: one flag makes the first store lookup throw. Failures in hashing, saving or signing after the lookup are not distinguished.
- Hashing and comparison (bcrypt) are function parameters.
- A signed token (`jwt.sign`) is its claims and its seven-day lifetime. The secret and the encoding are left out.
- `jwt.verify` is a parameter from the token to the user id it carries. An expired token and a bad signature both fail it.
- `User.findById` in the middleware is a search of the user list that never throws.
- Register page: storing the token and navigating after success (client/src/pages/auth/Register.tsx:48-49), and the request's failure (50-52), are not modelled.
- Session: reading `localStorage` and `jwtDecode` are parameters. `Date.now() / 1000` is compared as `exp * 1000 > now` in integer milliseconds. A fractional `exp` is not modelled.
- String lengths count characters, whereas JavaScript counts UTF-16 code units. This matters for characters outside the Basic Multilingual Plane in the password length bounds, `slice(0, 2)` and `slice(0, 10)`.
- Js.ToUpper: upper-cases the ASCII letters a–z only; JavaScript's `toUpperCase` also maps other letters, for example accented ones. The labels and initials of ASCII text are unaffected.
- TaskCard.Initials: reads `assignee` as the card's prop type declares it. The server stores the assignee as `assigneeName`, and how tasks reach the card is not part of this model.
- Subtasks.Fields: has no id field. The component only ever sends `text` or `completed`, so a `Partial<Subtask>` carrying an `_id` is not modelled.
- Board.Board.Hydrate: a task status is one of the four keys or absent. A fetched status outside them would make `updated[status].tasks` throw (client/src/pages/Dashboard.tsx:42-43); the catch at lines 47-49 only logs, `setBoard` never runs, and the tasks pushed before it stay in `initialColumns`. The server's status enumeration (server/models/tasks.js:32-35) keeps stored statuses among the four keys. A rejected `API.get` (line 39, caught at 47-49) is not modelled either: it leaves the board as it was.
- Hydration runs from empty columns in the lemmas. The module-level `initialColumns` arrays that a second fetch would push into again (client/src/pages/Dashboard.tsx:40) are not modelled.
- TaskCard.FailedEditRestores: states the equality entry by entry, with the length, rather than as one sequence equality. The two are equivalent.
- TaskCard.SuccessLeavesOptimistic: states the equality entry by entry, with the length, rather than as one sequence equality. The two are equivalent.
- TaskCard.CorrectedFailedEditRestores: states the equality entry by entry, with the length, rather than as one sequence equality. The two are equivalent.
- Mongoose version: the model assumes a Mongoose release before 7, where an array subdocument's `remove()` pulls every element with its `_id` (server/controllers/taskControl.js:96). From Mongoose 7 on, subdocuments have no `remove()`; that line would then throw on every delete and the handler would answer 500. The repository's package manifest is not part of this model, so the version is not pinned.
- Subtask ids need not be distinct: a supplied checklist keeps the ids it carries. `TaskControl.PullDistinct` ties the delete to the first-match lookup only for distinct ids.
- Logging through `console.error` is not modelled. `Board.Board.HandleDragEnd` records only that a failure was logged.

## Findings

| source | as written | input that shows it | evidently intended | confidence | as-written member | corrected member |
|---|---|---|---|---|---|---|
| client/src/components/SubtaskItem.tsx:41-42 | on success `onUpdate(res.data)` reports the PATCH answer, which is the whole task (server/controllers/taskControl.js:82). Its id is the task's id, so the card's replace-by-id (client/src/components/TaskCard.tsx:52) matches no subtask and the optimistic value stays | task t1 with subtask s1 "a"; saving the text " b ", which the server stores trimmed as "b": the card keeps " b " | the confirmed value is the subtask as the server stored it | medium; not executed | TaskCard.SuccessIgnoresServerValue | TaskCard.SuccessShowsServerValue |
| server/controllers/taskControl.js:96 | `task.subtasks.id(subtaskId).remove()` does not check that the subtask exists: for a missing one it calls `.remove()` on null and the catch answers 500 | DELETE on task 1, which has no subtasks, for subtask 2 | 404 "Subtask not found", as the update route answers at line 76 | medium; not executed | TaskControl.DeleteMissingSubtaskIsServerError | TaskControl.LocateSubtask |

The components and the store methods model the code as written:
`Subtasks.SubtaskItem.HandleUpdate` produces `Subtasks.UpdateEffects`, and
`TaskControl.TaskStore.DeleteSubtask` uses `TaskControl.LocateForDelete`.

The corrected definitions stand beside them with their properties proved:
- `Subtasks.CorrectedEffects`, with `TaskCard.SuccessShowsServerValue` and
  `TaskCard.CorrectedFailedEditRestores`;
- `TaskControl.LocateSubtask`, which the subtask update uses, with
  `TaskControl.LookupsAgree`.
