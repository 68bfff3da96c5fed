# Kanban board task logic, verified in Dafny

This project models the task-handling core of a small kanban board. It has two
halves that share nothing at runtime.

- **The browser client.** The page (`src/App.tsx`) holds a list of tasks, the
  text of the "add task" input and the column a card is dragged over. It
  derives one column per status (todo, in-progress, done), each with a point
  total. It updates, deletes, adds and drag-drops tasks. Each card
  (`src/components/TaskCard.tsx`) steps points between 0 and 20, picks a
  priority, edits its title and shows its priority and the part of its id
  after the last `-`.
- **The Express server** (`backend/server.js`). It keeps a collection of tasks
  under a schema, fills in defaults on create, and answers the list, create,
  update and delete routes with 200/201, 400 or 404.

Modules:

| file | module | models |
|---|---|---|
| `wrappers.dfy` | `Wrappers` | `Option`, for absent fields and failed searches |
| `js_string.dfy` | `JsString` | the JavaScript built-ins used: `trim`, `split` + `pop`, a number's decimal text |
| `tasks.dfy` | `Tasks`, `ArrayOps` | the client's `Task`, `Status`, `Priority`; `Array.prototype.filter` and `find` |
| `task_card.dfy` | `TaskCard` | a card's edits, priority display, id display and its two interface flags (class `CardState`) |
| `board.dfy` | `Board` | columns, totals, the list operations, and the page state (class `BoardState`) |
| `server.dfy` | `Server` | the schema, create defaults and route outcomes over a map from id to record (class `TaskStore`) |

The types `Task`, `Status`, `Priority` and `statuses` come from
`src/utils/data-tasks`, which is not part of this model. They are defined here
to match the schema enums in `backend/server.js:22-23`. Statuses are ordered
todo, in-progress, done. A task's `priority` and `points` may be absent, since
the card reads them through `|| 'medium'` and `|| 0`.

The initial load, the DELETE and the POST are each reduced to how their
promise settled (`Board.Outcome`: `Resolved` or `Rejected`); the load also
carries the fetched list it installs. The PUT is sent without waiting, so it
has no outcome here. `fetch` resolves on every HTTP
reply, error codes included, so a DELETE answered with 404 still removes the
task locally. A dragged task's id is a plain string parameter. The server's
`ObjectId.isValid` is a predicate given to the store when it is built. The id
the database assigns on create is a parameter: a well-formed id that is not
yet in the store. The store starts from whatever the collection already
holds, provided every document in it sits under a well-formed id and obeys
the schema.

The page has no rollback:

- `updateTask` changes the list at once and never undoes it.
- `deleteTask` and `addNewTask` change the list only after the request
  resolves.
- `addNewTask` appends the task the client built (id `TASK-(n+1)`), not the
  server's reply.
- Nothing reconciles ids with the server, and ids are not guaranteed unique.

## Model

| member | source | states |
|---|---|---|
| `Tasks.EffectivePoints` | src/components/TaskCard.tsx:26 | an absent point count reads as 0, a present one as itself |
| `Tasks.EffectivePriority` | src/components/TaskCard.tsx:27 | an absent priority reads as medium, a present one as itself |
| `ArrayOps.Filter` | src/App.tsx:14 | the result holds only elements that pass the test, each as often as in the input; the rest are dropped |
| `ArrayOps.FilterAppend` | src/App.tsx:14 | filtering distributes over concatenation, so kept elements stay in input order |
| `ArrayOps.FilterAll` | src/App.tsx:47 | a filter every element passes returns the whole list |
| `ArrayOps.FindIndex` | src/App.tsx:88 | the index of the first passing element; none exactly when no element passes |
| `ArrayOps.Find` | src/App.tsx:88 | the first element that passes; none exactly when no element passes |
| `JsString.Trim` | src/App.tsx:53 | the trimmed text is the input with whitespace cut from both ends; it is empty exactly when the input is all whitespace |
| `JsString.Split` | src/components/TaskCard.tsx:102 | a split has at least one piece, no piece holds the separator, and joining the pieces with it gives back the text |
| `JsString.Last` | src/components/TaskCard.tsx:102 | `pop` returns the element that, appended to the rest, makes up the list |
| `JsString.SplitWithoutSep` | src/components/TaskCard.tsx:102 | text without the separator splits into itself alone |
| `JsString.SplitAtSep` | src/components/TaskCard.tsx:102 | a separator between two texts splits into the pieces of the first followed by those of the second |
| `JsString.LastPiece` | src/components/TaskCard.tsx:102 | the last split piece is the suffix after the last separator (the whole text when there is none) and holds no separator |
| `JsString.NatToString` | src/App.tsx:57 | a number's text is non-empty, all digits, with no leading zero |
| `JsString.NatToStringRoundTrip` | src/App.tsx:55-57 | reading a number's decimal text back gives the number |
| `Board.Columns` | src/App.tsx:13-19 | one column per status in status order; a listed task is in a column exactly when it has that column's status; columns hold only listed tasks |
| `Board.ColumnsPartition` | src/App.tsx:13-19 | the three columns together are the task list as a multiset, with no task dropped or duplicated |
| `Board.AppendToColumn` | src/App.tsx:13-19 | an appended task goes to the end of its own column and leaves the other columns unchanged |
| `Board.PointsTotal` | src/App.tsx:130 | an empty column totals 0, a single task its own points, and a list with no negative points a total that is not negative |
| `Board.PointsTotalAppend` | src/App.tsx:130 | the point sum of two lists joined is the sum of their sums |
| `Board.PointsTotalBounds` | src/App.tsx:130 | tasks with points in [0, 20] sum to between 0 and 20 per task |
| `Board.ColumnTotalsSum` | src/App.tsx:130 | the three column totals add up to the points of the whole list, counting an absent count as 0 |
| `Board.ColumnTotalAppend` | src/App.tsx:130 | an appended task's points go to its own column's total and to no other |
| `Board.ReplaceById` | src/App.tsx:37-39 | same length and ids; every entry with the task's id becomes the task; every other entry stays in place |
| `Board.ReplaceWithoutMatch` | src/App.tsx:37-40 | an update whose id matches no entry leaves the list unchanged |
| `Board.ReplaceIdempotent` | src/App.tsx:37-40 | applying the same update twice equals applying it once |
| `Board.RemoveById` | src/App.tsx:47 | no entry with the id remains; every other entry is kept as often as before |
| `Board.RemoveWithoutMatch` | src/App.tsx:47 | a delete whose id matches no entry leaves the list unchanged |
| `Board.RemoveAppend` | src/App.tsx:47 | removing by id keeps list order: it can be done piece by piece |
| `Board.NewTask` | src/App.tsx:55-62 | the new task has the typed title, status todo, priority medium, 0 points and id `TASK-` followed by the list length plus one |
| `Board.NewTaskDisplayId` | src/App.tsx:55-57 | a new task's card shows the decimal text of length plus one as its id, and that text reads back as that number |
| `Board.DropUpdate` | src/App.tsx:87-91 | a drop issues an update only when some task has the id; the update is the first such task with only its status changed to the target column |
| `Board.DropMovesTask` | src/App.tsx:84-92 | after a drop that finds its task, every entry with that id is the moved copy, and the copy is in the target column |
| `Board.BoardState.constructor` | src/App.tsx:9-11 | the page starts with no tasks, an empty input and no hovered column |
| `Board.BoardState.Load` | src/App.tsx:21-27 | the initial load replaces the list with the fetched one; a failed fetch changes nothing |
| `Board.BoardState.UpdateTask` | src/App.tsx:29-41 | the list is replaced by id at once, whatever becomes of the PUT |
| `Board.BoardState.DeleteTask` | src/App.tsx:43-50 | the id's entries are removed only once the DELETE resolves; otherwise the list is unchanged |
| `Board.BoardState.SetNewTaskTitle` | src/App.tsx:103 | the input text becomes the typed value |
| `Board.BoardState.AddNewTask` | src/App.tsx:52-74 | an all-whitespace title changes nothing; otherwise, once the POST resolves, the client-built task is appended and the input cleared; a rejected POST changes nothing |
| `Board.BoardState.HandleDragEnter` | src/App.tsx:76-78 | the hovered column becomes the entered one |
| `Board.BoardState.HandleDragLeave` | src/App.tsx:80-82 | the hovered column is cleared |
| `Board.BoardState.HandleDrop` | src/App.tsx:84-92 | the hovered column is cleared; the list changes by the drop's update when there is one and is unchanged otherwise |
| `TaskCard.PointsStep` | src/components/TaskCard.tsx:30-36 | up issues points + 1 only below 20, down issues points - 1 only above 0; the copy differs from the task only in its points |
| `TaskCard.ButtonsDisabledAtBounds` | src/components/TaskCard.tsx:162-176 | with points in [0, 20], a button issues an update exactly when it is enabled; it is disabled at 0 and at 20 |
| `TaskCard.StepsStayInRange` | src/components/TaskCard.tsx:30-36 | from points in [0, 20], any run of clicks keeps points in [0, 20] and changes no other field |
| `TaskCard.WithPriority` | src/components/TaskCard.tsx:39-40 | the priority edit changes only the priority, to the picked one |
| `TaskCard.WithTitle` | src/components/TaskCard.tsx:84 | the title edit changes only the title, to the typed text |
| `TaskCard.CardPriority` | src/components/TaskCard.tsx:27 | the card's priority string is the task's priority, or "medium" when it has none |
| `TaskCard.PriorityIcon` | src/components/TaskCard.tsx:45-50 | high, medium and low get their own icon; any other string gets Medium's |
| `TaskCard.PriorityColour` | src/components/TaskCard.tsx:53-58 | high, medium and low get their own colour; any other string, and only such a string, gets gray |
| `TaskCard.PriorityText` | src/components/TaskCard.tsx:61-66 | high, medium and low get their own label; any other string gets Medium's |
| `TaskCard.CardPriorityDisplay` | src/components/TaskCard.tsx:27-66 | a card shows its task's priority (medium when absent) and never the gray fallback |
| `TaskCard.DisplayId` | src/components/TaskCard.tsx:102 | the shown id is the part after the last `-`, or the whole id when it has none; it never holds a `-` |
| `TaskCard.CardState.constructor` | src/components/TaskCard.tsx:24-25 | a card starts with the title closed for editing and the priority menu closed |
| `TaskCard.CardState.ClickTitle` | src/components/TaskCard.tsx:89 | clicking the shown title opens it for editing |
| `TaskCard.CardState.EditTitle` | src/components/TaskCard.tsx:84 | typing issues a copy of the task that differs only in its title |
| `TaskCard.CardState.BlurTitle` | src/components/TaskCard.tsx:82 | leaving the input ends editing |
| `TaskCard.CardState.TitleKeyPress` | src/components/TaskCard.tsx:85 | Enter ends editing; any other key leaves it on |
| `TaskCard.CardState.TogglePriorityMenu` | src/components/TaskCard.tsx:108 | the priority button flips the menu |
| `TaskCard.CardState.ChangePriority` | src/components/TaskCard.tsx:39-42 | picking a priority issues the priority edit and closes the menu |
| `TaskCard.CardState.ClickOutside` | src/components/TaskCard.tsx:181-185 | a click outside the open menu closes it |
| `Server.Conforms` | backend/server.js:20-25 | a record within the schema is what a create of its own four fields stores: no default overrides a valid value |
| `Server.CreateDraft` | backend/server.js:45-51 | each truthy field of the body is kept as sent; each falsy one becomes its default (title "Untitled Task", status todo, priority medium, points 0) |
| `Server.CreateConformsIff` | backend/server.js:20-25 | a create obeys the schema exactly when every truthy status, priority and points it sends is within its enum or range |
| `Server.TaskStore.constructor` | backend/server.js:12-27 | the routes start over the collection as it is persisted, every document within the schema |
| `Server.TaskStore.List` | backend/server.js:34-37 | GET returns the whole collection with 200, every entry within the schema |
| `Server.TaskStore.Create` | backend/server.js:43-57 | a conforming create is stored under the new id and returned with 201; otherwise 400 and the store is unchanged; the schema invariant holds after |
| `Server.TaskStore.Update` | backend/server.js:59-81 | 400 for a malformed id, 404 for an absent one, 400 for a non-conforming payload, each leaving the store unchanged; otherwise only that record takes the payload and is returned |
| `Server.TaskStore.Delete` | backend/server.js:83-99 | 400 for a malformed id, 404 for an absent one, each leaving the store unchanged; otherwise exactly that record is removed |

## Left out

- The `fetch` calls, the JSON encoding and the `useEffect` mechanics of the page. The replies to POST, PUT and DELETE are never read: POST and DELETE are each reduced to an `Outcome`, and the PUT's outcome is not modelled because nothing waits for it. The GET reply is the `fetched` list that `Load` installs when its `Outcome` is `Resolved`.
- Overlapping requests. `deleteTask` and `addNewTask` read the list as it was when they were called, so two requests in flight can lose an update. Each operation is modelled as one atomic step taken when its promise settles.
- The `src/utils/api.ts` wrappers. The page does not use them.
- JSX markup, SVG bodies, CSS class strings (only which colour branch is chosen is kept) and the `dataTransfer` mechanism.
- `points` values that are not integers (fractions, `NaN`, strings). Points are integers here.
- Task fields that hold a status or priority outside the enums in client data. The client types rule them out. The priority display functions still take the raw priority string, so their fallback branch is modelled.
- Express and CORS setup, `mongoose.connect`, `app.listen`, the root `GET /` route and logging.
- The 500 replies of `GET /tasks` and `DELETE /tasks/:id`. Database failures are not modelled.
- Server.TaskStore.Update: the payload always carries all four fields. How `findByIdAndUpdate` treats absent fields is not modelled.
- Server.TaskStore.Update: an absent id is checked before the payload. Which of 404 and 400 Mongoose reports for an absent id with a bad payload depends on its internals.
- Server.TaskStore.Update: the `required` validator on an empty title is modelled as rejecting it, the same as on create.
- The format of database ids and how they are generated. A well-formedness predicate and a fresh-id parameter stand in for them.
- Any correspondence between client and server. They run on different ports with different id schemes, and nothing relates them.
