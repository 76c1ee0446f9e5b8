# Personal Task Manager — state model

A Dafny model of the two pieces of state a small single-page task manager keeps in memory.

- **The task dashboard** (`src/pages/Dashboard.tsx`). It holds an ordered list of tasks, most recent first, a creation-form draft and a form-visibility flag. Its actions are: create a task from the draft; set a task's status by id; advance a task's status with the quick-toggle button; show, hide and cancel the form; edit the draft's fields. It also derives display attributes from each task: the priority colour, the priority label and the status icon.
- **The mock authentication context** (`src/contexts/AuthContext.tsx`). It holds an optional user and an optional session. Sign-in and sign-up unconditionally install the mock user with id `"1"`, and sign-out clears both fields. The `useAuth` accessor throws outside its provider.

Everything is modelled as immutable datatypes and pure functions. The React state hooks are state-to-state functions. `Math.random()` ids and `new Date().toISOString()` timestamps are parameters. The source's nullable fields are `Option`, and a thrown error is `Result.Err`.

Modules: `Wrappers` (Option/Result), `Auth`, `Tasks` (task record, creation, status update, quick-toggle), `Display` (colour, label, icon, list rows), `Dashboard` (page state, user events, enabled runs).

Notes on the code's behaviour:

- The quick-toggle order (completed → pending → in progress → completed) is the lifecycle cycle pending → in progress → completed → pending. `Tasks.NextStatus` proves it is "rank + 1 mod 3".
- Cancel (`Dashboard.tsx:196`) only hides the form; the draft is kept (`Dashboard.CancelKeepsDraft`).
- `x || null` on a string makes only the empty string null. A whitespace-only description is kept as written.
- A quick-toggle computes the next status from the clicked row. It then applies that status to every task with the same id. Three toggles are guaranteed to restore the list when ids are unique (`Tasks.ToggleRowThriceRestores`).
- The priority label is High for every value other than 1 and 2, while the colour is gray outside 1..3. The two agree exactly on the priorities the form's select can produce (`Display.LabelAndColourAgree`).

## Model

| member | source | states |
|---|---|---|
| `Auth.Initial` | src/contexts/AuthContext.tsx:23-24 | the provider starts signed out, with no session, in a consistent state |
| `Auth.SignIn` | src/contexts/AuthContext.tsx:26-31 | the result is signed in, with user id "1" and the given email, and its session wraps exactly that user |
| `Auth.SignUp` | src/contexts/AuthContext.tsx:33-38 | sign-up yields exactly the state sign-in yields for the same arguments |
| `Auth.SignOut` | src/contexts/AuthContext.tsx:40-43 | from any state, both user and session are absent and the state equals the initial one |
| `Auth.SignInIgnoresPasswordAndPriorState` | src/contexts/AuthContext.tsx:26-31 | sign-in's result does not depend on the password or on the state before the call |
| `Auth.SignInSignOutIdempotent` | src/contexts/AuthContext.tsx:26-43 | repeating a sign-in with the same email, or a sign-out, changes nothing |
| `Auth.RunPreservesConsistent` | src/contexts/AuthContext.tsx:23-43 | every sequence of sign-in/sign-up/sign-out keeps "session present iff user present, and session.user == user" |
| `Auth.RunDependsOnlyOnLastEvent` | src/contexts/AuthContext.tsx:26-43 | after a non-empty sequence of operations, the state is determined by the last operation alone |
| `Auth.ReachableStates` | src/contexts/AuthContext.tsx:23-43 | every state reachable from the initial one is consistent, and it is signed in iff the last operation was not a sign-out |
| `Auth.UseAuth` | src/contexts/AuthContext.tsx:52-57 | the accessor fails with "useAuth must be used within an AuthProvider" exactly when the context is undefined, and otherwise returns the context |
| `Auth.UseAuthInsideProvider` | src/contexts/AuthContext.tsx:45-57 | inside a provider the accessor succeeds and returns the provider's state |
| `Tasks.NullIfEmpty` | src/pages/Dashboard.tsx:56-60 | `s \|\| null` is null exactly for the empty string; otherwise it keeps the string |
| `Tasks.NewTask` | src/pages/Dashboard.tsx:53-62 | a new task has the given id and timestamp, the draft's title and priority, status pending, and null for each blank optional field; reading it back as a draft recovers the draft exactly |
| `Tasks.CreateTask` | src/pages/Dashboard.tsx:64 | creation prepends: the new task is first, the old list follows unchanged, and the length grows by one |
| `Tasks.UpdateStatus` | src/pages/Dashboard.tsx:76-79 | length is preserved; tasks with another id are unchanged; every task with the id (duplicates included) gets the new status; no field other than status changes |
| `Tasks.UpdateStatusMissingId` | src/pages/Dashboard.tsx:76-79 | an id not in the list leaves the list unchanged |
| `Tasks.UpdateStatusSingle` | src/pages/Dashboard.tsx:76-79 | with unique ids, updating a present id changes exactly that one task's status |
| `Tasks.UpdateStatusLastWriteWins` | src/pages/Dashboard.tsx:76-79 | two updates of the same id equal the second update alone |
| `Tasks.UpdateStatusCommutes` | src/pages/Dashboard.tsx:76-79 | updates of different ids can be applied in either order |
| `Tasks.UpdateStatusPreservesWellFormed` | src/pages/Dashboard.tsx:76-79 | a status update keeps ids unique, titles non-empty and priorities in 1..3 |
| `Tasks.CreateTaskPreservesWellFormed` | src/pages/Dashboard.tsx:53-64 | creating with a fresh id, a non-empty title and a priority in 1..3 keeps the list well-formed |
| `Tasks.NextStatus` | src/pages/Dashboard.tsx:221-226 | the quick-toggle successor advances the lifecycle rank by one, modulo 3, and is never the status itself |
| `Tasks.NextStatusPeriodThree` | src/pages/Dashboard.tsx:221-226 | three quick-toggle steps return every status to itself, and one or two steps never do |
| `Tasks.NextStatusInjective` | src/pages/Dashboard.tsx:221-226 | distinct statuses have distinct successors |
| `Tasks.ToggleRow` | src/pages/Dashboard.tsx:220-228 | clicking a row's button gives every task sharing that row's id, the row included, the successor of the clicked row's status; tasks with other ids are unchanged; with unique ids only that row changes and ids stay unique |
| `Tasks.ToggleRowThriceRestores` | src/pages/Dashboard.tsx:220-228 | with unique ids, clicking the same row three times restores the whole list |
| `Display.PriorityColour` | src/pages/Dashboard.tsx:83-94 | 1, 2 and 3 map to green, yellow and red, and gray is returned exactly for every other integer |
| `Display.PriorityLabel` | src/pages/Dashboard.tsx:247-251 | 1 is Low, 2 is Medium, and High is returned exactly for every other value, out-of-range ones included |
| `Display.LabelAndColourAgree` | src/pages/Dashboard.tsx:83-94 | the label's colour matches the priority colour exactly when the priority is in 1..3 |
| `Display.StatusIcon` | src/pages/Dashboard.tsx:96-105 | completed gets the check icon, in progress gets the clock, and the pending circle is the default |
| `Display.StatusIconInjective` | src/pages/Dashboard.tsx:96-105 | distinct statuses are shown with distinct icons |
| `Display.ListView` | src/pages/Dashboard.tsx:214-270 | one row per task in list order, carrying its id, title, status icon, priority label and priority colour; the "no tasks" placeholder appears exactly when the list is empty |
| `Display.ListViewAfterCreate` | src/pages/Dashboard.tsx:64 | after a create, the new task's row comes first, the old rows follow unchanged, and the placeholder is gone |
| `Dashboard.Initial` | src/pages/Dashboard.tsx:17-49 | the page starts with the two well-formed seeded tasks, the default draft and the form hidden |
| `Dashboard.ChoiceValue` | src/pages/Dashboard.tsx:167-176 | the select's Low, Medium and High options give priority 1, 2 and 3 respectively, and no other value |
| `Dashboard.ToggleForm` | src/pages/Dashboard.tsx:112 | the New Task button flips form visibility and changes nothing else |
| `Dashboard.CancelForm` | src/pages/Dashboard.tsx:196 | Cancel hides the form and keeps the task list and the draft |
| `Dashboard.Submit` | src/pages/Dashboard.tsx:51-74 | submit prepends the pending task built from the draft, resets the draft to blank fields with priority 2, and hides the form |
| `Dashboard.Step` | src/pages/Dashboard.tsx:112-227 | each action enabled on the page does exactly what its handler does (edits, Cancel and submit only while the form is shown): a quick-toggle changes only the task list, a submit is `Submit` (a colliding id is accepted), the New Task button flips the form flag, Cancel hides the form, and each edit sets only its own draft field, priority from the select |
| `Dashboard.StepPreservesInvariant` | src/pages/Dashboard.tsx:51-79 | each enabled action whose submitted id is fresh keeps the list well-formed and the draft's priority selectable |
| `Dashboard.Run` | src/pages/Dashboard.tsx:41-79 | over any enabled sequence of actions, whatever ids are drawn, the list grows by exactly one task per submission and never shrinks |
| `Dashboard.RunPreservesInvariant` | src/pages/Dashboard.tsx:41-79 | any enabled sequence of actions whose submissions all draw fresh ids keeps the invariant |
| `Dashboard.DuplicateIdScenario` | src/pages/Dashboard.tsx:53-64 | a submission whose id collides with a seeded task is accepted and leaves two tasks with that id |
| `Dashboard.CancelKeepsDraft` | src/pages/Dashboard.tsx:112-196 | cancelling and reopening the form restores the page state, unsubmitted draft included |
| `Dashboard.ReviewScenario` | src/pages/Dashboard.tsx:53-62 | a "Review" draft with priority High and category "Code Review" yields a pending task with priority 3, null description and due date, and that category |
| `Dashboard.SeededToggleScenario` | src/pages/Dashboard.tsx:28-37 | toggling the seeded in-progress task completes it, and toggling again makes it pending |

## Left out

- Rendering: the JSX layout, the CSS classes other than the priority colour classes, and the lucide icon components are left out. Icons and colours are enumerations.
- Toast notifications after a create or an update are left out. They are a side effect with no bearing on the state.
- `Math.random()` id generation and the `new Date().toISOString()` timestamp are left out. They are parameters of `Tasks.CreateTask` and `Dashboard.Submit`. Id freshness is assumed only by `Tasks.CreateTaskPreservesWellFormed`, `Dashboard.StepPreservesInvariant` and `Dashboard.RunPreservesInvariant` (through `Dashboard.FreshIds`); `Dashboard.Step` and `Dashboard.Run` accept any id.
- The `date-fns` formatting of a due date is left out. It is a library call that only affects display.
- The browser's `required` check on the title is left out. It lives outside the code, so `Dashboard.Enabled` states it as a condition on submission instead.
- A task's priority is a TypeScript `number`, modelled as `int`: non-integer and NaN priorities are not represented. Only 1, 2 and 3 can reach a task, from the select's options (`Dashboard.tsx:170-175`) or the seeded tasks.
- React state, context plumbing and async/Promise wrappers are left out. Each handler is a pure transition. Updates are modelled as if applied to the state current at the time of the event, not a stale closure.
- The context value's function members (`signIn`, `signUp`, `signOut`) are left out. The context is modelled as the provider's state, and the operations are `Auth`'s functions.
- `Math.random().toString(36).substr(2, 9)` can produce colliding ids. The model does not enforce uniqueness on creation. Uniqueness is a hypothesis of the lemmas that need it.
