# Task list query pipeline, sort button and task form — a Dafny model

This project models the logic of a small to-do application: the task record and
its enumerated domains, the query pipeline `filterTasks` that derives the
visible task list, the sort-selection rule of the sort button, and the add/edit
task form controller.

- `task.dfy` (module `TaskTypes`): the `Task` record and the domains of
  priority, priority filter, status filter, sort key and sort direction as
  datatypes. The properties of these domains hold by construction. A priority is
  exactly one of `Low`, `Medium`, `High`. The priority filter is
  `AllPriorities` or `Only(p)` for a priority `p`. The status filter is exactly
  `All`, `Todo`, `Completed`, `Deleted`. A task has no deleted flag, and
  `completed` is its only status field. Deadlines and creation times are
  strings. The source field `label` is called `labelText`, because `label` is
  a Dafny keyword.
- `js_runtime.dfy` (module `JsRuntime`): what the code uses from the
  JavaScript host. `Trim` removes exactly the characters that ECMAScript's
  `String.prototype.trim` removes: its contract says that the result is a
  contiguous piece of the input with only white space on either side and none
  at its ends. `Lower` lowercases ASCII letters. `Includes` is substring search. Date parsing, `toISOString`
  and `localeCompare` are fields of a `Host` value passed in as a parameter.
- `task_utils.dfy` (module `TaskUtils`): `filterTasks`. The status, priority
  and search stages are functions over sequences, in the source's order. The
  independent reference `Matching` keeps, in input order, the tasks that pass
  every active filter, and a lemma proves the staged pipeline equal to it. The
  comparator negates the key comparison for `desc`. `FilterTasks` copies the
  filtered tasks into a fresh array and sorts that array in place with an
  insertion sort. Its contract states that the result is a permutation of
  `Matching`, that every adjacent pair is in order, and that the input array is
  only read: the method has no `modifies` clause.
- `sort_button.dfy` (module `SortButton`): the option table, the label, icon
  and order-icon lookups, the next-order rule, and a class holding the
  dropdown state.
- `task_form.dfy` (module `TaskForm`): a class holding `formData`, the
  `taskToEdit` prop and the date-picker flag. Each handler is a method that
  states the whole new state and the callbacks it invokes, in order.

## Model

| member | source | states |
|---|---|---|
| `JsRuntime.WhiteSpaceClasses` | utils/taskUtils.ts:36-37 | Space, tab, line feed and carriage return are white space for `trim`. ASCII letters and digits are not. |
| `JsRuntime.TrimStart` | utils/taskUtils.ts:36-37 | The result is no longer than the input. Everything dropped from the front is white space. The result does not start with white space. |
| `JsRuntime.TrimStartIsSuffix` | utils/taskUtils.ts:36-37 | What `TrimStart` keeps is exactly the tail of its input. |
| `JsRuntime.TrimEnd` | utils/taskUtils.ts:36-37 | The result is no longer than the input. Everything dropped from the back is white space. The result does not end with white space. |
| `JsRuntime.TrimEndIsPrefix` | utils/taskUtils.ts:36-37 | What `TrimEnd` keeps is exactly the head of its input. |
| `JsRuntime.Trim` | utils/taskUtils.ts:36-37 | The result is a contiguous piece of the input with no white space at either end. Everything before it and everything after it is white space. |
| `JsRuntime.TrimPieces` | utils/taskUtils.ts:36-37 | The trimmed string starts where the leading white space ends, and only white space follows it. |
| `JsRuntime.TrimEmptyIffAllWhiteSpace` | utils/taskUtils.ts:36 | A string trims to empty exactly when every character is white space. This is when the search stage is skipped. |
| `JsRuntime.Lower` | utils/taskUtils.ts:37-41 | Lowercasing keeps the length. Each ASCII capital becomes its small letter, 32 code points later. Every other character is kept, so no ASCII capital remains. |
| `JsRuntime.Includes` | utils/taskUtils.ts:39-41 | `includes` holds exactly when the query occurs in the text at some position. |
| `JsRuntime.LowerThenTrim` | utils/taskUtils.ts:36-37 | Lowercasing then trimming, as the code does, equals trimming then lowercasing. The result is empty exactly when the trimmed query is empty. |
| `TaskUtils.Keep` | utils/taskUtils.ts:17-32 | `filter` never makes a list longer. |
| `TaskUtils.KeepCounts` | utils/taskUtils.ts:17-32 | `filter` keeps every element that satisfies the predicate, with its full multiplicity, and drops every other one. |
| `TaskUtils.StatusStage` | utils/taskUtils.ts:14-28 | The status stage never lengthens the list. `all` keeps the list as it is, and `deleted` empties it. |
| `TaskUtils.PriorityStage` | utils/taskUtils.ts:31-33 | The priority stage never lengthens the list, and `all` keeps it as it is. |
| `TaskUtils.MatchesQuery` | utils/taskUtils.ts:38-44 | An empty query matches every task. A matching query is no longer than the title, the description or the label. |
| `TaskUtils.SearchStage` | utils/taskUtils.ts:36-45 | The search stage never lengthens the list, and a query that trims to empty keeps it as it is. |
| `TaskUtils.FilterStages` | utils/taskUtils.ts:11-45 | The three stages never lengthen the list. `deleted` gives an empty list. With every filter at `all` and a blank query, the list is returned unchanged. |
| `TaskUtils.Matching` | utils/taskUtils.ts:13-45 | The reference result is never longer than the input, and is empty for `Deleted`. |
| `TaskUtils.MatchingCounts` | utils/taskUtils.ts:13-45 | A task occurs in the reference result iff it occurs in the input and passes the status, priority and search tests. It then occurs as often as in the input. |
| `TaskUtils.StagesAreMatching` | utils/taskUtils.ts:13-45 | Running the status, priority and search stages in sequence gives exactly the reference subsequence, in input order. |
| `TaskUtils.FilterStagesMeaning` | utils/taskUtils.ts:13-45 | `Deleted` gives an empty list. Otherwise a task is in the filtered list iff it is in the input, is not completed under `Todo`, is completed under `Completed`, has exactly the chosen priority when one is chosen, and, for a non-blank query, the lowercased trimmed query occurs in its lowercased title, description or label. |
| `TaskUtils.MatchingIdempotent` | utils/taskUtils.ts:13-45 | Filtering the filtered list again with the same arguments changes nothing. |
| `TaskUtils.Rank` | utils/taskUtils.ts:59-60 | Every priority has a rank between 1 and 3. |
| `TaskUtils.RankIncreasing` | utils/taskUtils.ts:59-60 | low < medium < high, and no two priorities share a rank. |
| `TaskUtils.KeyCompare` | utils/taskUtils.ts:49-65 | For creation time, deadline and priority, the comparison is negative, zero or positive as the first task's key is below, equal to or above the second's. For titles it is `localeCompare` of the titles. |
| `TaskUtils.Comparator` | utils/taskUtils.ts:48-67 | The comparator is zero exactly when the key comparison is. Under `asc` it is negative when the key comparison is. Under `desc` it is negative when the key comparison is positive. |
| `TaskUtils.ComparatorFlip` | utils/taskUtils.ts:48-67 | Under either direction, `a` sorts after `b` exactly when `b` sorts before `a`. This needs a consistent `localeCompare` only for the title key. |
| `TaskUtils.SortedNumericKeys` | utils/taskUtils.ts:50-67 | In a list sorted by creation time, deadline or priority rank, keys never decrease under `asc` and never increase under `desc`, for every pair of positions. |
| `TaskUtils.SortedTitles` | utils/taskUtils.ts:62-67 | In a list sorted by title, `localeCompare` of adjacent titles is at most 0 under `asc` and at least 0 under `desc`. |
| `TaskUtils.SortTasks` | utils/taskUtils.ts:48-68 | The array afterwards is a permutation of its old contents, and every adjacent pair is in comparator order. |
| `TaskUtils.CopyToArray` | utils/taskUtils.ts:48 | `[...filteredTasks]` is a fresh array holding the filtered tasks in order. |
| `TaskUtils.FilterTasks` | utils/taskUtils.ts:3-71 | The result is a newly allocated array and the input array is not modified. The result is a permutation of the reference subsequence, so it holds exactly the input tasks that pass every filter. It is no longer than the input, and empty for `Deleted`. Every adjacent pair is ordered by the chosen key and direction. |
| `SortButton.SortOptionsTable` | components/task/SortButton.tsx:14-19 | The option table lists each of the four sort keys exactly once, so looking up any key finds an option. Every option has a non-empty label and icon. |
| `SortButton.FindOption` | components/task/SortButton.tsx:34 | `find` returns the first option in the table that has the key, and returns nothing exactly when no option has it. |
| `SortButton.SortLabel` | components/task/SortButton.tsx:38-41 | Each key shows its listed label (`Created`, `Deadline`, `Priority`, `Title`). The fallback `Date Created` is never shown. |
| `SortButton.SortIcon` | components/task/SortButton.tsx:33-36 | Each key shows the icon listed for it in `sortOptions`. |
| `SortButton.SortOrderIcon` | components/task/SortButton.tsx:43-45 | The icon is `arrow-up` iff the order is `asc`, and `arrow-down` otherwise. |
| `SortButton.NextSortOrder` | components/task/SortButton.tsx:21-27 | A key other than the current one gives `desc`. The current key gives the opposite of the current order. |
| `SortButton.SelectCurrentKeyTwice` | components/task/SortButton.tsx:25-27 | Choosing the current key twice, with the first result fed back as the current order, restores the original order. |
| `SortButton.SelectNewKeyTwice` | components/task/SortButton.tsx:22-27 | Choosing a new key twice ends in `asc`. |
| `SortButton.SortButtonView.constructor` | components/task/SortButton.tsx:12 | The dropdown starts closed. |
| `SortButton.SortButtonView.ToggleDropdown` | components/task/SortButton.tsx:51 | Pressing the button flips whether the dropdown is shown. |
| `SortButton.SortButtonView.DismissDropdown` | components/task/SortButton.tsx:78-83 | A back request or a tap on the overlay closes the dropdown. |
| `SortButton.SortButtonView.HandleSortSelect` | components/task/SortButton.tsx:21-31 | `onSortChange` receives the selected key and the next order, and the dropdown is closed afterwards. |
| `TaskForm.DefaultForm` | components/task/TaskForm.tsx:52-59 | The empty form: empty title, description and label, `medium`, not completed, and the deadline now. The same record is written at lines 74-81, 127-134 and 139-146. |
| `TaskForm.DefaultFormRejected` | components/task/TaskForm.tsx:104-108 | An empty form cannot be submitted: it is rejected for its title. |
| `TaskForm.FormOf` | components/task/TaskForm.tsx:65-72 | A task fills the form: title, description, priority, label and completed flag are copied, and the deadline string is parsed. |
| `TaskForm.IsBlank` | components/task/TaskForm.tsx:105-110 | A text is blank exactly when every character is white space, which is when `trim` leaves nothing. |
| `TaskForm.Submitted` | components/task/TaskForm.tsx:116-125 | The submitted data carries the form's title, description, label, priority and completed flag untrimmed, and the deadline as an ISO string. |
| `TaskForm.MissingField` | components/task/TaskForm.tsx:104-113 | The title is checked before the description. There is a complaint exactly when the title or the description is blank after trimming, and it names the title whenever the title is blank. |
| `TaskForm.ResubmitLoadedTask` | components/task/TaskForm.tsx:63-136 | A form that loads a task whose title and description are not blank, and is then submitted unchanged, calls `onEditTask` with the task's id and its own fields, with the deadline parsed and formatted again, and then `onClose`. |
| `TaskForm.TaskFormView.constructor` | components/task/TaskForm.tsx:52-60 | The form starts with the defaults: empty texts, `medium`, not completed, the deadline now. The date picker starts closed. |
| `TaskForm.TaskFormView.LoadTaskToEdit` | components/task/TaskForm.tsx:63-83 | A present task's title, description, priority, label and completed flag are copied, and its deadline is parsed. An absent task resets the form to the defaults. |
| `TaskForm.TaskFormView.HandleInputChange` | components/task/TaskForm.tsx:85-87 | Exactly the chosen text field takes the new value. Nothing else changes. |
| `TaskForm.TaskFormView.HandlePriorityChange` | components/task/TaskForm.tsx:96-98 | Only the priority changes. |
| `TaskForm.TaskFormView.HandleCompletedChange` | components/task/TaskForm.tsx:100-102 | Only the completed flag changes. |
| `TaskForm.TaskFormView.OpenDatePicker` | components/task/TaskForm.tsx:248 | The date picker opens, and the form is unchanged. |
| `TaskForm.TaskFormView.HandleDateChange` | components/task/TaskForm.tsx:89-94 | The picker stays shown only on iOS. A picked date replaces the deadline. A dismissed picker leaves the form unchanged. |
| `TaskForm.TaskFormView.HandleSubmit` | components/task/TaskForm.tsx:104-136 | A blank title or description gives its complaint, calls no callback and leaves the state unchanged. Otherwise the untrimmed fields go to `onEditTask` with the edited task's id, or to `onAddTask` with no id, then `onClose` is called. The form resets to the defaults. |
| `TaskForm.TaskFormView.HandleCancel` | components/task/TaskForm.tsx:138-148 | Whatever the form holds, it resets to the defaults and `onClose` is called. |

## Left out

- Rendering, styles, icons, colours and modals are not modelled, including `getPriorityColor`. Only the state they show is modelled.
- `Alert.alert` is not modelled. A rejected submit returns the field it would complain about, calls no callback and changes no state.
- Date handling is host behaviour. `new Date(s).getTime()` and `toISOString` are uninterpreted functions of the `Host` parameter. `new Date()` becomes a `now` parameter, and `Platform.OS` becomes an `isIOS` parameter. Invalid dates (NaN time values, a `RangeError` from `toISOString`) are not modelled.
- `Lower` lowercases ASCII letters only. Unicode case mapping is not modelled.
- `Trim` works on Unicode scalar values, not on UTF-16 code units. Unpaired surrogates are not modelled.
- `localeCompare` is an uninterpreted comparator. The model assumes only that it is sign-consistent (`a` before `b` iff `b` after `a`), and only when sorting by title.
- FilterTasks: does not state that tasks with equal keys keep their filtered order. JavaScript's `Array.prototype.sort` is stable, but the model commits only to a permutation with adjacent pairs in order. The insertion sort stands in for the engine's algorithm.
- SortTasks: does not state stability, for the same reason.
- SortedTitles: states the order of adjacent titles only, because `localeCompare` is not assumed to be transitive.
- `handleInputChange` is modelled for the three keys the form passes to it: title, description and label. Its type admits any key of the form data, but no other key is passed.
- The `taskToEdit` effect also runs when the form mounts. The model has a constructor for the initial `useState` values, and `LoadTaskToEdit` for each run of the effect.
- `SortButtonView` takes its props as constants. When the parent passes back a new key and order, that is a new value of the props; the two-selection lemmas state this over `NextSortOrder`.
- The code comment at utils/taskUtils.ts:23 says the `deleted` filter shows every task. The code returns an empty list, and the model follows the code.
- `components/task/SearchBar.tsx` (a 300 ms debounce), `components/task/AddTask.tsx`, `components/task/StatusFilter.tsx`, `components/task/TaskList.tsx`, `components/task/TaskItem.tsx` and `app/(tabs)/index.tsx` are not part of this model. This leaves out the task store's add, edit, toggle and delete operations and the "n task(s) found" label.
- `TasksState` is modelled as a datatype only. No operation of the source takes it whole.
