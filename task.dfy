/** The task record and the enumerated domains of the task list's query state.
    String-literal unions of the source become datatypes, so every match over
    them is checked for exhaustiveness. */
module TaskTypes {

  /** A task priority is exactly one of three values. */
  datatype Priority = Low | Medium | High

  /** The priority filter: `all`, or exactly one priority. By construction its
      domain is the priority domain plus `all`. */
  datatype PriorityFilter = AllPriorities | Only(priority: Priority)

  /** The status filter. There is no per-task deleted flag: `Deleted` is a
      filter value only, and `completed` is the task's one status field. */
  datatype StatusFilter = All | Todo | Completed | Deleted

  /** The sort key. */
  datatype SortBy = ByCreatedAt | ByDeadline | ByPriority | ByTitle

  /** The sort direction. */
  datatype SortOrder = Asc | Desc

  /** One task (the source field `label` is `labelText` here, `label` being a
      Dafny keyword). `deadline` and `createdAt` are kept as ISO-8601 strings, not as
      date values; they are parsed only when a comparison needs them. */
  datatype Task = Task(
    id: string,
    title: string,
    description: string,
    priority: Priority,
    labelText: string,
    deadline: string,
    completed: bool,
    createdAt: string)

  /** The query state that parameterises one derivation of the visible list. */
  datatype TasksState = TasksState(
    tasks: seq<Task>,
    searchQuery: string,
    priorityFilter: PriorityFilter,
    statusFilter: StatusFilter,
    sortBy: SortBy,
    sortOrder: SortOrder)
}
