/** The task query pipeline `filterTasks`: a status stage, a priority stage and
    a text-search stage, each an `Array.prototype.filter`, followed by a sort
    of a freshly allocated copy. */
module TaskUtils {
  import opened TaskTypes
  import opened JsRuntime

  // ---------------------------------------------------------------------
  // Filter stages
  // ---------------------------------------------------------------------

  /** `s.filter(p)`, which never lengthens its input. */
  function Keep<T>(s: seq<T>, p: T -> bool): (r: seq<T>)
    ensures |r| <= |s|
  {
    if s == [] then []
    else if p(s[0]) then [s[0]] + Keep(s[1..], p) else Keep(s[1..], p)
  }

  /** `filter` keeps every element that satisfies `p` as often as it occurs,
      and no other element. */
  lemma {:induction false} KeepCounts<T>(s: seq<T>, p: T -> bool, x: T)
    ensures multiset(Keep(s, p))[x] == if p(x) then multiset(s)[x] else 0
  {
    if s != [] {
      assert s == [s[0]] + s[1..];
      KeepCounts(s[1..], p, x);
    }
  }

  lemma KeepSingle<T>(x: T, p: T -> bool)
    ensures Keep([x], p) == if p(x) then [x] else []
  {
    assert [x][1..] == [];
  }

  /** Stage 1: the status filter. `Deleted` empties the working set. */
  function StatusStage(tasks: seq<Task>, statusFilter: StatusFilter): (r: seq<Task>)
    ensures |r| <= |tasks|
    ensures statusFilter == All ==> r == tasks
    ensures statusFilter == Deleted ==> r == []
  {
    match statusFilter
    case All => tasks
    case Todo => Keep(tasks, (t: Task) => !t.completed)
    case Completed => Keep(tasks, (t: Task) => t.completed)
    case Deleted => []
  }

  /** Stage 2: the priority filter. */
  function PriorityStage(tasks: seq<Task>, priorityFilter: PriorityFilter): (r: seq<Task>)
    ensures |r| <= |tasks|
    ensures priorityFilter == AllPriorities ==> r == tasks
  {
    match priorityFilter
    case AllPriorities => tasks
    case Only(p) => Keep(tasks, (t: Task) => t.priority == p)
  }

  /** The per-task search test on an already lower-cased, trimmed query. */
  predicate MatchesQuery(t: Task, query: string): (b: bool)
    ensures query == [] ==> b
    ensures b ==> |query| <= |t.title| || |query| <= |t.description| || |query| <= |t.labelText|
  {
    Includes(Lower(t.title), query) || Includes(Lower(t.description), query)
      || Includes(Lower(t.labelText), query)
  }

  /** Stage 3: the text search, skipped when the trimmed query is empty; the
      query is lower-cased and then trimmed, as the source does. */
  function SearchStage(tasks: seq<Task>, searchQuery: string): (r: seq<Task>)
    ensures |r| <= |tasks|
    ensures Trim(searchQuery) == [] ==> r == tasks
  {
    if Trim(searchQuery) == [] then tasks
    else
      var query := Trim(Lower(searchQuery));
      Keep(tasks, (t: Task) => MatchesQuery(t, query))
  }

  // ---------------------------------------------------------------------
  // The reference definition of which tasks are shown
  // ---------------------------------------------------------------------

  predicate StatusAdmits(statusFilter: StatusFilter, t: Task)
  {
    match statusFilter
    case All => true
    case Todo => !t.completed
    case Completed => t.completed
    case Deleted => false
  }

  predicate PriorityAdmits(priorityFilter: PriorityFilter, t: Task)
  {
    priorityFilter.Only? ==> t.priority == priorityFilter.priority
  }

  /** A blank query admits everything; otherwise the lower-cased trimmed query
      must occur in the lower-cased title, description or label. */
  predicate SearchAdmits(searchQuery: string, t: Task)
  {
    var query := Lower(Trim(searchQuery));
    query == [] || MatchesQuery(t, query)
  }

  /** A task passes every active filter. */
  predicate Passes(t: Task, searchQuery: string, priorityFilter: PriorityFilter, statusFilter: StatusFilter)
  {
    StatusAdmits(statusFilter, t) && PriorityAdmits(priorityFilter, t) && SearchAdmits(searchQuery, t)
  }

  /** The subsequence of `tasks` that passes every active filter, in input
      order; empty for `Deleted`. */
  function Matching(tasks: seq<Task>, searchQuery: string, priorityFilter: PriorityFilter, statusFilter: StatusFilter): (r: seq<Task>)
    ensures |r| <= |tasks|
    ensures statusFilter == Deleted ==> r == []
  {
    if tasks == [] then []
    else
      var rest := Matching(tasks[1..], searchQuery, priorityFilter, statusFilter);
      if Passes(tasks[0], searchQuery, priorityFilter, statusFilter) then [tasks[0]] + rest else rest
  }

  /** A task occurs in the reference as often as in the input when it passes
      every filter, and not at all otherwise. */
  lemma {:induction false} MatchingCounts(tasks: seq<Task>, searchQuery: string, priorityFilter: PriorityFilter, statusFilter: StatusFilter, t: Task)
    ensures multiset(Matching(tasks, searchQuery, priorityFilter, statusFilter))[t]
         == if Passes(t, searchQuery, priorityFilter, statusFilter) then multiset(tasks)[t] else 0
    ensures t in Matching(tasks, searchQuery, priorityFilter, statusFilter) <==> t in tasks && Passes(t, searchQuery, priorityFilter, statusFilter)
  {
    if tasks != [] {
      assert tasks == [tasks[0]] + tasks[1..];
      MatchingCounts(tasks[1..], searchQuery, priorityFilter, statusFilter, t);
    }
  }

  // ---------------------------------------------------------------------
  // The staged pipeline equals the reference
  // ---------------------------------------------------------------------

  lemma {:induction false} KeepAppend<T>(a: seq<T>, b: seq<T>, p: T -> bool)
    ensures Keep(a + b, p) == Keep(a, p) + Keep(b, p)
  {
    if a == [] {
      assert a + b == b;
    } else {
      var c := a + b;
      assert c != [] && c[0] == a[0] && c[1..] == a[1..] + b;
      KeepAppend(a[1..], b, p);
      var head := if p(a[0]) then [a[0]] else [];
      assert Keep(c, p) == head + Keep(a[1..] + b, p);
      assert Keep(a, p) == head + Keep(a[1..], p);
    }
  }

  /** The three stages, in the source's order, without the sort. */
  function FilterStages(tasks: seq<Task>, searchQuery: string, priorityFilter: PriorityFilter, statusFilter: StatusFilter): (r: seq<Task>)
    ensures |r| <= |tasks|
    ensures statusFilter == Deleted ==> r == []
    ensures statusFilter == All && priorityFilter == AllPriorities && Trim(searchQuery) == [] ==> r == tasks
  {
    SearchStage(PriorityStage(StatusStage(tasks, statusFilter), priorityFilter), searchQuery)
  }

  lemma StagesAppend(a: seq<Task>, b: seq<Task>, searchQuery: string, priorityFilter: PriorityFilter, statusFilter: StatusFilter)
    ensures FilterStages(a + b, searchQuery, priorityFilter, statusFilter)
         == FilterStages(a, searchQuery, priorityFilter, statusFilter) + FilterStages(b, searchQuery, priorityFilter, statusFilter)
  {
    var sa, sb := StatusStage(a, statusFilter), StatusStage(b, statusFilter);
    match statusFilter {
      case All =>
      case Todo => KeepAppend(a, b, (t: Task) => !t.completed);
      case Completed => KeepAppend(a, b, (t: Task) => t.completed);
      case Deleted =>
    }
    assert StatusStage(a + b, statusFilter) == sa + sb;
    var pa, pb := PriorityStage(sa, priorityFilter), PriorityStage(sb, priorityFilter);
    match priorityFilter {
      case AllPriorities =>
      case Only(p) => KeepAppend(sa, sb, (t: Task) => t.priority == p);
    }
    assert PriorityStage(sa + sb, priorityFilter) == pa + pb;
    if Trim(searchQuery) != [] {
      var query := Trim(Lower(searchQuery));
      KeepAppend(pa, pb, (t: Task) => MatchesQuery(t, query));
    }
  }

  lemma StatusStageSingle(t: Task, statusFilter: StatusFilter)
    ensures StatusStage([t], statusFilter) == if StatusAdmits(statusFilter, t) then [t] else []
  {
    match statusFilter {
      case All =>
      case Todo => KeepSingle(t, (u: Task) => !u.completed);
      case Completed => KeepSingle(t, (u: Task) => u.completed);
      case Deleted =>
    }
  }

  lemma PriorityStageSingle(t: Task, priorityFilter: PriorityFilter)
    ensures PriorityStage([t], priorityFilter) == if PriorityAdmits(priorityFilter, t) then [t] else []
  {
    match priorityFilter {
      case AllPriorities =>
      case Only(p) => KeepSingle(t, (u: Task) => u.priority == p);
    }
  }

  lemma SearchStageSingle(t: Task, searchQuery: string)
    ensures SearchStage([t], searchQuery) == if SearchAdmits(searchQuery, t) then [t] else []
  {
    LowerThenTrim(searchQuery);
    if Trim(searchQuery) != [] {
      var query := Trim(Lower(searchQuery));
      KeepSingle(t, (u: Task) => MatchesQuery(u, query));
    }
  }

  lemma StagesSingle(t: Task, searchQuery: string, priorityFilter: PriorityFilter, statusFilter: StatusFilter)
    ensures FilterStages([t], searchQuery, priorityFilter, statusFilter)
         == if Passes(t, searchQuery, priorityFilter, statusFilter) then [t] else []
  {
    StatusStageSingle(t, statusFilter);
    PriorityStageSingle(t, priorityFilter);
    SearchStageSingle(t, searchQuery);
    if StatusAdmits(statusFilter, t) {
      if PriorityAdmits(priorityFilter, t) {
        assert FilterStages([t], searchQuery, priorityFilter, statusFilter) == SearchStage([t], searchQuery);
      } else {
        assert PriorityStage([t], priorityFilter) == [];
      }
    } else {
      assert StatusStage([t], statusFilter) == [];
    }
  }

  /** One step of the pipeline: the head survives the three stages exactly
      when it passes every filter. */
  lemma StagesCons(tasks: seq<Task>, searchQuery: string, priorityFilter: PriorityFilter, statusFilter: StatusFilter)
    requires tasks != []
    ensures FilterStages(tasks, searchQuery, priorityFilter, statusFilter)
         == (if Passes(tasks[0], searchQuery, priorityFilter, statusFilter) then [tasks[0]] else [])
            + FilterStages(tasks[1..], searchQuery, priorityFilter, statusFilter)
  {
    assert tasks == [tasks[0]] + tasks[1..];
    StagesAppend([tasks[0]], tasks[1..], searchQuery, priorityFilter, statusFilter);
    StagesSingle(tasks[0], searchQuery, priorityFilter, statusFilter);
  }

  /** One step of the reference: the head is kept exactly when it passes. */
  lemma MatchingCons(tasks: seq<Task>, searchQuery: string, priorityFilter: PriorityFilter, statusFilter: StatusFilter)
    requires tasks != []
    ensures Matching(tasks, searchQuery, priorityFilter, statusFilter)
         == (if Passes(tasks[0], searchQuery, priorityFilter, statusFilter) then [tasks[0]] else [])
            + Matching(tasks[1..], searchQuery, priorityFilter, statusFilter)
  {
  }

  /** Running the three stages one after another keeps exactly the tasks that
      pass all active filters, in their input order. */
  lemma {:induction false} StagesAreMatching(tasks: seq<Task>, searchQuery: string, priorityFilter: PriorityFilter, statusFilter: StatusFilter)
    ensures FilterStages(tasks, searchQuery, priorityFilter, statusFilter) == Matching(tasks, searchQuery, priorityFilter, statusFilter)
  {
    if tasks != [] {
      StagesCons(tasks, searchQuery, priorityFilter, statusFilter);
      StagesAreMatching(tasks[1..], searchQuery, priorityFilter, statusFilter);
      MatchingCons(tasks, searchQuery, priorityFilter, statusFilter);
    }
  }

  /** Filtering the filtered list again changes nothing. */
  lemma {:induction false} MatchingIdempotent(tasks: seq<Task>, searchQuery: string, priorityFilter: PriorityFilter, statusFilter: StatusFilter)
    ensures Matching(Matching(tasks, searchQuery, priorityFilter, statusFilter), searchQuery, priorityFilter, statusFilter)
         == Matching(tasks, searchQuery, priorityFilter, statusFilter)
  {
    if tasks != [] {
      MatchingIdempotent(tasks[1..], searchQuery, priorityFilter, statusFilter);
      var rest := Matching(tasks[1..], searchQuery, priorityFilter, statusFilter);
      if Passes(tasks[0], searchQuery, priorityFilter, statusFilter) {
        assert ([tasks[0]] + rest)[1..] == rest;
      }
    }
  }

  /** What the three stages promise about each task of their result, and
      that no task passing every filter is lost. */
  lemma FilterStagesMeaning(tasks: seq<Task>, searchQuery: string, priorityFilter: PriorityFilter, statusFilter: StatusFilter, t: Task)
    ensures statusFilter == Deleted ==> FilterStages(tasks, searchQuery, priorityFilter, statusFilter) == []
    ensures t in FilterStages(tasks, searchQuery, priorityFilter, statusFilter) <==>
      && t in tasks
      && (statusFilter == Todo ==> !t.completed)
      && (statusFilter == Completed ==> t.completed)
      && statusFilter != Deleted
      && (priorityFilter.Only? ==> t.priority == priorityFilter.priority)
      && (Trim(searchQuery) != [] ==> MatchesQuery(t, Lower(Trim(searchQuery))))
  {
    StagesAreMatching(tasks, searchQuery, priorityFilter, statusFilter);
    MatchingCounts(tasks, searchQuery, priorityFilter, statusFilter, t);
    LowerThenTrim(searchQuery);
  }

  // ---------------------------------------------------------------------
  // The comparator
  // ---------------------------------------------------------------------

  /** `priorityOrder`: low=1, medium=2, high=3. */
  function Rank(p: Priority): (r: int)
    ensures 1 <= r <= 3
  {
    match p
    case Low => 1
    case Medium => 2
    case High => 3
  }

  /** The rank is strictly increasing from low to high, so it is one-to-one. */
  lemma RankIncreasing()
    ensures Rank(Low) < Rank(Medium) < Rank(High)
    ensures forall p, q :: Rank(p) == Rank(q) ==> p == q
  {
  }

  /** `comparison` before the direction is applied. */
  function KeyCompare(a: Task, b: Task, sortBy: SortBy, host: Host): (r: int)
    ensures sortBy != ByTitle ==> (r < 0 <==> NumericKey(a, sortBy, host) < NumericKey(b, sortBy, host))
    ensures sortBy != ByTitle ==> (r == 0 <==> NumericKey(a, sortBy, host) == NumericKey(b, sortBy, host))
    ensures sortBy == ByTitle ==> r == host.localeCompare(a.title, b.title)
  {
    match sortBy
    case ByCreatedAt => host.parseDate(a.createdAt) - host.parseDate(b.createdAt)
    case ByDeadline => host.parseDate(a.deadline) - host.parseDate(b.deadline)
    case ByPriority => Rank(a.priority) - Rank(b.priority)
    case ByTitle => host.localeCompare(a.title, b.title)
  }

  /** The comparator handed to `sort`: `desc` negates the comparison. */
  function Comparator(a: Task, b: Task, sortBy: SortBy, sortOrder: SortOrder, host: Host): (r: int)
    ensures r == 0 <==> KeyCompare(a, b, sortBy, host) == 0
    ensures sortOrder == Asc ==> (r < 0 <==> KeyCompare(a, b, sortBy, host) < 0)
    ensures sortOrder == Desc ==> (r < 0 <==> KeyCompare(a, b, sortBy, host) > 0)
  {
    var c := KeyCompare(a, b, sortBy, host);
    if sortOrder == Asc then c else -c
  }

  /** What the source relies on from the host for the comparator to be consistent:
      only the title order depends on it. */
  ghost predicate ComparatorConsistent(sortBy: SortBy, host: Host)
  {
    sortBy == ByTitle ==> ConsistentCollation(host.localeCompare)
  }

  /** Swapping the arguments flips the sign of the comparison, in both directions. */
  lemma ComparatorFlip(a: Task, b: Task, sortBy: SortBy, sortOrder: SortOrder, host: Host)
    requires ComparatorConsistent(sortBy, host)
    ensures Comparator(a, b, sortBy, sortOrder, host) > 0 <==> Comparator(b, a, sortBy, sortOrder, host) < 0
  {
  }

  /** Every adjacent pair is in order under the comparator. */
  predicate SortedBy(s: seq<Task>, sortBy: SortBy, sortOrder: SortOrder, host: Host)
  {
    forall k :: 0 < k < |s| ==> Comparator(s[k - 1], s[k], sortBy, sortOrder, host) <= 0
  }

  /** The numeric sort key of the three numeric orders. */
  function NumericKey(t: Task, sortBy: SortBy, host: Host): int
    requires sortBy != ByTitle
  {
    match sortBy
    case ByCreatedAt => host.parseDate(t.createdAt)
    case ByDeadline => host.parseDate(t.deadline)
    case ByPriority => Rank(t.priority)
  }

  /** For the numeric keys, adjacent order extends to the whole sequence:
      keys never decrease under `asc` and never increase under `desc`. */
  lemma {:induction false} SortedNumericKeys(s: seq<Task>, sortBy: SortBy, sortOrder: SortOrder, host: Host, i: int, j: int)
    requires sortBy != ByTitle && SortedBy(s, sortBy, sortOrder, host)
    requires 0 <= i <= j < |s|
    ensures sortOrder == Asc ==> NumericKey(s[i], sortBy, host) <= NumericKey(s[j], sortBy, host)
    ensures sortOrder == Desc ==> NumericKey(s[i], sortBy, host) >= NumericKey(s[j], sortBy, host)
  {
    if i < j {
      SortedNumericKeys(s, sortBy, sortOrder, host, i, j - 1);
      assert Comparator(s[j - 1], s[j], sortBy, sortOrder, host) <= 0;
    }
  }

  /** Under `asc` adjacent titles never compare above zero; under `desc`
      never below zero. */
  lemma SortedTitles(s: seq<Task>, sortOrder: SortOrder, host: Host, k: int)
    requires SortedBy(s, ByTitle, sortOrder, host)
    requires 0 < k < |s|
    ensures sortOrder == Asc ==> host.localeCompare(s[k - 1].title, s[k].title) <= 0
    ensures sortOrder == Desc ==> host.localeCompare(s[k - 1].title, s[k].title) >= 0
  {
  }

  // ---------------------------------------------------------------------
  // The sort and the whole pipeline
  // ---------------------------------------------------------------------

  /** The adjacent pairs of `s` between `lo` and `hi` are in order. */
  predicate SortedSlice(s: seq<Task>, lo: int, hi: int, sortBy: SortBy, sortOrder: SortOrder, host: Host)
    requires 0 <= lo <= hi <= |s|
  {
    forall k :: lo < k < hi ==> Comparator(s[k - 1], s[k], sortBy, sortOrder, host) <= 0
  }

  /** One swap of the insertion step keeps both ordered runs ordered. */
  lemma SwapStep(s: seq<Task>, i: int, j: int, sortBy: SortBy, sortOrder: SortOrder, host: Host)
    requires ComparatorConsistent(sortBy, host)
    requires 0 < j <= i < |s|
    requires SortedSlice(s, 0, j, sortBy, sortOrder, host) && SortedSlice(s, j, i + 1, sortBy, sortOrder, host)
    requires j < i ==> Comparator(s[j - 1], s[j + 1], sortBy, sortOrder, host) <= 0
    requires Comparator(s[j - 1], s[j], sortBy, sortOrder, host) > 0
    ensures var t := s[j - 1 := s[j]][j := s[j - 1]];
      && SortedSlice(t, 0, j - 1, sortBy, sortOrder, host)
      && SortedSlice(t, j - 1, i + 1, sortBy, sortOrder, host)
      && (0 < j - 1 ==> Comparator(t[j - 2], t[j], sortBy, sortOrder, host) <= 0)
      && multiset(t) == multiset(s)
  {
    ComparatorFlip(s[j - 1], s[j], sortBy, sortOrder, host);
    var t := s[j - 1 := s[j]][j := s[j - 1]];
    forall k | j - 1 < k < i + 1
      ensures Comparator(t[k - 1], t[k], sortBy, sortOrder, host) <= 0
    {
      if k > j + 1 {
        assert t[k - 1] == s[k - 1] && t[k] == s[k];
      }
    }
    if 0 < j - 1 {
      assert Comparator(s[j - 2], s[j - 1], sortBy, sortOrder, host) <= 0;
    }
  }

  /** Two ordered runs that meet in order form one ordered run. */
  lemma JoinRuns(s: seq<Task>, i: int, j: int, sortBy: SortBy, sortOrder: SortOrder, host: Host)
    requires 0 <= j <= i < |s|
    requires SortedSlice(s, 0, j, sortBy, sortOrder, host) && SortedSlice(s, j, i + 1, sortBy, sortOrder, host)
    requires 0 < j ==> Comparator(s[j - 1], s[j], sortBy, sortOrder, host) <= 0
    ensures SortedSlice(s, 0, i + 1, sortBy, sortOrder, host)
  {
  }

  /** Moves `a[i]` left past every element that must follow it, so that the
      first `i + 1` elements are in order; the contents are only permuted. */
  method InsertStep(a: array<Task>, i: int, sortBy: SortBy, sortOrder: SortOrder, host: Host)
    requires ComparatorConsistent(sortBy, host)
    requires 0 <= i < a.Length && SortedSlice(a[..], 0, i, sortBy, sortOrder, host)
    modifies a
    ensures SortedSlice(a[..], 0, i + 1, sortBy, sortOrder, host)
    ensures multiset(a[..]) == multiset(old(a[..]))
  {
    var j := i;
    while 0 < j && Comparator(a[j - 1], a[j], sortBy, sortOrder, host) > 0
      invariant 0 <= j <= i
      invariant SortedSlice(a[..], 0, j, sortBy, sortOrder, host)
      invariant SortedSlice(a[..], j, i + 1, sortBy, sortOrder, host)
      invariant 0 < j < i ==> Comparator(a[j - 1], a[j + 1], sortBy, sortOrder, host) <= 0
      invariant multiset(a[..]) == multiset(old(a[..]))
    {
      ghost var s := a[..];
      SwapStep(s, i, j, sortBy, sortOrder, host);
      a[j - 1], a[j] := a[j], a[j - 1];
      assert a[..] == s[j - 1 := s[j]][j := s[j - 1]];
      j := j - 1;
    }
    JoinRuns(a[..], i, j, sortBy, sortOrder, host);
  }

  /** Sorts `a` in place (insertion sort): the result is a permutation of the
      old contents and every adjacent pair is in order. */
  method SortTasks(a: array<Task>, sortBy: SortBy, sortOrder: SortOrder, host: Host)
    requires ComparatorConsistent(sortBy, host)
    modifies a
    ensures multiset(a[..]) == multiset(old(a[..]))
    ensures SortedBy(a[..], sortBy, sortOrder, host)
  {
    var i := 0;
    while i < a.Length
      invariant 0 <= i <= a.Length
      invariant SortedSlice(a[..], 0, i, sortBy, sortOrder, host)
      invariant multiset(a[..]) == multiset(old(a[..]))
    {
      InsertStep(a, i, sortBy, sortOrder, host);
      i := i + 1;
    }
  }

  /** Any rearrangement of the reference result holds each task exactly as
      often as the reference does. */
  lemma PermutationOfMatching(s: seq<Task>, tasks: seq<Task>, searchQuery: string, priorityFilter: PriorityFilter, statusFilter: StatusFilter)
    requires multiset(s) == multiset(Matching(tasks, searchQuery, priorityFilter, statusFilter))
    ensures forall t :: multiset(s)[t] == if Passes(t, searchQuery, priorityFilter, statusFilter) then multiset(tasks)[t] else 0
    ensures forall t :: t in s <==> t in tasks && Passes(t, searchQuery, priorityFilter, statusFilter)
  {
    forall t
      ensures multiset(s)[t] == if Passes(t, searchQuery, priorityFilter, statusFilter) then multiset(tasks)[t] else 0
      ensures t in s <==> t in tasks && Passes(t, searchQuery, priorityFilter, statusFilter)
    {
      MatchingCounts(tasks, searchQuery, priorityFilter, statusFilter, t);
      assert t in s <==> multiset(s)[t] > 0;
    }
  }

  /** `[...filteredTasks]`: a fresh array holding the sequence. */
  method CopyToArray(s: seq<Task>) returns (a: array<Task>)
    ensures fresh(a) && a[..] == s
  {
    a := new Task[|s|](i requires 0 <= i < |s| => s[i]);
  }

  /** `filterTasks`: the input array is only read; the result is a new array
      holding exactly the tasks that pass every active filter, ordered by the
      chosen key and direction. */
  method FilterTasks(tasks: array<Task>, searchQuery: string, priorityFilter: PriorityFilter,
                     statusFilter: StatusFilter, sortBy: SortBy, sortOrder: SortOrder, host: Host)
    returns (sortedTasks: array<Task>)
    requires ComparatorConsistent(sortBy, host)
    ensures fresh(sortedTasks)
    ensures multiset(sortedTasks[..]) == multiset(Matching(tasks[..], searchQuery, priorityFilter, statusFilter))
    ensures forall t :: multiset(sortedTasks[..])[t] == if Passes(t, searchQuery, priorityFilter, statusFilter) then multiset(tasks[..])[t] else 0
    ensures forall t :: t in sortedTasks[..] <==> t in tasks[..] && Passes(t, searchQuery, priorityFilter, statusFilter)
    ensures sortedTasks.Length <= tasks.Length
    ensures statusFilter == Deleted ==> sortedTasks.Length == 0
    ensures SortedBy(sortedTasks[..], sortBy, sortOrder, host)
  {
    var filteredTasks := FilterStages(tasks[..], searchQuery, priorityFilter, statusFilter);
    StagesAreMatching(tasks[..], searchQuery, priorityFilter, statusFilter);
    sortedTasks := CopyToArray(filteredTasks);
    SortTasks(sortedTasks, sortBy, sortOrder, host);
    PermutationOfMatching(sortedTasks[..], tasks[..], searchQuery, priorityFilter, statusFilter);
  }
}
