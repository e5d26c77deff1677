/**
 * The search dialog's logic (src/components/search/SearchDialog.tsx): the
 * list of recent searches, most recent first, at most five, persisted under
 * its own storage key, and the case-insensitive task filter.
 */
module Search {
  import opened Wrappers
  import opened Seqs
  import opened Strings
  import opened Types

  const MaxRecentSearches := 5

  /** The earlier searches other than `query`, in their order. */
  function OtherSearches(recent: seq<string>, query: string): (r: seq<string>)
    ensures forall s :: s in r <==> s in recent && s != query
    ensures IsSubsequence(r, recent)
  {
    Filter((item: string) => item != query, recent)
  }

  /** The query first, then the other earlier searches, cut to five. */
  function PushFront(recent: seq<string>, query: string): (r: seq<string>)
    ensures 1 <= |r| <= MaxRecentSearches && r[0] == query
    ensures var kept := 1 + |OtherSearches(recent, query)|;
      |r| == if kept < MaxRecentSearches then kept else MaxRecentSearches
    ensures r[1..] == OtherSearches(recent, query)[..|r| - 1]
  {
    var updatedSearches := [query] + OtherSearches(recent, query);
    updatedSearches[..if |updatedSearches| < MaxRecentSearches then |updatedSearches| else MaxRecentSearches]
  }

  /**
   * `saveSearch`'s new list: the query first, then the earlier searches
   * other than the query in their order, cut to five. A blank query leaves
   * the list alone.
   */
  function RecordSearch(recent: seq<string>, query: string): (r: seq<string>)
    ensures IsBlank(query) ==> r == recent
    ensures !IsBlank(query) ==> r == PushFront(recent, query)
  {
    TrimEmptyIff(query);
    if Trim(query) == [] then recent else PushFront(recent, query)
  }

  /** After the query come earlier searches only, never the query again, in their earlier order. */
  lemma PushFrontOrder(recent: seq<string>, query: string)
    ensures query !in PushFront(recent, query)[1..]
    ensures IsSubsequence(PushFront(recent, query)[1..], recent)
  {
    var r := PushFront(recent, query);
    var others := OtherSearches(recent, query);
    PrefixIsSubsequence(others, |r| - 1);
    SubsequenceTransitive(r[1..], others, recent);
    if query in r[1..] {
      SubsequenceMembers(r[1..], others, query);
    }
  }

  /** With fewer than five other searches, none is dropped. */
  lemma PushFrontKeepsAll(recent: seq<string>, query: string)
    requires |OtherSearches(recent, query)| < MaxRecentSearches
    ensures forall s :: s in PushFront(recent, query) <==> s == query || s in recent
  {
    var r := PushFront(recent, query);
    assert r == [query] + OtherSearches(recent, query);
  }

  /** Without the query in it, nothing is filtered out. */
  lemma {:induction false} OtherSearchesWithout(s: seq<string>, query: string)
    requires query !in s
    ensures OtherSearches(s, query) == s
  {
    if s != [] {
      OtherSearchesWithout(s[1..], query);
      assert s == [s[0]] + s[1..];
    }
  }

  /** Pushing the query that is already in front changes nothing. */
  lemma PushFrontIdempotent(recent: seq<string>, query: string)
    ensures PushFront(PushFront(recent, query), query) == PushFront(recent, query)
  {
    var r := PushFront(recent, query);
    PushFrontOrder(recent, query);
    OtherSearchesWithout(r[1..], query);
    assert OtherSearches(r, query) == OtherSearches(r[1..], query);
    assert [query] + r[1..] == r;
  }

  /** Recording the same search again changes nothing (the effect re-runs when the tasks change). */
  lemma RecordSearchIdempotent(recent: seq<string>, query: string)
    ensures RecordSearch(RecordSearch(recent, query), query) == RecordSearch(recent, query)
  {
    if !IsBlank(query) {
      PushFrontIdempotent(recent, query);
    }
  }

  /** A list without repeats keeps none after a search is recorded. */
  lemma RecordSearchDistinct(recent: seq<string>, query: string)
    requires Distinct(recent)
    ensures Distinct(RecordSearch(recent, query))
  {
    var r := RecordSearch(recent, query);
    if !IsBlank(query) {
      PushFrontOrder(recent, query);
      SubsequenceDistinct(r[1..], recent);
      forall i, j | 0 <= i < j < |r| ensures r[i] != r[j] {
        assert r[j] == r[1..][j - 1];
        if i > 0 {
          assert r[i] == r[1..][i - 1];
        }
      }
    }
  }

  /** A task matches a lower-cased query through its title, its description or its category name. */
  predicate Matches(task: Task, query: string) {
    || Contains(ToLower(task.title), query)
    || (task.description.Some? && Contains(ToLower(task.description.value), query))
    || Contains(ToLower(CategoryName(task.category)), query)
  }

  /**
   * The filter effect's result: nothing for a blank query, otherwise the
   * tasks matching the lower-cased (untrimmed) query, in list order.
   */
  function FilterTasks(tasks: seq<Task>, searchQuery: string): (r: seq<Task>)
    ensures IsBlank(searchQuery) ==> r == []
    ensures !IsBlank(searchQuery) ==> forall t :: t in r <==> t in tasks && Matches(t, ToLower(searchQuery))
    ensures IsSubsequence(r, tasks)
  {
    TrimEmptyIff(searchQuery);
    if Trim(searchQuery) == [] then []
    else
      var query := ToLower(searchQuery);
      Filter((task: Task) => Matches(task, query), tasks)
  }

  /** Searching is case-insensitive: a query and its lower-case form find the same tasks. */
  lemma SearchIgnoresCase(tasks: seq<Task>, searchQuery: string)
    ensures FilterTasks(tasks, ToLower(searchQuery)) == FilterTasks(tasks, searchQuery)
  {
    ToLowerKeepsBlank(searchQuery);
    ToLowerIdempotent(searchQuery);
    TrimEmptyIff(searchQuery);
    TrimEmptyIff(ToLower(searchQuery));
  }

  /** Category names are lower-case words. */
  lemma CategoryNameLowerCase(c: Category)
    ensures CategoryName(c) != [] && !IsBlank(CategoryName(c))
    ensures ToLower(CategoryName(c)) == CategoryName(c)
  {
    var n := CategoryName(c);
    assert forall i :: 0 <= i < |n| ==> 'a' <= n[i] <= 'z';
    assert !IsWhitespace(n[0]);
  }

  /** Typing a category's name finds every task of that category. */
  lemma CategoryNameFindsTasks(tasks: seq<Task>, t: Task)
    requires t in tasks
    ensures t in FilterTasks(tasks, CategoryName(t.category))
  {
    CategoryNameLowerCase(t.category);
    ContainsSuffix([], CategoryName(t.category));
    assert [] + CategoryName(t.category) == CategoryName(t.category);
  }

  /** The dialog's state. */
  class SearchDialog {
    var searchQuery: string
    var filteredTasks: seq<Task>
    var recentSearches: seq<string>
    /** The value saved under the key "recent-searches", if any. */
    var persisted: Option<seq<string>>

    /** Opening: an empty query and results, and the saved recent searches if there are any. */
    constructor (saved: Option<seq<string>>)
      ensures searchQuery == [] && filteredTasks == []
      ensures recentSearches == saved.GetOr([]) && persisted == saved
    {
      searchQuery := [];
      filteredTasks := [];
      persisted := saved;
      recentSearches := if saved.Some? then saved.value else [];
    }

    method SaveSearch(query: string)
      modifies this
      ensures recentSearches == RecordSearch(old(recentSearches), query)
      ensures persisted == if IsBlank(query) then old(persisted) else Some(recentSearches)
      ensures searchQuery == old(searchQuery) && filteredTasks == old(filteredTasks)
    {
      TrimEmptyIff(query);
      if Trim(query) == [] {
        return;
      }
      var updatedSearches := RecordSearch(recentSearches, query);
      recentSearches := updatedSearches;
      persisted := Some(updatedSearches);
    }

    /** The effect that runs whenever the query or the task list changes. */
    method FilterEffect(tasks: seq<Task>)
      modifies this
      ensures filteredTasks == FilterTasks(tasks, searchQuery)
      ensures recentSearches == RecordSearch(old(recentSearches), searchQuery)
      ensures persisted == if IsBlank(searchQuery) then old(persisted) else Some(recentSearches)
      ensures searchQuery == old(searchQuery)
    {
      TrimEmptyIff(searchQuery);
      if Trim(searchQuery) == [] {
        filteredTasks := [];
        return;
      }
      var query := ToLower(searchQuery);
      var filtered := Filter((task: Task) => Matches(task, query), tasks);
      filteredTasks := filtered;
      SaveSearch(searchQuery);
    }

    /** Typing into the box: the query changes and the effect runs. */
    method SetSearchQuery(query: string, tasks: seq<Task>)
      modifies this
      ensures searchQuery == query
      ensures filteredTasks == FilterTasks(tasks, query)
      ensures recentSearches == RecordSearch(old(recentSearches), query)
      ensures persisted == if IsBlank(query) then old(persisted) else Some(recentSearches)
    {
      searchQuery := query;
      FilterEffect(tasks);
    }
  }
}
