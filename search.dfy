/**
 * The question filter of a category page: an immutable base list, a filter
 * specification with four axes, and the derived filtered view.
 */
module QuestionSearch {
  import opened Optional
  import opened Text
  import opened Sequences
  import ProgressStore

  datatype Difficulty = Easy | Medium | Hard

  /** The label a question's `difficulty` field carries, and the value a difficulty filter holds. */
  function DifficultyName(d: Difficulty): string
  {
    match d
    case Easy => "Easy"
    case Medium => "Medium"
    case Hard => "Hard"
  }

  /** The rank `sortQuestions('difficulty')` orders by. */
  function DifficultyRank(d: Difficulty): (rank: nat)
    ensures 1 <= rank <= 3
    ensures rank == 1 <==> d == Easy
    ensures rank == 2 <==> d == Medium
    ensures rank == 3 <==> d == Hard
  {
    match d
    case Easy => 1
    case Medium => 2
    case Hard => 3
  }

  /** The fields of a question that filtering and sorting look at. */
  datatype Question = Question(
    id: string,
    title: string,
    description: string,
    difficulty: Difficulty,
    category: string,
    tags: seq<string>,
    companies: seq<string>)

  /** `currentFilters`; an empty string or `false` puts no constraint on its axis. */
  datatype FilterSpec = FilterSpec(search: string, difficulty: string, category: string, bookmarked: bool)

  const NoFilters := FilterSpec("", "", "", false)

  /** One `updateFilter(filterType, value)`; `OtherAxis` is a key the filter does not read. */
  datatype FilterUpdate =
    | SearchAxis(search: string)
    | DifficultyAxis(difficulty: string)
    | CategoryAxis(category: string)
    | BookmarkedAxis(bookmarked: bool)
    | OtherAxis(name: string)

  /** The axis an update writes: 0 search, 1 difficulty, 2 category, 3 bookmarked, 4 none of them. */
  function AxisOf(u: FilterUpdate): nat
  {
    match u
    case SearchAxis(_) => 0
    case DifficultyAxis(_) => 1
    case CategoryAxis(_) => 2
    case BookmarkedAxis(_) => 3
    case OtherAxis(_) => 4
  }

  /** `currentFilters[filterType] = value`: the named axis changes and no other. */
  function Updated(spec: FilterSpec, u: FilterUpdate): (r: FilterSpec)
    ensures AxisOf(u) != 0 ==> r.search == spec.search
    ensures AxisOf(u) != 1 ==> r.difficulty == spec.difficulty
    ensures AxisOf(u) != 2 ==> r.category == spec.category
    ensures AxisOf(u) != 3 ==> r.bookmarked == spec.bookmarked
    ensures u.SearchAxis? ==> r.search == u.search
    ensures u.DifficultyAxis? ==> r.difficulty == u.difficulty
    ensures u.CategoryAxis? ==> r.category == u.category
    ensures u.BookmarkedAxis? ==> r.bookmarked == u.bookmarked
  {
    match u
    case SearchAxis(v) => spec.(search := v)
    case DifficultyAxis(v) => spec.(difficulty := v)
    case CategoryAxis(v) => spec.(category := v)
    case BookmarkedAxis(v) => spec.(bookmarked := v)
    case OtherAxis(_) => spec
  }

  /** Updates of different axes commute, so only the last value written per axis matters. */
  lemma UpdatesCommute(spec: FilterSpec, u: FilterUpdate, v: FilterUpdate)
    requires AxisOf(u) != AxisOf(v)
    ensures Updated(Updated(spec, u), v) == Updated(Updated(spec, v), u)
  {
  }

  /** Writing all four axes yields the same specification whatever the one before. */
  lemma AllAxesDetermineSpec(before: FilterSpec, search: string, difficulty: string, category: string, bookmarked: bool)
    ensures Updated(Updated(Updated(Updated(before, SearchAxis(search)), DifficultyAxis(difficulty)),
                            CategoryAxis(category)), BookmarkedAxis(bookmarked))
            == FilterSpec(search, difficulty, category, bookmarked)
  {
  }

  /** Some string of `items` contains `term` once lower-cased. */
  predicate SomeIncludes(items: seq<string>, term: string)
  {
    exists i | 0 <= i < |items| :: Includes(Lower(items[i]), term)
  }

  /**
   * The case-insensitive text test shared by the page filter and the global
   * search: title, description, a tag or a company contains the term.
   */
  predicate TextMatches(q: Question, term: string)
  {
    var t := Lower(term);
    Includes(Lower(q.title), t) || Includes(Lower(q.description), t)
    || SomeIncludes(q.tags, t) || SomeIncludes(q.companies, t)
  }

  /**
   * The page filter's search axis: also the display category label may contain
   * the term. An empty term accepts every question.
   */
  predicate SearchMatches(q: Question, term: string): (r: bool)
    ensures term == "" ==> r
    ensures TextMatches(q, term) ==> r
    ensures Lower(term) <= Lower(q.title) ==> r
    ensures Includes(Lower(q.category), Lower(term)) ==> r
  {
    term == "" || TextMatches(q, term) || Includes(Lower(q.category), Lower(term))
  }

  /**
   * The predicate `applyFilters` keeps a question by. `page` is the page's
   * dataset category (`CATEGORY`), `None` when the page does not define one.
   */
  predicate Matches(q: Question, spec: FilterSpec, page: Option<string>, progress: ProgressStore.Progress): (r: bool)
    ensures spec == NoFilters ==> r
    ensures r ==> SearchMatches(q, spec.search)
    ensures r && spec.difficulty != "" ==> DifficultyName(q.difficulty) == spec.difficulty
    ensures r && spec.category != "" ==> q.category == spec.category
    ensures r && spec.bookmarked && page.Some? ==> ProgressStore.Lookup(progress, page.value, q.id).bookmarked
  {
    && SearchMatches(q, spec.search)
    && (spec.difficulty == "" || DifficultyName(q.difficulty) == spec.difficulty)
    && (spec.category == "" || q.category == spec.category)
    && (!spec.bookmarked || page.None? || ProgressStore.Lookup(progress, page.value, q.id).bookmarked)
  }

  function Matcher(spec: FilterSpec, page: Option<string>, progress: ProgressStore.Progress): Question -> bool
  {
    q => Matches(q, spec, page, progress)
  }

  /** The filtered view `applyFilters` computes from the base list. */
  function FilterView(all: seq<Question>, spec: FilterSpec, page: Option<string>, progress: ProgressStore.Progress): seq<Question>
  {
    Filter(all, Matcher(spec, page, progress))
  }

  /** `t` occurs in the lower-cased form of `s`. */
  ghost predicate Mentions(s: string, t: string)
  {
    exists i :: OccursAt(Lower(s), t, i)
  }

  /**
   * With a non-empty term, a question passes the search axis exactly when the
   * lower-cased term is a substring of the lower-cased title, description, some
   * tag, some company or the category label.
   */
  lemma SearchMatchesIff(q: Question, term: string)
    requires term != ""
    ensures SearchMatches(q, term) <==>
              var t := Lower(term);
              || Mentions(q.title, t) || Mentions(q.description, t)
              || (exists i :: 0 <= i < |q.tags| && Mentions(q.tags[i], t))
              || (exists i :: 0 <= i < |q.companies| && Mentions(q.companies[i], t))
              || Mentions(q.category, t)
  {
    var t := Lower(term);
    IncludesIff(Lower(q.title), t);
    IncludesIff(Lower(q.description), t);
    IncludesIff(Lower(q.category), t);
    forall i | 0 <= i < |q.tags| {
      IncludesIff(Lower(q.tags[i]), t);
    }
    forall i | 0 <= i < |q.companies| {
      IncludesIff(Lower(q.companies[i]), t);
    }
  }

  /** The search is case-insensitive: lower-casing the term first changes nothing. */
  lemma SearchIgnoresCase(q: Question, term: string)
    ensures SearchMatches(q, Lower(term)) == SearchMatches(q, term)
  {
    LowerIdempotent(term);
  }

  /**
   * The filtered view is an order-preserving subsequence of the base list, and a
   * question of the base list is in it exactly when it passes every active axis.
   */
  lemma FilterViewProperties(all: seq<Question>, spec: FilterSpec, page: Option<string>, progress: ProgressStore.Progress)
    ensures IsSubsequence(FilterView(all, spec, page, progress), all)
    ensures forall q :: q in FilterView(all, spec, page, progress) <==> q in all && Matches(q, spec, page, progress)
  {
    FilterIsSubsequence(all, Matcher(spec, page, progress));
    forall q ensures q in FilterView(all, spec, page, progress) <==> q in all && Matches(q, spec, page, progress) {
      FilterMembership(all, Matcher(spec, page, progress), q);
    }
  }

  /** With no filter set, the view is the whole base list in its original order. */
  lemma NoFiltersKeepsAll(all: seq<Question>, page: Option<string>, progress: ProgressStore.Progress)
    ensures FilterView(all, NoFilters, page, progress) == all
  {
    FilterKeepsAll(all, Matcher(NoFilters, page, progress));
  }

  /** `a` sorts no later than `b` by difficulty rank. */
  function ByDifficulty(): (Question, Question) -> bool
  {
    (a: Question, b: Question) => DifficultyRank(a.difficulty) <= DifficultyRank(b.difficulty)
  }

  /** `a` sorts no later than `b` by `localeCompare` on `key`, with `localeLeq(x, y)` for `x.localeCompare(y) <= 0`. */
  function ByText(key: Question -> string, localeLeq: (string, string) -> bool): (Question, Question) -> bool
  {
    (a: Question, b: Question) => localeLeq(key(a), key(b))
  }

  function TitleKey(q: Question): string { q.title }

  function CategoryKey(q: Question): string { q.category }

  /** The ordering `sortQuestions(sortBy)` sorts with, `None` for a key it ignores. */
  function SortOrder(sortBy: string, localeLeq: (string, string) -> bool): (r: Option<(Question, Question) -> bool>)
    ensures r.Some? <==> sortBy in {"difficulty", "title", "category"}
    ensures r.Some? && sortBy == "difficulty" ==>
              forall a, b :: r.value(a, b) <==> DifficultyRank(a.difficulty) <= DifficultyRank(b.difficulty)
    ensures r.Some? && sortBy == "title" ==> forall a, b :: r.value(a, b) <==> localeLeq(a.title, b.title)
    ensures r.Some? && sortBy == "category" ==> forall a, b :: r.value(a, b) <==> localeLeq(a.category, b.category)
  {
    if sortBy == "difficulty" then Some(ByDifficulty())
    else if sortBy == "title" then Some(ByText(TitleKey, localeLeq))
    else if sortBy == "category" then Some(ByText(CategoryKey, localeLeq))
    else None
  }

  /** The view after `sortQuestions(sortBy)`: the stable sort `Array.prototype.sort` performs. */
  function SortView(sortBy: string, localeLeq: (string, string) -> bool, view: seq<Question>): (r: seq<Question>)
    ensures |r| == |view|
    ensures multiset(r) == multiset(view)
    ensures sortBy !in {"difficulty", "title", "category"} ==> r == view
  {
    match SortOrder(sortBy, localeLeq)
    case Some(leq) =>
      SortByPermutes(view, leq);
      SortBy(view, leq)
    case None => view
  }

  /**
   * Sorting permutes the view; by difficulty the ranks never decrease; by title
   * or category each question's key is `localeLeq` every later one's (when
   * `localeLeq` is a total preorder); any other key leaves the view as it is.
   */
  lemma SortViewProperties(sortBy: string, localeLeq: (string, string) -> bool, view: seq<Question>)
    ensures multiset(SortView(sortBy, localeLeq, view)) == multiset(view)
    ensures |SortView(sortBy, localeLeq, view)| == |view|
    ensures sortBy == "difficulty" ==>
              var r := SortView(sortBy, localeLeq, view);
              forall i, j :: 0 <= i < j < |r| ==> DifficultyRank(r[i].difficulty) <= DifficultyRank(r[j].difficulty)
    ensures sortBy == "title" && TotalPreorder(localeLeq) ==>
              var r := SortView(sortBy, localeLeq, view);
              forall i, j :: 0 <= i < j < |r| ==> localeLeq(r[i].title, r[j].title)
    ensures sortBy == "category" && TotalPreorder(localeLeq) ==>
              var r := SortView(sortBy, localeLeq, view);
              forall i, j :: 0 <= i < j < |r| ==> localeLeq(r[i].category, r[j].category)
    ensures sortBy !in {"difficulty", "title", "category"} ==> SortView(sortBy, localeLeq, view) == view
  {
    match SortOrder(sortBy, localeLeq)
    case Some(leq) =>
      SortByPermutes(view, leq);
      assert |multiset(SortBy(view, leq))| == |multiset(view)|;
      if sortBy == "difficulty" {
        SortBySorted(view, leq);
      } else if TotalPreorder(localeLeq) {
        var key := if sortBy == "title" then TitleKey else CategoryKey;
        KeyedOrderIsTotalPreorder(key, localeLeq);
        assert leq == ByText(key, localeLeq);
        SortBySorted(view, leq);
      }
    case None =>
  }

  function HasDifficulty(d: Difficulty): Question -> bool { (q: Question) => q.difficulty == d }

  function HasTitle(t: string): Question -> bool { (q: Question) => q.title == t }

  function HasCategory(c: string): Question -> bool { (q: Question) => q.category == c }

  /**
   * The sort is stable: questions of one difficulty, or with one title or one
   * category label (when `localeLeq` is a total preorder), keep their relative
   * order.
   */
  lemma SortViewStable(sortBy: string, localeLeq: (string, string) -> bool, view: seq<Question>,
                       d: Difficulty, key: string)
    ensures sortBy == "difficulty" ==>
              Filter(SortView(sortBy, localeLeq, view), HasDifficulty(d)) == Filter(view, HasDifficulty(d))
    ensures sortBy == "title" && TotalPreorder(localeLeq) ==>
              Filter(SortView(sortBy, localeLeq, view), HasTitle(key)) == Filter(view, HasTitle(key))
    ensures sortBy == "category" && TotalPreorder(localeLeq) ==>
              Filter(SortView(sortBy, localeLeq, view), HasCategory(key)) == Filter(view, HasCategory(key))
  {
    if sortBy == "difficulty" {
      SortByStable(view, ByDifficulty(), HasDifficulty(d));
    } else if sortBy == "title" && TotalPreorder(localeLeq) {
      KeyedOrderIsTotalPreorder(TitleKey, localeLeq);
      SortByStable(view, ByText(TitleKey, localeLeq), HasTitle(key));
    } else if sortBy == "category" && TotalPreorder(localeLeq) {
      KeyedOrderIsTotalPreorder(CategoryKey, localeLeq);
      SortByStable(view, ByText(CategoryKey, localeLeq), HasCategory(key));
    }
  }

  lemma KeyedOrderIsTotalPreorder(key: Question -> string, localeLeq: (string, string) -> bool)
    requires TotalPreorder(localeLeq)
    ensures TotalPreorder(ByText(key, localeLeq))
  {
  }

  /** `SearchFilter`. `filteredQuestions` may be the very array `allQuestions` is. */
  class SearchFilter {
    var allQuestions: array<Question>
    var filteredQuestions: array<Question>
    var currentFilters: FilterSpec

    constructor ()
      ensures fresh(allQuestions) && fresh(filteredQuestions) && allQuestions != filteredQuestions
      ensures allQuestions.Length == 0 && filteredQuestions.Length == 0
      ensures currentFilters == NoFilters
    {
      allQuestions := new Question[0];
      filteredQuestions := new Question[0];
      currentFilters := NoFilters;
    }

    /** Both lists become the given array itself (no copy), and the filters stay as they were. */
    method SetQuestions(questions: array<Question>)
      modifies this
      ensures allQuestions == questions && filteredQuestions == questions
      ensures currentFilters == old(currentFilters)
    {
      allQuestions := questions;
      filteredQuestions := questions;
    }

    /** Re-scans the whole base list into a new view array. */
    method ApplyFilters(page: Option<string>, store: ProgressStore.ProgressTracker) returns (view: array<Question>)
      modifies this
      ensures allQuestions == old(allQuestions) && currentFilters == old(currentFilters)
      ensures fresh(filteredQuestions) && view == filteredQuestions
      ensures filteredQuestions[..] == FilterView(allQuestions[..], currentFilters, page, store.progress)
    {
      var all, spec, progress := allQuestions, currentFilters, store.progress;
      ghost var keep := Matcher(spec, page, progress);
      var kept: seq<Question> := [];
      var i := 0;
      while i < all.Length
        invariant 0 <= i <= all.Length
        invariant kept == Filter(all[..i], keep)
        invariant allQuestions == all && currentFilters == spec
      {
        var q := all[i];
        assert all[..i + 1] == all[..i] + [q];
        FilterAppend(all[..i], [q], keep);
        if Matches(q, spec, page, progress) {
          kept := kept + [q];
        }
        i := i + 1;
      }
      assert all[..i] == all[..];
      filteredQuestions := new Question[|kept|](k requires 0 <= k < |kept| => kept[k]);
      view := filteredQuestions;
    }

    method UpdateFilter(update: FilterUpdate, page: Option<string>, store: ProgressStore.ProgressTracker)
      returns (view: array<Question>)
      modifies this
      ensures allQuestions == old(allQuestions) && currentFilters == Updated(old(currentFilters), update)
      ensures fresh(filteredQuestions) && view == filteredQuestions
      ensures filteredQuestions[..] == FilterView(allQuestions[..], currentFilters, page, store.progress)
    {
      currentFilters := Updated(currentFilters, update);
      view := ApplyFilters(page, store);
    }

    /** Clears every axis; the view is then the whole base list in order. */
    method ResetFilters(page: Option<string>, store: ProgressStore.ProgressTracker) returns (view: array<Question>)
      modifies this
      ensures allQuestions == old(allQuestions) && currentFilters == NoFilters
      ensures fresh(filteredQuestions) && view == filteredQuestions
      ensures filteredQuestions[..] == allQuestions[..]
    {
      currentFilters := NoFilters;
      view := ApplyFilters(page, store);
      NoFiltersKeepsAll(allQuestions[..], page, store.progress);
    }

    /**
     * Reorders the view array in place. When the view is still the base array
     * (no filter applied since `SetQuestions`), the base list is reordered too.
     */
    method SortQuestions(sortBy: string, localeLeq: (string, string) -> bool) returns (view: array<Question>)
      modifies filteredQuestions
      ensures view == filteredQuestions
      ensures filteredQuestions[..] == SortView(sortBy, localeLeq, old(filteredQuestions[..]))
      ensures multiset(filteredQuestions[..]) == multiset(old(filteredQuestions[..]))
      ensures allQuestions != filteredQuestions ==> allQuestions[..] == old(allQuestions[..])
      ensures allQuestions == filteredQuestions ==> allQuestions[..] == SortView(sortBy, localeLeq, old(allQuestions[..]))
    {
      var sorted := SortView(sortBy, localeLeq, filteredQuestions[..]);
      SortViewProperties(sortBy, localeLeq, filteredQuestions[..]);
      forall k | 0 <= k < filteredQuestions.Length {
        filteredQuestions[k] := sorted[k];
      }
      assert filteredQuestions[..] == sorted;
      view := filteredQuestions;
    }
  }
}
