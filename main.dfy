/**
 * A category page: the status button's cycle and label, the statistics
 * total, the status update, and the page's filter wiring.
 */
module QuestionPage {
  import opened Optional
  import opened ProgressStore
  import opened QuestionSearch

  /** The table `{unsolved: attempted, attempted: solved, solved: unsolved}`; any other value has no successor. */
  function NextStatus(s: Status): (next: Status)
    ensures next == Attempted <==> s == Unsolved
    ensures next == Solved <==> s == Attempted
    ensures next == Unsolved <==> s == Solved
    ensures next == Unrecognised <==> s == Unrecognised
  {
    match s
    case Unsolved => Attempted
    case Attempted => Solved
    case Solved => Unsolved
    case Unrecognised => Unrecognised
  }

  /** The three statuses form one cycle of length three. */
  lemma NextStatusCycle(s: Status)
    ensures NextStatus(NextStatus(NextStatus(s))) == s
    ensures s != Unrecognised ==> NextStatus(s) != s && NextStatus(NextStatus(s)) != s
    ensures s != Unrecognised ==> NextStatus(s) != Unrecognised
  {
  }

  const SolvedIcon := "\U{2705} Solved"
  const AttemptedIcon := "\U{23F1}\U{FE0F} Attempted"
  const UnsolvedIcon := "\U{2B55} Unsolved"

  /** `getStatusIcon`: solved and attempted have their own labels, every other value reads as unsolved. */
  function StatusIcon(s: Status): (icon: string)
    ensures icon == SolvedIcon <==> s == Solved
    ensures icon == AttemptedIcon <==> s == Attempted
    ensures icon == UnsolvedIcon <==> s == Unsolved || s == Unrecognised
  {
    match s
    case Solved => SolvedIcon
    case Attempted => AttemptedIcon
    case _ => UnsolvedIcon
  }

  /**
   * The totals `updateStats` is configured with, kept as a record of that
   * table: `UpdateStats` takes the table as a parameter, because the progress
   * bars use a second table that differs for `zoho-docs`.
   */
  const PageTotals: map<string, int> := map["c-programming" := 22, "zoho-dsa" := 50, "lld" := 18, "zoho-docs" := 10]

  /**
   * `categoryTotals[category] || questions.length`: the configured total, unless
   * the category has none or its configured total is 0.
   */
  function SelectTotal(totals: map<string, int>, category: string, loaded: nat): (total: int)
    ensures category in totals && totals[category] != 0 ==> total == totals[category]
    ensures category !in totals || totals[category] == 0 ==> total == loaded
  {
    if category in totals && totals[category] != 0 then totals[category] else loaded
  }

  /**
   * `cycleStatus`: the question's status moves one step round the cycle and
   * its bookmark is kept. `category` is the page's `CATEGORY`.
   */
  method CycleStatus(store: ProgressTracker, category: string, questionId: string)
    modifies store
    ensures store.progress
            == WithStatus(old(store.progress), category, questionId,
                          NextStatus(old(store.GetQuestionStatus(category, questionId)).status))
    ensures store.GetQuestionStatus(category, questionId)
            == Entry(NextStatus(old(store.GetQuestionStatus(category, questionId)).status),
                     old(store.GetQuestionStatus(category, questionId)).bookmarked)
    ensures forall c, q :: c != category || q != questionId ==>
              store.GetQuestionStatus(c, q) == old(store.GetQuestionStatus(c, q))
    ensures store.saved == Some(store.progress)
  {
    var currentStatus := store.GetQuestionStatus(category, questionId).status;
    var newStatus := NextStatus(currentStatus);
    store.SetQuestionStatus(category, questionId, newStatus);
  }

  /** `QuestionManager`: one category page's questions and its filter. */
  class QuestionManager {
    const category: string
    var questions: array<Question>
    const searchFilter: SearchFilter

    constructor (category: string)
      ensures this.category == category && questions.Length == 0
      ensures fresh(searchFilter) && searchFilter.currentFilters == NoFilters
    {
      this.category := category;
      questions := new Question[0];
      searchFilter := new SearchFilter();
    }

    /**
     * The success path of `loadQuestions` on the fetched list: the page's list,
     * the filter's base list and its view are one and the same array.
     */
    method LoadQuestions(loaded: array<Question>)
      modifies this, searchFilter
      ensures questions == loaded && searchFilter.allQuestions == loaded && searchFilter.filteredQuestions == loaded
      ensures searchFilter.currentFilters == old(searchFilter.currentFilters)
    {
      questions := loaded;
      searchFilter.SetQuestions(questions);
    }

    /**
     * `filterQuestions`: sets the four axes from the controls' values one after
     * another; the view then depends only on those values, not on the filters
     * set before.
     */
    method FilterQuestions(searchTerm: string, difficulty: string, categoryLabel: string, bookmarked: bool,
                           page: Option<string>, store: ProgressTracker)
      modifies searchFilter
      ensures searchFilter.allQuestions == old(searchFilter.allQuestions)
      ensures searchFilter.currentFilters == FilterSpec(searchTerm, difficulty, categoryLabel, bookmarked)
      ensures searchFilter.filteredQuestions[..]
              == FilterView(searchFilter.allQuestions[..], FilterSpec(searchTerm, difficulty, categoryLabel, bookmarked),
                            page, store.progress)
    {
      var view := searchFilter.UpdateFilter(SearchAxis(searchTerm), page, store);
      view := searchFilter.UpdateFilter(DifficultyAxis(difficulty), page, store);
      view := searchFilter.UpdateFilter(CategoryAxis(categoryLabel), page, store);
      view := searchFilter.UpdateFilter(BookmarkedAxis(bookmarked), page, store);
    }

    /** The figures `updateStats` shows: the selected total and the store's counts for this category. */
    method UpdateStats(totals: map<string, int>, store: ProgressTracker) returns (total: int, stats: Stats)
      ensures total == SelectTotal(totals, category, questions.Length)
      ensures stats.total == total
      ensures stats.solved == |IdsWithStatus(store.progress, category, Solved)|
      ensures stats.attempted == |IdsWithStatus(store.progress, category, Attempted)|
    {
      total := SelectTotal(totals, category, questions.Length);
      stats := store.GetCategoryStats(category, total);
    }
  }
}
