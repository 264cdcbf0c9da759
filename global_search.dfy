/**
 * The index page's search across every dataset: the four question lists are
 * tagged with their dataset, joined in a fixed order and filtered.
 */
module GlobalSearch {
  import opened Optional
  import opened Text
  import opened Sequences
  import opened QuestionSearch

  /** `{...q, source, sourceName}`: a question with the dataset it came from. */
  datatype SourcedQuestion = SourcedQuestion(question: Question, source: string, sourceName: string)

  /** Tags every question of one dataset's list, keeping the list's order. */
  function WithSource(qs: seq<Question>, source: string, sourceName: string): (r: seq<SourcedQuestion>)
    ensures |r| == |qs|
    ensures forall i :: 0 <= i < |qs| ==> r[i] == SourcedQuestion(qs[i], source, sourceName)
  {
    seq(|qs|, i requires 0 <= i < |qs| => SourcedQuestion(qs[i], source, sourceName))
  }

  function FromC(qs: seq<Question>): seq<SourcedQuestion> { WithSource(qs, "c-programming", "C Programming") }

  function FromDsa(qs: seq<Question>): seq<SourcedQuestion> { WithSource(qs, "zoho-dsa", "Zoho DSA") }

  function FromLld(qs: seq<Question>): seq<SourcedQuestion> { WithSource(qs, "lld", "Low Level Design") }

  function FromDocs(qs: seq<Question>): seq<SourcedQuestion> { WithSource(qs, "zoho-docs", "Zoho-Docs Questions") }

  /** All questions, C programming first, then DSA, then low-level design, then the Zoho docs. */
  function Combined(c: seq<Question>, dsa: seq<Question>, lld: seq<Question>, docs: seq<Question>): (r: seq<SourcedQuestion>)
    ensures |r| == |c| + |dsa| + |lld| + |docs|
    ensures forall i :: 0 <= i < |c| ==> r[i] == SourcedQuestion(c[i], "c-programming", "C Programming")
    ensures forall i :: 0 <= i < |dsa| ==> r[|c| + i] == SourcedQuestion(dsa[i], "zoho-dsa", "Zoho DSA")
    ensures forall i :: 0 <= i < |lld| ==> r[|c| + |dsa| + i] == SourcedQuestion(lld[i], "lld", "Low Level Design")
    ensures forall i :: 0 <= i < |docs| ==>
              r[|c| + |dsa| + |lld| + i] == SourcedQuestion(docs[i], "zoho-docs", "Zoho-Docs Questions")
  {
    FromC(c) + FromDsa(dsa) + FromLld(lld) + FromDocs(docs)
  }

  /**
   * The global filter. Unlike the page filter, the search term is not looked
   * for in the category label, and there is no bookmark axis. The term is used
   * as given, untrimmed.
   */
  predicate GlobalMatches(t: SourcedQuestion, term: string, difficulty: string, category: string): (r: bool)
    ensures term == "" && difficulty == "" && category == "" ==> r
    ensures r ==> SearchMatches(t.question, term)
    ensures r && difficulty != "" ==> DifficultyName(t.question.difficulty) == difficulty
    ensures r && category != "" ==> t.question.category == category
  {
    && (term == "" || TextMatches(t.question, term))
    && (difficulty == "" || DifficultyName(t.question.difficulty) == difficulty)
    && (category == "" || t.question.category == category)
  }

  function GlobalMatcher(term: string, difficulty: string, category: string): SourcedQuestion -> bool
  {
    t => GlobalMatches(t, term, difficulty, category)
  }

  /**
   * `performGlobalSearch` on four loaded lists: `None` when no query is run
   * (the trimmed term, the difficulty and the category are all empty),
   * otherwise the matches, dataset by dataset in the fixed order.
   */
  function PerformGlobalSearch(term: string, difficulty: string, category: string,
                               c: seq<Question>, dsa: seq<Question>, lld: seq<Question>, docs: seq<Question>)
    : (r: Option<seq<SourcedQuestion>>)
    ensures r.None? <==> TrimsToEmpty(term) && difficulty == "" && category == ""
    ensures r.Some? ==>
              var keep := GlobalMatcher(term, difficulty, category);
              r.value == Filter(FromC(c), keep) + Filter(FromDsa(dsa), keep)
                         + Filter(FromLld(lld), keep) + Filter(FromDocs(docs), keep)
  {
    if Trim(term) == "" && difficulty == "" && category == "" then None
    else
      var keep := GlobalMatcher(term, difficulty, category);
      FilterAppend(FromC(c) + FromDsa(dsa) + FromLld(lld), FromDocs(docs), keep);
      FilterAppend(FromC(c) + FromDsa(dsa), FromLld(lld), keep);
      FilterAppend(FromC(c), FromDsa(dsa), keep);
      Some(Filter(Combined(c, dsa, lld, docs), keep))
  }

  /**
   * A query's result is an order-preserving subsequence of the combined list;
   * an entry is in it exactly when it passes the global filter; and each entry
   * carries the tag of the list its question came from.
   */
  lemma GlobalSearchProperties(term: string, difficulty: string, category: string,
                               c: seq<Question>, dsa: seq<Question>, lld: seq<Question>, docs: seq<Question>)
    requires PerformGlobalSearch(term, difficulty, category, c, dsa, lld, docs).Some?
    ensures var r := PerformGlobalSearch(term, difficulty, category, c, dsa, lld, docs).value;
            && IsSubsequence(r, Combined(c, dsa, lld, docs))
            && (forall t :: t in r <==> t in Combined(c, dsa, lld, docs) && GlobalMatches(t, term, difficulty, category))
            && (forall t :: t in r ==>
                  || (t.question in c && t.source == "c-programming" && t.sourceName == "C Programming")
                  || (t.question in dsa && t.source == "zoho-dsa" && t.sourceName == "Zoho DSA")
                  || (t.question in lld && t.source == "lld" && t.sourceName == "Low Level Design")
                  || (t.question in docs && t.source == "zoho-docs" && t.sourceName == "Zoho-Docs Questions"))
  {
    var keep := GlobalMatcher(term, difficulty, category);
    var all := Combined(c, dsa, lld, docs);
    var r := PerformGlobalSearch(term, difficulty, category, c, dsa, lld, docs).value;
    assert r == Filter(all, keep);
    FilterIsSubsequence(all, keep);
    forall t ensures t in r <==> t in all && GlobalMatches(t, term, difficulty, category) {
      FilterMembership(all, keep, t);
    }
    forall t | t in r
      ensures || (t.question in c && t.source == "c-programming" && t.sourceName == "C Programming")
              || (t.question in dsa && t.source == "zoho-dsa" && t.sourceName == "Zoho DSA")
              || (t.question in lld && t.source == "lld" && t.sourceName == "Low Level Design")
              || (t.question in docs && t.source == "zoho-docs" && t.sourceName == "Zoho-Docs Questions")
    {
      FilterMembership(all, keep, t);
      assert t in FromC(c) || t in FromDsa(dsa) || t in FromLld(lld) || t in FromDocs(docs);
      TaggedOrigin(c, "c-programming", "C Programming", t);
      TaggedOrigin(dsa, "zoho-dsa", "Zoho DSA", t);
      TaggedOrigin(lld, "lld", "Low Level Design", t);
      TaggedOrigin(docs, "zoho-docs", "Zoho-Docs Questions", t);
    }
  }

  lemma TaggedOrigin(qs: seq<Question>, source: string, sourceName: string, t: SourcedQuestion)
    ensures t in WithSource(qs, source, sourceName) ==>
              t.question in qs && t.source == source && t.sourceName == sourceName
  {
  }

  /**
   * The global search and the page filter differ exactly on the category label:
   * a question whose only mention of the term is its category label passes the
   * page filter's search axis but not the global one.
   */
  lemma SearchAxesDiffer(q: Question, term: string, source: string, sourceName: string)
    ensures SearchMatches(q, term) <==>
              GlobalMatches(SourcedQuestion(q, source, sourceName), term, "", "")
              || Includes(Lower(q.category), Lower(term))
  {
  }

  /** An example: the term "tree" against a question filed under "Trees" and not otherwise mentioning it. */
  lemma CategoryLabelIgnoredExample()
    ensures var q := Question("1", "Sum", "", Easy, "Trees", [], []);
            SearchMatches(q, "tree") && !GlobalMatches(SourcedQuestion(q, "zoho-dsa", "Zoho DSA"), "tree", "", "")
  {
  }
}
