/**
 * The progress store: per dataset category, per question id, a status and a
 * bookmark flag, persisted after every change.
 */
module ProgressStore {
  import opened Optional

  /**
   * A recorded status. `Unrecognised` stands for any stored value other than the
   * three names (an entry from an imported file, or the `undefined` that the
   * status cycle produces for a value outside its table).
   */
  datatype Status = Unsolved | Attempted | Solved | Unrecognised

  datatype Entry = Entry(status: Status, bookmarked: bool)

  /** What an untouched question reads as. */
  const DefaultEntry := Entry(Unsolved, false)

  /** dataset category -> question id -> entry */
  type Progress = map<string, map<string, Entry>>

  /** The state used when nothing has been saved: the four datasets, each with no entries. */
  const EmptyProgress: Progress :=
    map["c-programming" := map[], "zoho-dsa" := map[], "lld" := map[], "zoho-docs" := map[]]

  /**
   * Start-up state. `saved` is the parsed content of the storage slot, `None`
   * when the slot is absent or empty.
   */
  function LoadProgress(saved: Option<Progress>): (p: Progress)
    ensures saved.None? ==> p.Keys == {"c-programming", "zoho-dsa", "lld", "zoho-docs"}
    ensures saved.None? ==> forall c :: c in p ==> p[c] == map[]
    ensures saved.Some? ==> p == saved.value
  {
    if saved.Some? then saved.value else EmptyProgress
  }

  /** The entries recorded for a category; none for an absent category. */
  function Entries(p: Progress, category: string): map<string, Entry>
  {
    if category in p then p[category] else map[]
  }

  /** The stored entry, or the default one when nothing is stored. */
  function Lookup(p: Progress, category: string, id: string): (e: Entry)
    ensures category in p && id in p[category] ==> e == p[category][id]
    ensures category !in p || id !in p[category] ==> e == DefaultEntry
  {
    var m := Entries(p, category);
    if id in m then m[id] else DefaultEntry
  }

  /** The store after `setQuestionStatus(category, id, status)`. */
  function WithStatus(p: Progress, category: string, id: string, status: Status): (r: Progress)
    ensures r.Keys == p.Keys + {category}
    ensures r[category].Keys == Entries(p, category).Keys + {id}
    ensures forall c :: c in p && c != category ==> r[c] == p[c]
    ensures Lookup(r, category, id) == Entry(status, Lookup(p, category, id).bookmarked)
    ensures forall c, q :: c != category || q != id ==> Lookup(r, c, q) == Lookup(p, c, q)
  {
    var m := Entries(p, category);
    var e := if id in m then m[id] else DefaultEntry;
    p[category := m[id := e.(status := status)]]
  }

  /** The store after `toggleBookmark(category, id)`. */
  function WithToggledBookmark(p: Progress, category: string, id: string): (r: Progress)
    ensures r.Keys == p.Keys + {category}
    ensures r[category].Keys == Entries(p, category).Keys + {id}
    ensures forall c :: c in p && c != category ==> r[c] == p[c]
    ensures Lookup(r, category, id).bookmarked == !Lookup(p, category, id).bookmarked
    ensures Lookup(r, category, id).status == Lookup(p, category, id).status
    ensures forall c, q :: c != category || q != id ==> Lookup(r, c, q) == Lookup(p, c, q)
  {
    var m := Entries(p, category);
    var e := if id in m then m[id] else DefaultEntry;
    p[category := m[id := e.(bookmarked := !e.bookmarked)]]
  }

  /**
   * The store after `clearProgress(category)`. JavaScript treats both a missing
   * argument and the empty string as false, and both reset every category.
   */
  function Cleared(p: Progress, category: Option<string>): (r: Progress)
    ensures category.Some? && category.value != "" ==>
              r.Keys == p.Keys + {category.value} && r[category.value] == map[]
              && forall c :: c in p && c != category.value ==> r[c] == p[c]
    ensures category.None? || category.value == "" ==> r == LoadProgress(None)
  {
    if category.Some? && category.value != "" then p[category.value := map[]] else EmptyProgress
  }

  /** The ids in `category` whose recorded status is `status`. */
  ghost function IdsWithStatus(p: Progress, category: string, status: Status): set<string>
  {
    set id | id in Entries(p, category) && Entries(p, category)[id].status == status
  }

  /** The ids in `category` whose entry is bookmarked. */
  ghost function BookmarkedIds(p: Progress, category: string): set<string>
  {
    set id | id in Entries(p, category) && Entries(p, category)[id].bookmarked
  }

  /** The ids among `ids` whose entry in `m` has status `status`. */
  ghost function HavingStatus(m: map<string, Entry>, ids: set<string>, status: Status): set<string>
  {
    set id | id in ids && id in m && m[id].status == status
  }

  /** Adding one fresh id to those examined adds it to the count exactly when its status matches. */
  lemma HavingStatusStep(m: map<string, Entry>, ids: set<string>, id: string, status: Status)
    requires id !in ids && id in m
    ensures |HavingStatus(m, ids + {id}, status)|
            == |HavingStatus(m, ids, status)| + (if m[id].status == status then 1 else 0)
  {
    if m[id].status == status {
      assert HavingStatus(m, ids + {id}, status) == HavingStatus(m, ids, status) + {id};
    } else {
      assert HavingStatus(m, ids + {id}, status) == HavingStatus(m, ids, status);
    }
  }

  datatype Stats = Stats(solved: nat, attempted: nat, total: int)

  /** With nothing saved, no question of any category has progress. */
  lemma NothingSavedReadsDefault(category: string, id: string)
    ensures Lookup(LoadProgress(None), category, id) == DefaultEntry
  {
  }

  /** A second `setQuestionStatus` on the same question overwrites the first. */
  lemma SetStatusOverwrites(p: Progress, category: string, id: string, first: Status, second: Status)
    ensures WithStatus(WithStatus(p, category, id, first), category, id, second)
            == WithStatus(p, category, id, second)
  {
    var m := Entries(p, category);
    var b := Lookup(p, category, id).bookmarked;
    var once := WithStatus(p, category, id, first);
    assert Entries(once, category) == m[id := Entry(first, b)];
    assert m[id := Entry(first, b)][id := Entry(second, b)] == m[id := Entry(second, b)];
    assert p[category := m[id := Entry(first, b)]][category := m[id := Entry(second, b)]]
           == p[category := m[id := Entry(second, b)]];
  }

  /**
   * Toggling a bookmark twice restores every read of the store, although the
   * store keeps the entry the first toggle created.
   */
  lemma ToggleTwiceRestores(p: Progress, category: string, id: string, c: string, q: string)
    ensures Lookup(WithToggledBookmark(WithToggledBookmark(p, category, id), category, id), c, q)
            == Lookup(p, c, q)
  {
  }

  /** After clearing one category, it reads as default everywhere and the others read as before. */
  lemma ClearOneCategory(p: Progress, category: string, c: string, q: string)
    requires category != ""
    ensures Lookup(Cleared(p, Some(category)), category, q) == DefaultEntry
    ensures c != category ==> Lookup(Cleared(p, Some(category)), c, q) == Lookup(p, c, q)
  {
  }

  /** A question is counted at most once: solved and attempted together never exceed the entries. */
  lemma {:induction false} StatsWithinEntries(p: Progress, category: string)
    ensures |IdsWithStatus(p, category, Solved)| + |IdsWithStatus(p, category, Attempted)|
            <= |Entries(p, category)|
  {
    var solved := IdsWithStatus(p, category, Solved);
    var attempted := IdsWithStatus(p, category, Attempted);
    assert solved * attempted == {};
    assert |solved + attempted| == |solved| + |attempted|;
    assert solved + attempted <= Entries(p, category).Keys;
    SubsetCardinality(solved + attempted, Entries(p, category).Keys);
  }

  lemma {:induction false} SubsetCardinality(a: set<string>, b: set<string>)
    requires a <= b
    ensures |a| <= |b|
  {
    if a != {} {
      var x :| x in a;
      SubsetCardinality(a - {x}, b - {x});
    }
  }

  /** The browser-side store; `saved` is the persisted copy in local storage. */
  class ProgressTracker {
    var progress: Progress
    var saved: Option<Progress>

    constructor (stored: Option<Progress>)
      ensures progress == LoadProgress(stored) && saved == stored
    {
      saved := stored;
      progress := LoadProgress(stored);
    }

    /** Writes the whole store to the storage slot. */
    method SaveProgress()
      modifies this
      ensures progress == old(progress) && saved == Some(progress)
    {
      saved := Some(progress);
    }

    /** The recorded entry, or `{unsolved, false}` for a question never touched; never fails. */
    function GetQuestionStatus(category: string, questionId: string): (e: Entry)
      reads this
      ensures category in progress && questionId in progress[category] ==> e == progress[category][questionId]
      ensures category !in progress || questionId !in progress[category] ==> e == DefaultEntry
    {
      Lookup(progress, category, questionId)
    }

    method SetQuestionStatus(category: string, questionId: string, status: Status)
      modifies this
      ensures progress == WithStatus(old(progress), category, questionId, status)
      ensures saved == Some(progress)
    {
      ghost var m := Entries(progress, category);
      ghost var start := progress;
      if category !in progress {
        progress := progress[category := map[]];
      }
      if questionId !in progress[category] {
        progress := progress[category := progress[category][questionId := DefaultEntry]];
      }
      var entry := progress[category][questionId];
      assert entry == Lookup(start, category, questionId);
      assert progress[category][questionId := entry.(status := status)] == m[questionId := entry.(status := status)];
      progress := progress[category := progress[category][questionId := entry.(status := status)]];
      assert progress == start[category := m[questionId := entry.(status := status)]];
      SaveProgress();
    }

    method ToggleBookmark(category: string, questionId: string) returns (bookmarked: bool)
      modifies this
      ensures progress == WithToggledBookmark(old(progress), category, questionId)
      ensures bookmarked == !old(IsBookmarked(category, questionId))
      ensures bookmarked == IsBookmarked(category, questionId)
      ensures saved == Some(progress)
    {
      ghost var m := Entries(progress, category);
      ghost var start := progress;
      if category !in progress {
        progress := progress[category := map[]];
      }
      if questionId !in progress[category] {
        progress := progress[category := progress[category][questionId := DefaultEntry]];
      }
      var entry := progress[category][questionId];
      assert entry == Lookup(start, category, questionId);
      var toggled := entry.(bookmarked := !entry.bookmarked);
      assert progress[category][questionId := toggled] == m[questionId := toggled];
      progress := progress[category := progress[category][questionId := toggled]];
      assert progress == start[category := m[questionId := toggled]];
      SaveProgress();
      bookmarked := progress[category][questionId].bookmarked;
    }

    /** The stored bookmark flag; false for a question never touched. */
    function IsBookmarked(category: string, questionId: string): (b: bool)
      reads this
      ensures b == GetQuestionStatus(category, questionId).bookmarked
      ensures category !in progress || questionId !in progress[category] ==> !b
    {
      Lookup(progress, category, questionId).bookmarked
    }

    /** Counts the solved and the attempted entries of `category`; the total is the caller's. */
    method GetCategoryStats(category: string, totalQuestions: int) returns (stats: Stats)
      ensures stats.solved == |IdsWithStatus(progress, category, Solved)|
      ensures stats.attempted == |IdsWithStatus(progress, category, Attempted)|
      ensures stats.total == totalQuestions
      ensures stats.solved + stats.attempted <= |Entries(progress, category)|
    {
      var questions := Entries(progress, category);
      var solved, attempted := 0, 0;
      var remaining := questions.Keys;
      while remaining != {}
        invariant remaining <= questions.Keys
        invariant solved == |HavingStatus(questions, questions.Keys - remaining, Solved)|
        invariant attempted == |HavingStatus(questions, questions.Keys - remaining, Attempted)|
        decreases remaining
      {
        var id :| id in remaining;
        ghost var done := questions.Keys - remaining;
        assert questions.Keys - (remaining - {id}) == done + {id};
        HavingStatusStep(questions, done, id, Solved);
        HavingStatusStep(questions, done, id, Attempted);
        if questions[id].status == Solved {
          solved := solved + 1;
        } else if questions[id].status == Attempted {
          attempted := attempted + 1;
        }
        remaining := remaining - {id};
      }
      assert questions.Keys - remaining == questions.Keys;
      assert HavingStatus(questions, questions.Keys, Solved) == IdsWithStatus(progress, category, Solved);
      assert HavingStatus(questions, questions.Keys, Attempted) == IdsWithStatus(progress, category, Attempted);
      StatsWithinEntries(progress, category);
      stats := Stats(solved, attempted, totalQuestions);
    }

    /** The bookmarked ids of `category`, each once; none for an absent category. */
    method GetBookmarkedQuestions(category: string) returns (ids: seq<string>)
      ensures forall id :: id in ids <==> id in BookmarkedIds(progress, category)
      ensures forall i, j :: 0 <= i < j < |ids| ==> ids[i] != ids[j]
    {
      var questions := Entries(progress, category);
      ids := [];
      var remaining := questions.Keys;
      while remaining != {}
        invariant remaining <= questions.Keys
        invariant forall id :: id in ids <==> id in questions.Keys - remaining && questions[id].bookmarked
        invariant forall i, j :: 0 <= i < j < |ids| ==> ids[i] != ids[j]
        decreases remaining
      {
        var id :| id in remaining;
        if questions[id].bookmarked {
          ids := ids + [id];
        }
        remaining := remaining - {id};
      }
    }

    /**
     * `importProgress`: `parsed` is the outcome of parsing the file, `None` on a
     * parse error, which leaves everything as it was.
     */
    method ImportProgress(parsed: Option<Progress>)
      modifies this
      ensures parsed.None? ==> progress == old(progress) && saved == old(saved)
      ensures parsed.Some? ==> progress == parsed.value && saved == Some(parsed.value)
    {
      if parsed.Some? {
        progress := parsed.value;
        SaveProgress();
      }
    }

    method ClearProgress(category: Option<string>)
      modifies this
      ensures progress == Cleared(old(progress), category)
      ensures saved == Some(progress)
    {
      if category.Some? && category.value != "" {
        progress := progress[category.value := map[]];
      } else {
        progress := EmptyProgress;
      }
      SaveProgress();
    }
  }
}
