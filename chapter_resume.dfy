/**
 * Opening a course without a chapter in the address: the layout jumps to
 * the first chapter, in position order, that the learner has not finished.
 */
module ChapterResume {
  import opened Wrappers
  import StableSort

  /**
   * One progress record. The backend type declares `isCompleted`; the layout
   * reads a field `isComplete`, which is absent (None) unless the backend
   * also sends it.
   */
  datatype Progress = Progress(isComplete: Option<bool>, isCompleted: bool)

  datatype Chapter = Chapter(id: string, position: int, userProgress: Option<seq<Progress>>)

  datatype Course = Course(chapters: Option<seq<Chapter>>)

  /** `userProgress?.some(up => up.isComplete)`, the test the layout applies. */
  predicate DoneAsWritten(c: Chapter) {
    c.userProgress.Some? && exists up :: up in c.userProgress.value && up.isComplete == Some(true)
  }

  /** The same test on the declared `isCompleted` field. */
  predicate DoneIntended(c: Chapter) {
    c.userProgress.Some? && exists up :: up in c.userProgress.value && up.isCompleted
  }

  /** The length of the longest prefix of finished chapters. */
  function CompletedPrefix(s: seq<Chapter>, done: Chapter -> bool): (k: nat)
    ensures k <= |s|
    ensures forall j :: 0 <= j < k ==> done(s[j])
    ensures k < |s| ==> !done(s[k])
  {
    if s == [] || !done(s[0]) then 0 else 1 + CompletedPrefix(s[1..], done)
  }

  /** The chapters in ascending position order (a stable sort of a copy). */
  function ByPosition(chapters: seq<Chapter>): seq<Chapter> {
    StableSort.Sort(chapters, (c: Chapter) => c.position)
  }

  function Route(id: string): string { "chapitre/" + id }

  /** Where a sorted chapter list sends the learner, given what counts as finished. */
  function TargetIn(sorted: seq<Chapter>, done: Chapter -> bool): (target: Option<string>)
    ensures target.Some? ==> exists c :: c in sorted && target.value == Route(c.id) && c.id != ""
    ensures sorted == [] ==> target == None
  {
    var k := CompletedPrefix(sorted, done);
    if k < |sorted| then
      (if sorted[k].id != "" then Some(Route(sorted[k].id)) else None)
    else if |sorted| > 0 then
      (if sorted[0].id != "" then Some(Route(sorted[0].id)) else None)
    else None
  }

  /** The navigation the effect performs, if any. */
  function Resume(loading: bool, loadingProgress: bool, data: Option<Course>, chapitreId: Option<string>,
                  done: Chapter -> bool): Option<string>
  {
    if !loading && !loadingProgress && data.Some? && !(chapitreId.Some? && chapitreId.value != "") then
      TargetIn(ByPosition(if data.value.chapters.Some? then data.value.chapters.value else []), done)
    else None
  }

  /**
   * The effect's loop: counts the finished chapters from the start and stops
   * at the first unfinished one.
   */
  method ResumeEffect(loading: bool, loadingProgress: bool, data: Option<Course>, chapitreId: Option<string>)
    returns (target: Option<string>)
    ensures target == Resume(loading, loadingProgress, data, chapitreId, DoneAsWritten)
  {
    target := None;
    if !loading && !loadingProgress && data.Some? && !(chapitreId.Some? && chapitreId.value != "") {
      var chapters := if data.value.chapters.Some? then data.value.chapters.value else [];
      var sorted := ByPosition(chapters);
      var lastCompletedIndex := -1;
      var i := 0;
      while i < |sorted|
        invariant 0 <= i <= |sorted|
        invariant lastCompletedIndex == i - 1
        invariant forall j :: 0 <= j < i ==> DoneAsWritten(sorted[j])
      {
        if DoneAsWritten(sorted[i]) {
          lastCompletedIndex := i;
        } else {
          break;
        }
        i := i + 1;
      }
      PrefixUnique(sorted, DoneAsWritten, lastCompletedIndex + 1);
      if lastCompletedIndex < |sorted| - 1 {
        var next := sorted[lastCompletedIndex + 1].id;
        if next != "" {
          target := Some(Route(next));
        }
      } else if |sorted| > 0 {
        var first := sorted[0].id;
        if first != "" {
          target := Some(Route(first));
        }
      }
    }
  }

  /** The finished prefix is determined by its two defining facts. */
  lemma {:induction false} PrefixUnique(s: seq<Chapter>, done: Chapter -> bool, k: nat)
    requires k <= |s|
    requires forall j :: 0 <= j < k ==> done(s[j])
    requires k < |s| ==> !done(s[k])
    ensures CompletedPrefix(s, done) == k
  {
    if k > 0 {
      PrefixUnique(s[1..], done, k - 1);
    }
  }

  /**
   * The target is the first unfinished chapter in position order, every
   * chapter before it being finished; when all are finished, the first one.
   */
  lemma ResumeSpec(sorted: seq<Chapter>, done: Chapter -> bool, i: nat)
    requires i < |sorted| && sorted[i].id != ""
    requires forall j :: 0 <= j < i ==> done(sorted[j])
    requires !done(sorted[i])
    ensures TargetIn(sorted, done) == Some(Route(sorted[i].id))
  {
    PrefixUnique(sorted, done, i);
  }

  lemma AllDoneGoesToFirst(sorted: seq<Chapter>, done: Chapter -> bool)
    requires |sorted| > 0 && sorted[0].id != ""
    requires forall j :: 0 <= j < |sorted| ==> done(sorted[j])
    ensures TargetIn(sorted, done) == Some(Route(sorted[0].id))
  {
    PrefixUnique(sorted, done, |sorted|);
  }

  /** The chapters considered are exactly the course's chapters, ordered by position. */
  lemma ByPositionSpec(chapters: seq<Chapter>)
    ensures multiset(ByPosition(chapters)) == multiset(chapters)
    ensures forall i, j :: 0 <= i < j < |ByPosition(chapters)| ==>
      ByPosition(chapters)[i].position <= ByPosition(chapters)[j].position
  {
    StableSort.SortSpec(chapters, (c: Chapter) => c.position);
  }

  /**
   * As written: progress records carrying only the declared `isCompleted`
   * flag never count, so a learner who finished the first chapter is still
   * sent back to it.
   */
  lemma StoredFlagIgnored()
    ensures var c1 := Chapter("c1", 1, Some([Progress(None, true)]));
            var c2 := Chapter("c2", 2, Some([]));
            TargetIn([c1, c2], DoneAsWritten) == Some(Route("c1")) &&
            TargetIn([c1, c2], DoneIntended) == Some(Route("c2"))
  {
    var c1 := Chapter("c1", 1, Some([Progress(None, true)]));
    var c2 := Chapter("c2", 2, Some([]));
    assert Progress(None, true) in c1.userProgress.value;
    assert DoneIntended(c1) && !DoneIntended(c2);
    ResumeSpec([c1, c2], DoneAsWritten, 0);
    ResumeSpec([c1, c2], DoneIntended, 1);
  }
}
