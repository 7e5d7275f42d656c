/**
 * The reading page: one word of the current level at a time, a "next" and a
 * "previous" button, five level buttons, and a progress post each time a word
 * not yet completed is left with "next".
 *
 * The words of the level and the user's reading rows come from server queries;
 * they are parameters of the handlers rather than state of the page.
 */
module Reading {
  import opened Tables
  import opened Schema
  import opened Completion

  /** `Math.min(5, Math.floor(n / 2))`: one star per two words, at most five. */
  function ReadingStars(n: nat): (s: nat)
    ensures s <= 5
    ensures 2 * s <= n
    ensures s == 5 || n < 2 * s + 2
  {
    Min(5, n / 2)
  }

  /** Stars never go down as more words are completed, and five stars take exactly ten words. */
  lemma ReadingStarsMonotone(m: nat, n: nat)
    requires m <= n
    ensures ReadingStars(m) <= ReadingStars(n)
    ensures ReadingStars(n) == 5 <==> n >= 10
  {
  }

  /** The completed ids of the current level: those of the first of the user's reading rows at that level. */
  function CompletedWords(progress: Option<seq<ProgressRecord>>, level: int): (ids: seq<int>)
    ensures progress.None? ==> ids == []
    ensures ids != [] ==> progress.Some? && exists r :: r in progress.value && r.level == level && r.completedItems == Items(ids)
    ensures progress.Some? ==> forall i ::
      (0 <= i < |progress.value| && progress.value[i].level == level && forall j :: 0 <= j < i ==> progress.value[j].level != level)
      ==> ids == ItemIds(progress.value[i].completedItems)
  {
    CompletedList(progress, AtLevel(level))
  }

  /**
   * The payload "next" posts for the word `wordId`: nothing when the word is
   * already completed; otherwise the completed list with the word appended,
   * the stars for the new count, type "reading" and the current level.
   */
  function ReadingPost(userId: int, level: int, completed: seq<int>, wordId: int): (r: Option<ProgressPost>)
    ensures r.None? <==> wordId in completed
    ensures r.Some? ==> r.value.userId == userId && r.value.activityType == "reading" && r.value.level == level
    ensures r.Some? ==> Complete(completed, wordId) == Some(r.value.completedItems)
    ensures r.Some? ==> r.value.stars == ReadingStars(|completed| + 1) && r.value.stars <= 5
    ensures r.Some? && NoDuplicates(completed) ==> NoDuplicates(r.value.completedItems)
  {
    match Complete(completed, wordId)
    case None => None
    case Some(items) => Some(ProgressPost(userId, "reading", level, items, ReadingStars(|items|)))
  }

  /**
   * Posting twice for the same word, the second time with the list the first
   * post stored, sends nothing the second time.
   */
  lemma ReadingPostOnce(userId: int, level: int, completed: seq<int>, wordId: int)
    requires ReadingPost(userId, level, completed, wordId).Some?
    ensures ReadingPost(userId, level, ReadingPost(userId, level, completed, wordId).value.completedItems, wordId).None?
  {
    var items := ReadingPost(userId, level, completed, wordId).value.completedItems;
    assert items[|completed|] == wordId;
  }

  /** The page's own state: the level being read and the index of the word shown. */
  class ReadingSession {
    var level: int
    var wordIndex: int

    /** The level preselected on the home page, or level 1; the first word. */
    constructor (preselected: Option<int>)
      ensures level == (if preselected.Some? then preselected.value else 1)
      ensures wordIndex == 0
    {
      level := if preselected.Some? then preselected.value else 1;
      wordIndex := 0;
    }

    /**
     * `handleNextWord`. The page only renders, and so only offers the button,
     * when the level has words and the index names one of them. The post is
     * `ReadingPost` for the word shown and the ids completed at this level in
     * the user's reading rows `progress`; the index moves on unless the word is
     * the level's last, which instead completes the level.
     */
    method NextWord(userId: int, words: seq<ReadingWord>, progress: Option<seq<ProgressRecord>>)
      returns (post: Option<ProgressPost>, levelComplete: bool)
      requires 0 <= wordIndex < |words|
      modifies this`wordIndex
      ensures post == ReadingPost(userId, level, CompletedWords(progress, level), words[old(wordIndex)].id)
      ensures post.None? <==> words[old(wordIndex)].id in CompletedWords(progress, level)
      ensures levelComplete <==> old(wordIndex) == |words| - 1
      ensures wordIndex == if levelComplete then old(wordIndex) else old(wordIndex) + 1
      ensures 0 <= wordIndex < |words|
    {
      var completed := CompletedWords(progress, level);
      post := ReadingPost(userId, level, completed, words[wordIndex].id);
      if wordIndex < |words| - 1 {
        wordIndex := wordIndex + 1;
        levelComplete := false;
      } else {
        levelComplete := true;
      }
    }

    /** `handlePreviousWord`: back one word, except on the first. */
    method PreviousWord(words: seq<ReadingWord>)
      requires 0 <= wordIndex < |words|
      modifies this`wordIndex
      ensures wordIndex == if old(wordIndex) > 0 then old(wordIndex) - 1 else 0
      ensures 0 <= wordIndex < |words|
    {
      if wordIndex > 0 {
        wordIndex := wordIndex - 1;
      }
    }

    /** A level button: that level, from its first word. */
    method SelectLevel(newLevel: int)
      requires 1 <= newLevel <= 5
      modifies this
      ensures level == newLevel && wordIndex == 0
    {
      level := newLevel;
      wordIndex := 0;
    }
  }
}
