/**
 * The counting page: the activities of math level 1, one at a time, four
 * answer buttons built around the correct count, and a progress post for
 * user 1 each time an activity not yet completed is answered correctly.
 *
 * `Math.random` is replaced by explicit inputs: the draws of
 * `Math.floor(Math.random() * 6)` the option loop consumes, and the choices
 * that decide the order the random-comparator sort leaves the options in.
 */
module MathPage {
  import opened Tables
  import opened Schema
  import opened Completion

  /** A counting activity: its id and the count that answers it. */
  datatype Activity = Activity(id: int, answer: int)

  const CorrectFeedback: string := "🎉 Great job! That's correct!"
  const TryAgainFeedback: string := "🤔 Try again! Count carefully."

  /** `Math.min(5, n)`: one star per activity, at most five. */
  function MathStars(n: nat): (s: nat)
    ensures s <= 5 && s <= n
    ensures s == 5 || s == n
  {
    Min(5, n)
  }

  /** The page looks up its completed ids in the first level-1 math row. */
  function MathRow(): ProgressRecord -> bool {
    (p: ProgressRecord) => p.level == 1 && p.activityType == "math"
  }

  /**
   * The payload posted after a correct answer to activity `activityId`:
   * nothing when it is already completed; otherwise the completed list with
   * the id appended and the stars for the new count, always for user 1,
   * type "math", level 1.
   */
  function MathPost(completed: seq<int>, activityId: int): (r: Option<ProgressPost>)
    ensures r.None? <==> activityId in completed
    ensures r.Some? ==> r.value.userId == 1 && r.value.activityType == "math" && r.value.level == 1
    ensures r.Some? ==> Complete(completed, activityId) == Some(r.value.completedItems)
    ensures r.Some? ==> r.value.stars == MathStars(|completed| + 1) && r.value.stars <= 5
    ensures r.Some? && NoDuplicates(completed) ==> NoDuplicates(r.value.completedItems)
  {
    match Complete(completed, activityId)
    case None => None
    case Some(items) => Some(ProgressPost(1, "math", 1, items, MathStars(|items|)))
  }

  /** The page's own state: the activity shown, the answer chosen and the feedback banner. */
  class MathSession {
    var activityIndex: int
    var selectedAnswer: Option<int>
    var feedback: string
    var showFeedback: bool

    constructor ()
      ensures activityIndex == 0 && selectedAnswer.None? && feedback == "" && !showFeedback
    {
      activityIndex := 0;
      selectedAnswer := None;
      feedback := "";
      showFeedback := false;
    }

    /**
     * `handleAnswerSelect`, up to its timers. The page only renders when the
     * activities have loaded and the index names one of them. The answer is
     * shown as chosen with its feedback; a correct answer schedules
     * `MathPost`, a wrong one schedules nothing. The activity does not change
     * here: that is `FeedbackElapsed`.
     */
    method AnswerSelect(answer: int, activities: seq<Activity>, progress: Option<seq<ProgressRecord>>)
      returns (scheduled: Option<ProgressPost>)
      requires 0 <= activityIndex < |activities|
      modifies this`selectedAnswer, this`feedback, this`showFeedback
      ensures selectedAnswer == Some(answer) && showFeedback
      ensures var activity := activities[activityIndex];
        if answer == activity.answer then
          feedback == CorrectFeedback && scheduled == MathPost(CompletedList(progress, MathRow()), activity.id)
        else
          feedback == TryAgainFeedback && scheduled.None?
    {
      selectedAnswer := Some(answer);
      showFeedback := true;
      var activity := activities[activityIndex];
      if answer == activity.answer {
        feedback := CorrectFeedback;
        scheduled := MathPost(CompletedList(progress, MathRow()), activity.id);
      } else {
        feedback := TryAgainFeedback;
        scheduled := None;
      }
    }

    /**
     * The three-second timer `handleAnswerSelect` starts, for an answer given
     * while activity `clickIndex` was shown. It hides the banner and, when the
     * answer was correct and the activity not the last, moves to the activity
     * after `clickIndex` and clears the answer. Because it counts from the
     * index seen at the click, two timers from the same activity move on once.
     */
    method FeedbackElapsed(answer: int, clickIndex: int, activities: seq<Activity>)
      requires 0 <= clickIndex < |activities|
      modifies this`showFeedback, this`activityIndex, this`selectedAnswer
      ensures !showFeedback
      ensures if answer == activities[clickIndex].answer && clickIndex < |activities| - 1
        then activityIndex == clickIndex + 1 && selectedAnswer.None?
        else activityIndex == old(activityIndex) && selectedAnswer == old(selectedAnswer)
      ensures 0 <= old(activityIndex) < |activities| ==> 0 <= activityIndex < |activities|
    {
      showFeedback := false;
      if answer == activities[clickIndex].answer && clickIndex < |activities| - 1 {
        activityIndex := clickIndex + 1;
        selectedAnswer := None;
      }
    }
  }

  // ---------------------------------------------------------------------
  // Answer options
  // ---------------------------------------------------------------------

  /** `Math.max(1, correct + draw - 3)` for a draw in 0..5. */
  function Candidate(correct: int, draw: int): int {
    Max(1, correct + draw - 3)
  }

  predicate ValidDraws(draws: seq<int>) {
    forall k :: 0 <= k < |draws| ==> 0 <= draws[k] < 6
  }

  /**
   * The option list after the loop has consumed `draws`, starting from
   * `options`: each draw's candidate is pushed unless already present, and
   * the loop stops at four options.
   */
  function Fill(options: seq<int>, correct: int, draws: seq<int>): seq<int>
    decreases |draws|
  {
    if |options| >= 4 || draws == [] then options
    else
      var option := Candidate(correct, draws[0]);
      Fill(if option in options then options else options + [option], correct, draws[1..])
  }

  /** The correct answer first, then distinct wrong ones, each in the candidate range. */
  ghost predicate WellFormedOptions(options: seq<int>, correct: int) {
    && 1 <= |options| <= 4
    && options[0] == correct
    && NoDuplicates(options)
    && forall k :: 1 <= k < |options| ==> Max(1, correct - 3) <= options[k] <= Max(1, correct + 2)
  }

  /**
   * The loop keeps its options well formed, only ever appends, and stops
   * short of four options only when every draw's candidate is already there.
   */
  lemma {:induction false} FillWellFormed(options: seq<int>, correct: int, draws: seq<int>)
    requires WellFormedOptions(options, correct) && ValidDraws(draws)
    ensures var r := Fill(options, correct, draws);
      && WellFormedOptions(r, correct)
      && options <= r
      && (|r| < 4 ==> forall k :: 0 <= k < |draws| ==> Candidate(correct, draws[k]) in r)
    decreases |draws|
  {
    if |options| < 4 && draws != [] {
      var option := Candidate(correct, draws[0]);
      var next := if option in options then options else options + [option];
      if option !in options {
        AppendFreshNoDuplicates(options, option);
      }
      assert WellFormedOptions(next, correct);
      FillWellFormed(next, correct, draws[1..]);
      var r := Fill(next, correct, draws[1..]);
      if |r| < 4 {
        forall k | 0 <= k < |draws| ensures Candidate(correct, draws[k]) in r {
          if k == 0 {
            assert option in next;
            assert next[|next| - 1] == option || option in options;
          } else {
            assert draws[k] == draws[1..][k - 1];
          }
        }
      }
    }
  }

  /**
   * With a correct answer of 1 or less, every candidate lies in {1, 2, 3}
   * (in {1, 2} below 1), so no draws ever make four distinct options: the
   * loop, drawing for ever, never ends.
   */
  lemma FillStuckBelowTwo(correct: int, draws: seq<int>)
    requires correct <= 1 && ValidDraws(draws)
    ensures |Fill([correct], correct, draws)| <= 3
  {
    FillWellFormed([correct], correct, draws);
    var r := Fill([correct], correct, draws);
    var bound := if correct == 1 then {1, 2, 3} else {correct, 1, 2};
    forall x | x in r ensures x in bound {
      var k :| 0 <= k < |r| && r[k] == x;
    }
    NoDuplicatesWithin(r, bound);
  }

  /** From 2 up, three draws suffice: 2, 4 and 5 give one below and two above. */
  lemma FillEndsFromTwo(correct: int)
    requires correct >= 2
    ensures Fill([correct], correct, [2, 4, 5]) == [correct, correct - 1, correct + 1, correct + 2]
  {
    var c := correct;
    var d1: seq<int> := [2, 4, 5];
    var d2 := d1[1..];
    var d3 := d2[1..];
    assert d2 == [4, 5] && d3 == [5] && d3[1..] == [];
    var o1 := [c];
    var o2 := o1 + [c - 1];
    var o3 := o2 + [c + 1];
    var o4 := o3 + [c + 2];
    assert Candidate(c, d1[0]) == c - 1 && c - 1 !in o1;
    assert Fill(o1, c, d1) == Fill(o2, c, d2);
    assert Candidate(c, d2[0]) == c + 1 && c + 1 !in o2;
    assert Fill(o2, c, d2) == Fill(o3, c, d3);
    assert Candidate(c, d3[0]) == c + 2 && c + 2 !in o3;
    assert Fill(o3, c, d3) == Fill(o4, c, d3[1..]) == o4;
  }

  /**
   * `options.sort(() => Math.random() - 0.5)`, as a reordering chosen by
   * `picks`: each step moves the remaining element at `picks[0]` (the first,
   * when no pick or one past the end is left) to the front of the result.
   */
  function RandomOrder(s: seq<int>, picks: seq<nat>): (r: seq<int>)
    ensures multiset(r) == multiset(s)
    decreases |s|
  {
    if s == [] then []
    else
      var k := if picks == [] || picks[0] >= |s| then 0 else picks[0];
      assert s == s[..k] + [s[k]] + s[k + 1..];
      [s[k]] + RandomOrder(s[..k] + s[k + 1..], if picks == [] then [] else picks[1..])
  }

  /** Taking out the element at `k` takes one copy of it out of the multiset. */
  lemma RemoveAtMultiset(s: seq<int>, k: nat)
    requires k < |s|
    ensures multiset(s[..k] + s[k + 1..]) + multiset{s[k]} == multiset(s)
  {
    assert s == s[..k] + [s[k]] + s[k + 1..];
  }

  lemma MultisetCancel(a: multiset<int>, b: multiset<int>, x: int)
    requires a + multiset{x} == b + multiset{x}
    ensures a == b
  {
    forall y ensures a[y] == b[y] {
      assert (a + multiset{x})[y] == (b + multiset{x})[y];
    }
  }

  /** A first pick in range chooses the first element of the result. */
  lemma RandomOrderFront(s: seq<int>, k: nat, rest: seq<nat>)
    requires k < |s|
    ensures RandomOrder(s, [k] + rest) == [s[k]] + RandomOrder(s[..k] + s[k + 1..], rest)
  {
    assert ([k] + rest)[1..] == rest;
  }

  /** Where in `s` the first element of a reordering `t` of it sits, and what is left on both sides. */
  lemma MatchFirst(s: seq<int>, t: seq<int>) returns (k: nat)
    requires multiset(s) == multiset(t) && s != []
    ensures t != [] && k < |s| && s[k] == t[0]
    ensures multiset(s[..k] + s[k + 1..]) == multiset(t[1..])
  {
    assert |t| == |multiset(t)| == |s|;
    assert t[0] in multiset(s);
    k :| 0 <= k < |s| && s[k] == t[0];
    RemoveAtMultiset(s, k);
    RemoveAtMultiset(t, 0);
    assert t[..0] + t[1..] == t[1..];
    MultisetCancel(multiset(s[..k] + s[k + 1..]), multiset(t[1..]), t[0]);
  }

  /** Every reordering of `s` is one `RandomOrder` can give: the model admits any order. */
  lemma {:induction false} RandomOrderReachesAll(s: seq<int>, t: seq<int>) returns (picks: seq<nat>)
    requires multiset(s) == multiset(t)
    ensures RandomOrder(s, picks) == t
    decreases |s|
  {
    if s == [] {
      assert |t| == |multiset(t)| == 0;
      picks := [];
    } else {
      var k := MatchFirst(s, t);
      var rest := RandomOrderReachesAll(s[..k] + s[k + 1..], t[1..]);
      RandomOrderFront(s, k, rest);
      picks := [k] + rest;
      assert t == [t[0]] + t[1..];
    }
  }

  /**
   * `generateAnswerOptions`: the loop over `draws`, then the shuffle. Once it
   * has four options, or has used every draw, it holds the correct answer and
   * distinct wrong answers in [max(1, c - 3), max(1, c + 2)]; short of four
   * options, every draw's candidate was tried.
   */
  method GenerateAnswerOptions(correct: int, draws: seq<int>, picks: seq<nat>) returns (options: seq<int>)
    requires ValidDraws(draws)
    ensures multiset(options) == multiset(Fill([correct], correct, draws))
    ensures correct in options && NoDuplicates(options) && |options| <= 4
    ensures forall x :: x in options && x != correct ==> Max(1, correct - 3) <= x <= Max(1, correct + 2)
    ensures |options| < 4 ==> forall k :: 0 <= k < |draws| ==> Candidate(correct, draws[k]) in options
  {
    var built := [correct];
    var used := 0;
    assert draws[0..] == draws;
    while |built| < 4 && used < |draws|
      invariant 0 <= used <= |draws|
      invariant Fill(built, correct, draws[used..]) == Fill([correct], correct, draws)
    {
      var option := Candidate(correct, draws[used]);
      assert draws[used..][1..] == draws[used + 1..];
      if option !in built {
        built := built + [option];
      }
      used := used + 1;
    }
    assert used < |draws| ==> draws[used..] != [];
    assert Fill(built, correct, draws[used..]) == built;
    FillWellFormed([correct], correct, draws);
    options := RandomOrder(built, picks);
    assert built[0] == correct;
    assert forall x :: x in options <==> x in multiset(built);
    forall x | x in options && x != correct ensures Max(1, correct - 3) <= x <= Max(1, correct + 2) {
      var k :| 0 <= k < |built| && built[k] == x;
    }
  }

  // ---------------------------------------------------------------------
  // The name `Math` inside the counting page
  // ---------------------------------------------------------------------

  /**
   * What `Math` denotes where the page's code calls `Math.min`, `Math.max`
   * and `Math.floor`. The module declares its page component under the name
   * `Math`, and that declaration shadows the global object in the whole
   * module: as written, the calls reach the component, which has no such
   * properties. Only the `random` calls go through `globalThis.Math`. The
   * members above read every call as the global object's, which is what the
   * page evidently means.
   */
  datatype MathBinding = GlobalMath | PageComponent

  /** The outcome of evaluating an expression: a value, or a thrown `TypeError`. */
  datatype Evaluated<T> = Value(value: T) | TypeError

  /** `Math.min(a, b)`: calling a property the component lacks throws. */
  function MathMin(m: MathBinding, a: int, b: int): Evaluated<int> {
    if m == GlobalMath then Value(Min(a, b)) else TypeError
  }

  function MathMax(m: MathBinding, a: int, b: int): Evaluated<int> {
    if m == GlobalMath then Value(Max(a, b)) else TypeError
  }

  function MathFloor(m: MathBinding, x: real): Evaluated<int> {
    if m == GlobalMath then Value(x.Floor) else TypeError
  }

  /** The draw `Math.floor(random * 6)` under the global object. */
  function Draws(randoms: seq<real>): (draws: seq<int>)
    ensures |draws| == |randoms|
    ensures forall k :: 0 <= k < |randoms| ==> draws[k] == (randoms[k] * 6.0).Floor
  {
    seq(|randoms|, k requires 0 <= k < |randoms| => (randoms[k] * 6.0).Floor)
  }

  /** Random values in [0, 1) give draws in 0..5. */
  lemma DrawsValid(randoms: seq<real>)
    requires forall k :: 0 <= k < |randoms| ==> 0.0 <= randoms[k] < 1.0
    ensures ValidDraws(Draws(randoms))
  {
    forall k | 0 <= k < |randoms| ensures 0 <= Draws(randoms)[k] < 6 {
      assert randoms[k] * 6.0 < 6.0 by {
        assert (1.0 - randoms[k]) * 6.0 > 0.0;
      }
    }
  }

  /** The candidate of the loop body, `Math.max(1, correct + Math.floor(random * 6) - 3)`. */
  function CandidateUnder(m: MathBinding, correct: int, random: real): Evaluated<int> {
    match MathFloor(m, random * 6.0)
    case TypeError => TypeError
    case Value(draw) => MathMax(m, 1, correct + draw - 3)
  }

  /** The option loop evaluated under `m`, one random value per iteration; a throw ends it. */
  function FillUnder(m: MathBinding, options: seq<int>, correct: int, randoms: seq<real>): Evaluated<seq<int>>
    decreases |randoms|
  {
    if |options| >= 4 || randoms == [] then Value(options)
    else
      match CandidateUnder(m, correct, randoms[0])
      case TypeError => TypeError
      case Value(option) =>
        FillUnder(m, if option in options then options else options + [option], correct, randoms[1..])
  }

  /** Under the global object the loop is `Fill` on the draws. */
  lemma {:induction false} FillUnderGlobalMath(options: seq<int>, correct: int, randoms: seq<real>)
    ensures FillUnder(GlobalMath, options, correct, randoms) == Value(Fill(options, correct, Draws(randoms)))
    decreases |randoms|
  {
    if |options| < 4 && randoms != [] {
      assert Draws(randoms)[1..] == Draws(randoms[1..]);
      var option := Candidate(correct, Draws(randoms)[0]);
      FillUnderGlobalMath(if option in options then options else options + [option], correct, randoms[1..]);
    }
  }

  /**
   * As written, the first iteration of the loop throws, whatever the
   * correct answer and the random value: the page cannot render its answer
   * buttons at all.
   */
  lemma FillAsWrittenThrows(correct: int, randoms: seq<real>)
    requires randoms != []
    ensures FillUnder(PageComponent, [correct], correct, randoms) == TypeError
  {
  }

  /** The payload of a correct answer under `m`: the stars come from `Math.min(5, n)`. */
  function MathPostUnder(m: MathBinding, completed: seq<int>, activityId: int): Evaluated<Option<ProgressPost>> {
    if activityId in completed then Value(None)
    else
      var items := completed + [activityId];
      match MathMin(m, 5, |items|)
      case TypeError => TypeError
      case Value(stars) => Value(Some(ProgressPost(1, "math", 1, items, stars)))
  }

  /** Under the global object the payload is `MathPost`. */
  lemma MathPostUnderGlobalMath(completed: seq<int>, activityId: int)
    ensures MathPostUnder(GlobalMath, completed, activityId) == Value(MathPost(completed, activityId))
  {
  }

  /**
   * As written, a correct answer to an activity not yet completed throws
   * while computing the stars, before any post is scheduled; an activity
   * already completed evaluates to no post.
   */
  lemma MathPostAsWrittenThrows(completed: seq<int>, activityId: int)
    ensures MathPostUnder(PageComponent, completed, activityId) == TypeError <==> activityId !in completed
    ensures activityId in completed ==> MathPostUnder(PageComponent, completed, activityId) == Value(None)
  {
  }
}
