/**
 * The rows of the learning-progress database (users, user progress, reading
 * words, achievements) and the completed-item counts that the server and the
 * parent dashboard both derive from progress rows.
 */
module Schema {
  import opened Tables

  /**
   * The `completed_items` jsonb column. Writers put an array of item ids
   * there, but the column type admits any JSON value, and every reader
   * counts a value that is not an array as zero items.
   */
  datatype Completed = Items(ids: seq<int>) | NotArray

  /** A profile. `lastActive` is `None` until the first touch. */
  datatype User = User(id: int, name: string, age: int, totalStars: int, lastActive: Option<int>)

  /**
   * One progress row. The natural key is (userId, activityType, level); `id`
   * is the serial surrogate. `updatedAt` is a day number or absent.
   */
  datatype ProgressRecord = ProgressRecord(
    id: int,
    userId: int,
    activityType: string,
    level: int,
    completedItems: Completed,
    totalItems: int,
    stars: int,
    updatedAt: Option<int>)

  datatype ReadingWord = ReadingWord(id: int, word: string, level: int, imageUrl: Option<string>)

  datatype Achievement = Achievement(
    id: int, userId: int, title: string, description: string, icon: string, earnedAt: string)

  /** The natural key of a progress row. */
  function KeyOf(r: ProgressRecord): (int, string, int) {
    (r.userId, r.activityType, r.level)
  }

  function OfType(activityType: string): ProgressRecord -> bool {
    (p: ProgressRecord) => p.activityType == activityType
  }

  function AtLevel(level: int): ProgressRecord -> bool {
    (p: ProgressRecord) => p.level == level
  }

  /** `Array.isArray(c) ? c.length : 0` */
  function CompletedCount(c: Completed): nat {
    match c
    case Items(ids) => |ids|
    case NotArray => 0
  }

  /** The sum of the completed counts of `rows` (the `reduce` shared by the server and the dashboard). */
  function TotalCompleted(rows: seq<ProgressRecord>): nat {
    if rows == [] then 0 else CompletedCount(rows[0].completedItems) + TotalCompleted(rows[1..])
  }

  /** The sum is additive over concatenated row lists. */
  lemma {:induction false} TotalCompletedAppend(a: seq<ProgressRecord>, b: seq<ProgressRecord>)
    ensures TotalCompleted(a + b) == TotalCompleted(a) + TotalCompleted(b)
  {
    if a == [] {
      assert a + b == b;
    } else {
      assert (a + b)[0] == a[0] && (a + b)[1..] == a[1..] + b;
      TotalCompletedAppend(a[1..], b);
    }
  }

  /** The sum depends on nothing but the rows' completed items. */
  lemma {:induction false} TotalCompletedOnlyItems(a: seq<ProgressRecord>, b: seq<ProgressRecord>)
    requires |a| == |b|
    requires forall i :: 0 <= i < |a| ==> a[i].completedItems == b[i].completedItems
    ensures TotalCompleted(a) == TotalCompleted(b)
  {
    if a != [] {
      TotalCompletedOnlyItems(a[1..], b[1..]);
    }
  }

  /**
   * Replacing one row that passes `keep` with another that passes it changes the
   * sum over the kept rows by the difference of the two rows' counts; a row that
   * fails `keep`, replaced by another that fails it, changes nothing.
   */
  lemma {:induction false} TotalCompletedFilterUpdate(s: seq<ProgressRecord>, keep: ProgressRecord -> bool, i: nat, v: ProgressRecord)
    requires i < |s| && keep(s[i]) == keep(v)
    ensures TotalCompleted(Filter(s[i := v], keep))
              + (if keep(v) then CompletedCount(s[i].completedItems) else 0)
            == TotalCompleted(Filter(s, keep))
              + (if keep(v) then CompletedCount(v.completedItems) else 0)
  {
    assert s[i := v][0] == if i == 0 then v else s[0];
    if i == 0 {
      assert s[i := v][1..] == s[1..];
    } else {
      assert s[i := v][1..] == s[1..][i - 1 := v];
      TotalCompletedFilterUpdate(s[1..], keep, i - 1, v);
    }
  }
}
