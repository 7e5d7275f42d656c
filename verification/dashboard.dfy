/**
 * The parent dashboard's figures, computed from the progress rows the server
 * returns for one user: six rows per activity type (one per level), seven
 * daily activity buckets for the current Monday-to-Sunday week, the total
 * learning time, and the chart's scale.
 *
 * Minutes are counted in half-minutes, so that 2.5 minutes per completed item
 * is the integer 5. Days are integer day numbers whose weekday, as
 * `Date.getDay` numbers it (0 = Sunday), is `day % 7`.
 */
module Dashboard {
  import opened Tables
  import opened Schema
  import Storage

  // ---------------------------------------------------------------------
  // One row per level
  // ---------------------------------------------------------------------

  /** A dashboard row: a stored progress row, or the default shown for a level without one. */
  datatype LevelRow =
    | Stored(record: ProgressRecord)
    | Placeholder(placeholderId: string, level: int, activityType: string, completedItems: seq<int>,
                  totalItems: int, stars: int, updatedAt: Option<int>)

  function RowLevel(row: LevelRow): int {
    match row
    case Stored(p) => p.level
    case Placeholder(_, level, _, _, _, _, _) => level
  }

  /** The placeholder id, `${activityType}-${level}`, for the single-digit levels 1 to 6. */
  function LevelLabel(activityType: string, level: int): string
    requires 1 <= level <= 6
  {
    activityType + "-" + [('0' as int + level) as char]
  }

  /** The first row of `rows` at `level`, or the default row. */
  function RowForLevel(rows: seq<ProgressRecord>, activityType: string, level: int, defaultTotal: int): LevelRow
    requires 1 <= level <= 6
  {
    match FindFirst(rows, AtLevel(level))
    case Some(i) => Stored(rows[i])
    case None => Placeholder(LevelLabel(activityType, level), level, activityType, [], defaultTotal, 0, None)
  }

  /** The rows of one activity type; an absent progress list counts as empty. */
  function RowsOfType(progress: Option<seq<ProgressRecord>>, activityType: string): seq<ProgressRecord> {
    match progress
    case Some(rows) => Filter(rows, OfType(activityType))
    case None => []
  }

  /** `Array.from({ length: 6 }, ...)`: levels 1 to 6, each the stored row or the default. */
  function CompleteProgress(progress: Option<seq<ProgressRecord>>, activityType: string, defaultTotal: int)
    : (r: seq<LevelRow>)
    ensures |r| == 6
  {
    var ofType := RowsOfType(progress, activityType);
    seq(6, i requires 0 <= i < 6 => RowForLevel(ofType, activityType, i + 1, defaultTotal))
  }

  /**
   * Each of the six rows has level i + 1. It is a stored row exactly when the
   * progress holds a row of that type and level, and is then one of them;
   * otherwise it is a default with no items, the given total, no stars and no date.
   */
  lemma CompleteProgressShape(progress: Option<seq<ProgressRecord>>, activityType: string, defaultTotal: int, i: nat)
    requires i < 6
    ensures var row := CompleteProgress(progress, activityType, defaultTotal)[i];
      && RowLevel(row) == i + 1
      && (row.Stored? <==> progress.Some? && exists p :: p in progress.value && p.activityType == activityType && p.level == i + 1)
      && (row.Stored? ==> row.record in progress.value && row.record.activityType == activityType && row.record.level == i + 1)
      && (row.Placeholder? ==>
            row.completedItems == [] && row.totalItems == defaultTotal && row.stars == 0 && row.updatedAt.None?
            && row.activityType == activityType)
  {
    var ofType := RowsOfType(progress, activityType);
    var row := CompleteProgress(progress, activityType, defaultTotal)[i];
    assert row == RowForLevel(ofType, activityType, i + 1, defaultTotal);
    match FindFirst(ofType, AtLevel(i + 1))
    case Some(k) =>
      assert ofType[k] in ofType;
    case None =>
      if progress.Some? {
        forall p | p in progress.value && p.activityType == activityType
          ensures p.level != i + 1
        {
          assert p in ofType;
          var k :| 0 <= k < |ofType| && ofType[k] == p;
        }
      }
  }

  /** With at most one row per (type, level), as the ledger keeps per user, the stored row is that row. */
  lemma CompleteProgressPicksTheRow(rows: seq<ProgressRecord>, activityType: string, defaultTotal: int, i: nat, p: ProgressRecord)
    requires i < 6
    requires forall a, b :: a in rows && b in rows && a.activityType == b.activityType && a.level == b.level ==> a == b
    requires p in rows && p.activityType == activityType && p.level == i + 1
    ensures CompleteProgress(Some(rows), activityType, defaultTotal)[i] == Stored(p)
  {
    CompleteProgressShape(Some(rows), activityType, defaultTotal, i);
  }

  /** The reading rows: default total 12 words per level. */
  function CompleteReadingProgress(progress: Option<seq<ProgressRecord>>): (r: seq<LevelRow>)
    ensures |r| == 6
    ensures forall i :: 0 <= i < 6 && r[i].Placeholder? ==>
      r[i].totalItems == 12 && r[i].activityType == "reading" && r[i].level == i + 1
  {
    var r := CompleteProgress(progress, "reading", 12);
    forall i | 0 <= i < 6 { CompleteProgressShape(progress, "reading", 12, i); }
    r
  }

  /** The math rows: default total 10 activities per level. */
  function CompleteMathProgress(progress: Option<seq<ProgressRecord>>): (r: seq<LevelRow>)
    ensures |r| == 6
    ensures forall i :: 0 <= i < 6 && r[i].Placeholder? ==>
      r[i].totalItems == 10 && r[i].activityType == "math" && r[i].level == i + 1
  {
    var r := CompleteProgress(progress, "math", 10);
    forall i | 0 <= i < 6 { CompleteProgressShape(progress, "math", 10, i); }
    r
  }

  // ---------------------------------------------------------------------
  // The current week
  // ---------------------------------------------------------------------

  /** `Date.getDay`: 0 is Sunday, 1 Monday, ..., 6 Saturday. */
  function Weekday(day: int): int { day % 7 }

  /** `(getDay() + 6) % 7`: how many days back the week's Monday lies. */
  function MondayOffset(today: int): int { (Weekday(today) + 6) % 7 }

  function MondayOf(today: int): int { today - MondayOffset(today) }

  /** The offset is 0..6, and the computed day is the Monday of the week that contains today. */
  lemma MondayOfWeek(today: int)
    ensures 0 <= MondayOffset(today) <= 6
    ensures Weekday(MondayOf(today)) == 1
    ensures MondayOf(today) <= today < MondayOf(today) + 7
  {
    var q := today / 7;
    var w := today % 7;
    assert today == 7 * q + w;
    if w == 0 {
      assert MondayOf(today) == 7 * (q - 1) + 1;
    } else {
      assert MondayOf(today) == 7 * q + 1;
    }
  }

  const WeekDayNames: seq<string> := ["Sun", "Mon", "Tue", "Wed", "Thu", "Fri", "Sat"]

  const Colors: seq<string> :=
    ["bg-red-400", "bg-green-400", "bg-blue-400", "bg-yellow-400", "bg-purple-400", "bg-pink-400", "bg-indigo-400"]

  const IdleColor: string := "bg-gray-200"

  /** The daily cap of 60 minutes, in half-minutes. */
  const DailyCap: nat := 120

  datatype DayActivity = DayActivity(day: string, halfMinutes: nat, color: string)

  function UpdatedOn(day: int): ProgressRecord -> bool {
    (p: ProgressRecord) => p.updatedAt == Some(day)
  }

  /** Items completed in the rows whose `updatedAt` falls on `day`; an undated row falls on no day. */
  function DayCompleted(progress: Option<seq<ProgressRecord>>, day: int): nat {
    match progress
    case Some(rows) => TotalCompleted(Filter(rows, UpdatedOn(day)))
    case None => 0
  }

  /** `Math.min(60, items * 2.5)`, in half-minutes. */
  function DayHalfMinutes(progress: Option<seq<ProgressRecord>>, day: int): (m: nat)
    ensures m <= DailyCap
    ensures m == 5 * DayCompleted(progress, day) || (m == DailyCap && 5 * DayCompleted(progress, day) > DailyCap)
  {
    Min(DailyCap, 5 * DayCompleted(progress, day))
  }

  /** Bucket `i` of the week that starts on `monday`. */
  function DayEntry(progress: Option<seq<ProgressRecord>>, monday: int, i: nat): (d: DayActivity)
    requires i < 7
    ensures d.halfMinutes <= DailyCap
  {
    var day := monday + i;
    var m := DayHalfMinutes(progress, day);
    DayActivity(WeekDayNames[Weekday(day)], m, if m > 0 then Colors[i % 7] else IdleColor)
  }

  /** `calculateWeeklyActivity`: seven buckets, Monday of today's week first. */
  function WeeklyActivity(progress: Option<seq<ProgressRecord>>, today: int): (r: seq<DayActivity>)
    ensures |r| == 7
    ensures forall i :: 0 <= i < 7 ==> r[i].halfMinutes <= DailyCap
  {
    var r := seq(7, i requires 0 <= i < 7 => DayEntry(progress, MondayOf(today), i));
    assert forall i :: 0 <= i < 7 ==> r[i] == DayEntry(progress, MondayOf(today), i);
    r
  }

  /** The weekday of the day i after a Monday. */
  lemma WeekdayAfterMonday(monday: int, i: nat)
    requires Weekday(monday) == 1 && i < 7
    ensures Weekday(monday + i) == if i == 6 then 0 else i + 1
  {
    assert monday == 7 * (monday / 7) + 1;
  }

  /**
   * Bucket i is the day Monday + i, so the buckets are named Mon, Tue, ..., Sun
   * in that order, and each holds min(60, 2.5 x items completed that day).
   */
  lemma WeeklyActivityDays(progress: Option<seq<ProgressRecord>>, today: int, i: nat)
    requires i < 7
    ensures var r := WeeklyActivity(progress, today);
      && r[i].day == ["Mon", "Tue", "Wed", "Thu", "Fri", "Sat", "Sun"][i]
      && r[i].halfMinutes == Min(DailyCap, 5 * DayCompleted(progress, MondayOf(today) + i))
      && (r[i].halfMinutes > 0 <==> DayCompleted(progress, MondayOf(today) + i) > 0)
  {
    MondayOfWeek(today);
    WeekdayAfterMonday(MondayOf(today), i);
    assert WeeklyActivity(progress, today)[i] == DayEntry(progress, MondayOf(today), i);
  }

  /** A row counts toward exactly one day: the one its `updatedAt` names, if any. */
  lemma DayCompletedAppend(rows: seq<ProgressRecord>, p: ProgressRecord, day: int)
    ensures DayCompleted(Some(rows + [p]), day)
         == DayCompleted(Some(rows), day) + (if p.updatedAt == Some(day) then CompletedCount(p.completedItems) else 0)
  {
    FilterAppend(rows, [p], UpdatedOn(day));
    TotalCompletedAppend(Filter(rows, UpdatedOn(day)), Filter([p], UpdatedOn(day)));
    assert [p][1..] == [];
  }

  /** A row last updated outside the current week, or never, leaves every bucket as it was. */
  lemma OutsideWeekIgnored(rows: seq<ProgressRecord>, p: ProgressRecord, today: int)
    requires p.updatedAt.None? || p.updatedAt.value < MondayOf(today) || p.updatedAt.value >= MondayOf(today) + 7
    ensures WeeklyActivity(Some(rows + [p]), today) == WeeklyActivity(Some(rows), today)
  {
    var monday := MondayOf(today);
    forall i | 0 <= i < 7
      ensures DayEntry(Some(rows + [p]), monday, i) == DayEntry(Some(rows), monday, i)
    {
      DayCompletedAppend(rows, p, monday + i);
    }
  }

  /** Rows that carry no `updatedAt`, which is every row the server writes, give an empty week. */
  lemma {:induction false} UndatedWeekIsEmpty(rows: seq<ProgressRecord>, today: int)
    requires forall j :: 0 <= j < |rows| ==> rows[j].updatedAt.None?
    ensures forall i :: 0 <= i < 7 ==> WeeklyActivity(Some(rows), today)[i].halfMinutes == 0
  {
    if rows == [] {
      forall i | 0 <= i < 7 ensures DayEntry(Some(rows), MondayOf(today), i).halfMinutes == 0 {
        assert Filter(rows, UpdatedOn(MondayOf(today) + i)) == [];
      }
    } else {
      var init := rows[..|rows| - 1];
      assert rows == init + [rows[|rows| - 1]];
      UndatedWeekIsEmpty(init, today);
      OutsideWeekIgnored(init, rows[|rows| - 1], today);
    }
  }

  // ---------------------------------------------------------------------
  // Totals
  // ---------------------------------------------------------------------

  /**
   * `calculateTotalSessionTime`: `Math.round(items * 2.5)` in whole minutes over
   * every row, dated or not; 0 when the progress list is absent. `Math.round`
   * rounds an exact half upwards.
   */
  function TotalSessionTime(progress: Option<seq<ProgressRecord>>): (minutes: nat)
    ensures progress.None? ==> minutes == 0
    ensures progress.Some? ==>
      2 * minutes == 5 * TotalCompleted(progress.value) || 2 * minutes == 5 * TotalCompleted(progress.value) + 1
  {
    match progress
    case None => 0
    case Some(rows) => (5 * TotalCompleted(rows) + 1) / 2
  }

  /** The total does not depend on when rows were updated. */
  lemma TotalSessionTimeIgnoresDates(rows: seq<ProgressRecord>, dates: seq<Option<int>>)
    requires |dates| == |rows|
    ensures TotalSessionTime(Some(seq(|rows|, i requires 0 <= i < |rows| => rows[i].(updatedAt := dates[i]))))
         == TotalSessionTime(Some(rows))
  {
    var redated := seq(|rows|, i requires 0 <= i < |rows| => rows[i].(updatedAt := dates[i]));
    TotalCompletedOnlyItems(redated, rows);
  }

  /**
   * On the rows the server returns for a user, the dashboard's total is the
   * server's `getSessionTime` for that user, rounded half up to whole minutes.
   */
  lemma TotalSessionTimeMatchesServer(db: seq<ProgressRecord>, userId: int)
    ensures TotalSessionTime(Some(Filter(db, Storage.OfUser(userId)))) == (Storage.SessionTime(db, userId) + 1) / 2
  {
  }

  /** `Math.max(10, ...minutes)` in half-minutes: at least 10 minutes and at least every bucket. */
  function MaxHalfMinutes(week: seq<DayActivity>): (m: nat)
    ensures m >= 20
    ensures forall i :: 0 <= i < |week| ==> week[i].halfMinutes <= m
    ensures m == 20 || exists i :: 0 <= i < |week| && week[i].halfMinutes == m
  {
    if week == [] then 20
    else
      var rest := MaxHalfMinutes(week[1..]);
      if week[0].halfMinutes > rest then week[0].halfMinutes else rest
  }
}
