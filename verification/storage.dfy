/**
 * The server's database storage: four tables (users, user progress,
 * achievements, reading words) held as sequences of rows, each with its own
 * serial id sequence. The pure functions below give the meaning of the
 * progress upsert and of the session-time estimate; the class
 * `DatabaseStorage` performs the same operations in place.
 */
module Storage {
  import opened Tables
  import opened Schema

  datatype StorageError = UserNotFound | WordNotFound

  datatype Result<T> = Ok(value: T) | Err(error: StorageError)

  /** The `total_items` written into a progress row created by a first completion. */
  const DefaultTotalItems: int := 10

  // ---------------------------------------------------------------------
  // Row selections (the conditions of the WHERE clauses)
  // ---------------------------------------------------------------------

  function UserId(u: User): int { u.id }
  function RecordId(r: ProgressRecord): int { r.id }
  function AchievementId(a: Achievement): int { a.id }
  function WordId(w: ReadingWord): int { w.id }

  function UserWithId(id: int): User -> bool { (u: User) => u.id == id }
  function UserNotWithId(id: int): User -> bool { (u: User) => u.id != id }
  function OfUser(userId: int): ProgressRecord -> bool { (r: ProgressRecord) => r.userId == userId }
  function NotOfUser(userId: int): ProgressRecord -> bool { (r: ProgressRecord) => r.userId != userId }
  function OfUserAndType(userId: int, activityType: string): ProgressRecord -> bool {
    (r: ProgressRecord) => r.userId == userId && r.activityType == activityType
  }
  function NotOfUserAndType(userId: int, activityType: string): ProgressRecord -> bool {
    (r: ProgressRecord) => !(r.userId == userId && r.activityType == activityType)
  }
  function WithKey(userId: int, activityType: string, level: int): ProgressRecord -> bool {
    (r: ProgressRecord) => r.userId == userId && r.activityType == activityType && r.level == level
  }
  function WithoutKey(userId: int, activityType: string, level: int): ProgressRecord -> bool {
    (r: ProgressRecord) => !(r.userId == userId && r.activityType == activityType && r.level == level)
  }
  function AchievementOfUser(userId: int): Achievement -> bool { (a: Achievement) => a.userId == userId }
  function AchievementNotOfUser(userId: int): Achievement -> bool { (a: Achievement) => a.userId != userId }
  function WordWithId(id: int): ReadingWord -> bool { (w: ReadingWord) => w.id == id }
  function WordNotWithId(id: int): ReadingWord -> bool { (w: ReadingWord) => w.id != id }
  function WordOfLevel(level: int): ReadingWord -> bool { (w: ReadingWord) => w.level == level }

  /** At most one progress row per (userId, activityType, level). */
  ghost predicate KeysUnique(rows: seq<ProgressRecord>) {
    DistinctBy(rows, KeyOf)
  }

  // ---------------------------------------------------------------------
  // The progress upsert
  // ---------------------------------------------------------------------

  /**
   * The progress table after `updateProgress`: the first row with the key gets
   * the new completed items and stars; without such a row, one new row is
   * appended with id `newId` and the default total. Nothing stamps `updatedAt`.
   */
  function Upsert(rows: seq<ProgressRecord>, userId: int, activityType: string, level: int,
                  items: seq<int>, stars: int, newId: int): seq<ProgressRecord>
  {
    match FindFirst(rows, WithKey(userId, activityType, level))
    case Some(i) => rows[i := rows[i].(completedItems := Items(items), stars := stars)]
    case None =>
      rows + [ProgressRecord(newId, userId, activityType, level, Items(items), DefaultTotalItems, stars, None)]
  }

  /** An existing row for the key has its completed items and stars replaced wholesale; nothing else moves. */
  lemma UpsertReplacesExisting(rows: seq<ProgressRecord>, userId: int, activityType: string, level: int,
                               items: seq<int>, stars: int, newId: int, i: nat)
    requires KeysUnique(rows)
    requires i < |rows| && WithKey(userId, activityType, level)(rows[i])
    ensures var r := Upsert(rows, userId, activityType, level, items, stars, newId);
      && |r| == |rows|
      && r[i].completedItems == Items(items) && r[i].stars == stars
      && r[i].id == rows[i].id && r[i].userId == rows[i].userId
      && r[i].activityType == rows[i].activityType && r[i].level == rows[i].level
      && r[i].totalItems == rows[i].totalItems && r[i].updatedAt == rows[i].updatedAt
      && forall j :: 0 <= j < |rows| && j != i ==> r[j] == rows[j]
  {
    var k := FindFirst(rows, WithKey(userId, activityType, level)).value;
    assert KeyOf(rows[k]) == KeyOf(rows[i]);
  }

  /** Without a row for the key, exactly one new row is appended, carrying the payload and 10 total items. */
  lemma UpsertAppendsNew(rows: seq<ProgressRecord>, userId: int, activityType: string, level: int,
                         items: seq<int>, stars: int, newId: int)
    requires forall j :: 0 <= j < |rows| ==> !WithKey(userId, activityType, level)(rows[j])
    ensures Upsert(rows, userId, activityType, level, items, stars, newId)
         == rows + [ProgressRecord(newId, userId, activityType, level, Items(items), 10, stars, None)]
  {
  }

  /** The upsert preserves "at most one row per key". */
  lemma UpsertKeepsKeysUnique(rows: seq<ProgressRecord>, userId: int, activityType: string, level: int,
                              items: seq<int>, stars: int, newId: int)
    requires KeysUnique(rows)
    ensures KeysUnique(Upsert(rows, userId, activityType, level, items, stars, newId))
  {
    var r := Upsert(rows, userId, activityType, level, items, stars, newId);
    match FindFirst(rows, WithKey(userId, activityType, level))
    case Some(i) =>
      assert forall j :: 0 <= j < |r| ==> KeyOf(r[j]) == KeyOf(rows[j]);
    case None =>
      forall i, j | 0 <= i < j < |r| ensures KeyOf(r[i]) != KeyOf(r[j]) {
        if j == |rows| {
          assert !WithKey(userId, activityType, level)(rows[i]);
        } else {
          assert r[i] == rows[i] && r[j] == rows[j];
        }
      }
  }

  /** Afterwards exactly one row has the key, and it holds the latest payload. */
  lemma UpsertKeyHoldsLatest(rows: seq<ProgressRecord>, userId: int, activityType: string, level: int,
                             items: seq<int>, stars: int, newId: int)
    requires KeysUnique(rows)
    ensures var r := Upsert(rows, userId, activityType, level, items, stars, newId);
      exists i :: 0 <= i < |r| && WithKey(userId, activityType, level)(r[i])
        && r[i].completedItems == Items(items) && r[i].stars == stars
        && forall j :: 0 <= j < |r| && WithKey(userId, activityType, level)(r[j]) ==> j == i
  {
    var r := Upsert(rows, userId, activityType, level, items, stars, newId);
    UpsertKeepsKeysUnique(rows, userId, activityType, level, items, stars, newId);
    var i := match FindFirst(rows, WithKey(userId, activityType, level))
      case Some(k) => k
      case None => |rows|;
    assert WithKey(userId, activityType, level)(r[i]);
    forall j | 0 <= j < |r| && WithKey(userId, activityType, level)(r[j]) ensures j == i {
      assert KeyOf(r[j]) == KeyOf(r[i]);
    }
  }

  /** Rows with any other key are exactly as they were, in the same order. */
  lemma UpsertLeavesOtherKeys(rows: seq<ProgressRecord>, userId: int, activityType: string, level: int,
                              items: seq<int>, stars: int, newId: int)
    ensures Filter(Upsert(rows, userId, activityType, level, items, stars, newId), WithoutKey(userId, activityType, level))
         == Filter(rows, WithoutKey(userId, activityType, level))
  {
    var keep := WithoutKey(userId, activityType, level);
    match FindFirst(rows, WithKey(userId, activityType, level))
    case Some(i) =>
      FilterUpdateHidden(rows, keep, i, rows[i].(completedItems := Items(items), stars := stars));
    case None =>
      var n := ProgressRecord(newId, userId, activityType, level, Items(items), DefaultTotalItems, stars, None);
      FilterAppend(rows, [n], keep);
      assert Filter([n], keep) == [];
  }

  /** Two upserts of one key leave the table as the second one alone would, under the first one's id. */
  lemma UpsertTwice(rows: seq<ProgressRecord>, userId: int, activityType: string, level: int,
                    items1: seq<int>, stars1: int, id1: int, items2: seq<int>, stars2: int, id2: int)
    ensures Upsert(Upsert(rows, userId, activityType, level, items1, stars1, id1), userId, activityType, level, items2, stars2, id2)
         == Upsert(rows, userId, activityType, level, items2, stars2, id1)
  {
    var p := WithKey(userId, activityType, level);
    var r1 := Upsert(rows, userId, activityType, level, items1, stars1, id1);
    match FindFirst(rows, p)
    case Some(i) =>
      assert p(r1[i]);
      var k := FindFirst(r1, p).value;
      assert k == i;
      assert r1[i := r1[i].(completedItems := Items(items2), stars := stars2)]
          == rows[i := rows[i].(completedItems := Items(items2), stars := stars2)];
    case None =>
      assert p(r1[|rows|]);
      var k := FindFirst(r1, p).value;
      assert k == |rows|;
      assert r1[k := r1[k].(completedItems := Items(items2), stars := stars2)]
          == rows + [ProgressRecord(id1, userId, activityType, level, Items(items2), DefaultTotalItems, stars2, None)];
  }

  /** Repeating an upsert with the same arguments changes nothing. */
  lemma UpsertIdempotent(rows: seq<ProgressRecord>, userId: int, activityType: string, level: int,
                         items: seq<int>, stars: int, id1: int, id2: int)
    ensures var once := Upsert(rows, userId, activityType, level, items, stars, id1);
      Upsert(once, userId, activityType, level, items, stars, id2) == once
  {
    UpsertTwice(rows, userId, activityType, level, items, stars, id1, items, stars, id2);
  }

  /** The upsert never dates a row: a table without dated rows stays without them. */
  lemma UpsertKeepsUndated(rows: seq<ProgressRecord>, userId: int, activityType: string, level: int,
                           items: seq<int>, stars: int, newId: int)
    requires forall j :: 0 <= j < |rows| ==> rows[j].updatedAt.None?
    ensures var r := Upsert(rows, userId, activityType, level, items, stars, newId);
      forall j :: 0 <= j < |r| ==> r[j].updatedAt.None?
  {
  }

  // ---------------------------------------------------------------------
  // Session time
  // ---------------------------------------------------------------------

  /**
   * `getSessionTime`: 2.5 minutes per completed item over the user's rows,
   * counted in half-minutes (5 per item).
   */
  function SessionTime(rows: seq<ProgressRecord>, userId: int): (t: nat)
    ensures t % 5 == 0
    ensures t == 0 <==> forall x :: x in rows && x.userId == userId ==> CompletedCount(x.completedItems) == 0
  {
    TotalCompletedZero(Filter(rows, OfUser(userId)));
    5 * TotalCompleted(Filter(rows, OfUser(userId)))
  }

  lemma {:induction false} TotalCompletedZero(rows: seq<ProgressRecord>)
    ensures TotalCompleted(rows) == 0 <==> forall x :: x in rows ==> CompletedCount(x.completedItems) == 0
  {
    if rows != [] {
      TotalCompletedZero(rows[1..]);
      assert rows == [rows[0]] + rows[1..];
    }
  }

  /**
   * After an upsert for one user, that user's session time changes by 2.5 minutes
   * per item of the difference between the new items and the replaced ones;
   * every other user's session time is unchanged.
   */
  lemma SessionTimeAfterUpsert(rows: seq<ProgressRecord>, userId: int, activityType: string, level: int,
                               items: seq<int>, stars: int, newId: int, who: int)
    ensures var before := match FindFirst(rows, WithKey(userId, activityType, level))
                          case Some(i) => CompletedCount(rows[i].completedItems)
                          case None => 0;
      SessionTime(Upsert(rows, userId, activityType, level, items, stars, newId), who)
        + (if who == userId then 5 * before else 0)
      == SessionTime(rows, who) + (if who == userId then 5 * |items| else 0)
  {
    var keep := OfUser(who);
    match FindFirst(rows, WithKey(userId, activityType, level))
    case Some(i) =>
      var v := rows[i].(completedItems := Items(items), stars := stars);
      TotalCompletedFilterUpdate(rows, keep, i, v);
    case None =>
      var n := ProgressRecord(newId, userId, activityType, level, Items(items), DefaultTotalItems, stars, None);
      FilterAppend(rows, [n], keep);
      TotalCompletedAppend(Filter(rows, keep), Filter([n], keep));
      assert TotalCompleted(Filter([n], keep)) == if who == userId then |items| else 0 by {
        assert [n][1..] == [];
      }
  }

  // ---------------------------------------------------------------------
  // The storage object
  // ---------------------------------------------------------------------

  /** `users.name`/`users.age` as an `updateUser` patch supplies them. */
  datatype UserPatch = UserPatch(name: Option<string>, age: Option<int>)

  /** The row a patch produces: the named fields take the patch's values, all others keep theirs. */
  function ApplyPatch(u: User, patch: UserPatch): (r: User)
    ensures r.id == u.id && r.totalStars == u.totalStars && r.lastActive == u.lastActive
    ensures r.name == (if patch.name.Some? then patch.name.value else u.name)
    ensures r.age == (if patch.age.Some? then patch.age.value else u.age)
  {
    var named := if patch.name.Some? then u.(name := patch.name.value) else u;
    if patch.age.Some? then named.(age := patch.age.value) else named
  }

  class DatabaseStorage {
    var users: seq<User>
    var progress: seq<ProgressRecord>
    var achievements: seq<Achievement>
    var readingWords: seq<ReadingWord>
    // The next value of each table's serial id sequence.
    var nextUserId: int
    var nextProgressId: int
    var nextAchievementId: int
    var nextWordId: int

    /** Ids are unique and below their sequence, and progress rows are unique per key. */
    ghost predicate Valid()
      reads this
    {
      && DistinctBy(users, UserId) && AllBelow(users, UserId, nextUserId)
      && DistinctBy(progress, RecordId) && AllBelow(progress, RecordId, nextProgressId)
      && KeysUnique(progress)
      && DistinctBy(achievements, AchievementId) && AllBelow(achievements, AchievementId, nextAchievementId)
      && DistinctBy(readingWords, WordId) && AllBelow(readingWords, WordId, nextWordId)
    }

    constructor ()
      ensures Valid()
      ensures users == [] && progress == [] && achievements == [] && readingWords == []
    {
      users, progress, achievements, readingWords := [], [], [], [];
      nextUserId, nextProgressId, nextAchievementId, nextWordId := 1, 1, 1, 1;
    }

    // ----- users -----

    /** `getUser`: the row with the id, if any. */
    function GetUser(id: int): (r: Option<User>)
      reads this
      ensures r.Some? ==> r.value in users && r.value.id == id
      ensures r.None? <==> forall u :: u in users ==> u.id != id
    {
      match FindFirst(users, UserWithId(id))
      case Some(i) => Some(users[i])
      case None => None
    }

    /** `createUser`: a fresh row with zero stars, whatever the caller supplied. */
    method CreateUser(name: string, age: int) returns (user: User)
      requires Valid()
      modifies this`users, this`nextUserId
      ensures Valid()
      ensures user.id == old(nextUserId) && user.name == name && user.age == age
      ensures user.totalStars == 0 && user.lastActive.None?
      ensures users == old(users) + [user]
      ensures nextUserId == old(nextUserId) + 1
    {
      user := User(nextUserId, name, age, 0, None);
      users := users + [user];
      nextUserId := nextUserId + 1;
    }

    /** The shared shape of the three user updates: UPDATE users SET ... WHERE id = ? RETURNING *. */
    method UpdateUserWhere(id: int, change: User -> User) returns (r: Result<User>)
      requires Valid()
      requires forall u :: change(u).id == u.id
      modifies this`users
      ensures Valid()
      ensures r.Err? <==> forall u :: u in old(users) ==> u.id != id
      ensures r.Err? ==> r.error == UserNotFound
      ensures users == UpdateWhere(old(users), UserWithId(id), change)
      ensures r.Ok? ==> exists i :: 0 <= i < |users| && old(users)[i].id == id
                                  && r.value == users[i] == change(old(users)[i])
    {
      var found := FindFirst(users, UserWithId(id));
      var before := users;
      users := UpdateWhere(before, UserWithId(id), change);
      assert forall i :: 0 <= i < |users| ==> users[i].id == before[i].id;
      if found.None? {
        assert forall u :: u in before ==> u.id != id;
        r := Err(UserNotFound);
      } else {
        r := Ok(users[found.value]);
      }
    }

    /** `updateUser`: patches name and age; fails with "User not found" when no row has the id. */
    method UpdateUser(id: int, patch: UserPatch) returns (r: Result<User>)
      requires Valid()
      modifies this`users
      ensures Valid()
      ensures r.Err? <==> forall u :: u in old(users) ==> u.id != id
      ensures r.Err? ==> r.error == UserNotFound && users == old(users)
      ensures users == UpdateWhere(old(users), UserWithId(id), (u: User) => ApplyPatch(u, patch))
      ensures r.Ok? ==> r.value in users && exists u :: u in old(users) && u.id == id && r.value == ApplyPatch(u, patch)
    {
      r := UpdateUserWhere(id, (u: User) => ApplyPatch(u, patch));
    }

    /** `updateUserStars`: sets (does not add to) the total; fails with "User not found" when no row has the id. */
    method UpdateUserStars(id: int, stars: int) returns (r: Result<User>)
      requires Valid()
      modifies this`users
      ensures Valid()
      ensures r.Err? <==> forall u :: u in old(users) ==> u.id != id
      ensures r.Err? ==> r.error == UserNotFound && users == old(users)
      ensures users == UpdateWhere(old(users), UserWithId(id), (u: User) => u.(totalStars := stars))
      ensures r.Ok? ==> r.value in users && r.value.id == id && r.value.totalStars == stars
      ensures forall i :: 0 <= i < |users| && users[i].id != id ==> users[i] == old(users)[i]
    {
      r := UpdateUserWhere(id, (u: User) => u.(totalStars := stars));
    }

    /** `updateUserLastActive`: stamps the given day (the clock is a parameter). */
    method UpdateUserLastActive(id: int, now: int) returns (r: Result<User>)
      requires Valid()
      modifies this`users
      ensures Valid()
      ensures r.Err? <==> forall u :: u in old(users) ==> u.id != id
      ensures r.Err? ==> r.error == UserNotFound && users == old(users)
      ensures users == UpdateWhere(old(users), UserWithId(id), (u: User) => u.(lastActive := Some(now)))
      ensures r.Ok? ==> r.value in users && r.value.id == id && r.value.lastActive == Some(now)
    {
      r := UpdateUserWhere(id, (u: User) => u.(lastActive := Some(now)));
    }

    /** `getSessionTime`, in half-minutes: 5 per item completed in any of the user's rows. */
    function GetSessionTime(userId: int): (t: nat)
      reads this
      ensures t % 5 == 0
      ensures t == 0 <==> forall x :: x in progress && x.userId == userId ==> CompletedCount(x.completedItems) == 0
    {
      SessionTime(progress, userId)
    }

    /** `deleteUser`: the user's progress rows, achievements and own row go; every other row stays, in order. */
    method DeleteUser(id: int)
      requires Valid()
      modifies this`users, this`progress, this`achievements
      ensures Valid()
      ensures progress == Filter(old(progress), NotOfUser(id))
      ensures achievements == Filter(old(achievements), AchievementNotOfUser(id))
      ensures users == Filter(old(users), UserNotWithId(id))
      ensures forall r :: r in progress <==> r in old(progress) && r.userId != id
      ensures forall a :: a in achievements <==> a in old(achievements) && a.userId != id
      ensures forall u :: u in users <==> u in old(users) && u.id != id
    {
      ClearUserProgress(id);
      ClearUserAchievements(id);
      FilterDistinct(users, UserNotWithId(id), UserId);
      users := Filter(users, UserNotWithId(id));
    }

    // ----- progress -----

    /** `getUserProgress`: exactly the user's rows. */
    function GetUserProgress(userId: int): (rows: seq<ProgressRecord>)
      reads this
      ensures forall x :: x in rows <==> x in progress && x.userId == userId
    {
      Filter(progress, OfUser(userId))
    }

    /** `getProgressByType`: exactly the user's rows of one activity type (the two WHEREs read as a conjunction). */
    function GetProgressByType(userId: int, activityType: string): (rows: seq<ProgressRecord>)
      reads this
      ensures forall x :: x in rows <==> x in progress && x.userId == userId && x.activityType == activityType
    {
      Filter(progress, OfUserAndType(userId, activityType))
    }

    /** `updateProgress`: the upsert by (userId, activityType, level); returns the row written. */
    method UpdateProgress(userId: int, activityType: string, level: int, items: seq<int>, stars: int)
      returns (rec: ProgressRecord)
      requires Valid()
      modifies this`progress, this`nextProgressId
      ensures Valid()
      ensures progress == Upsert(old(progress), userId, activityType, level, items, stars, old(nextProgressId))
      ensures rec in progress && WithKey(userId, activityType, level)(rec)
      ensures rec.completedItems == Items(items) && rec.stars == stars
      ensures |progress| == old(|progress|) || (|progress| == old(|progress|) + 1 && rec.id == old(nextProgressId))
      ensures nextProgressId == old(nextProgressId) + (|progress| - old(|progress|))
    {
      var found := FindFirst(progress, WithKey(userId, activityType, level));
      UpsertKeepsKeysUnique(progress, userId, activityType, level, items, stars, nextProgressId);
      var before := progress;
      progress := Upsert(before, userId, activityType, level, items, stars, nextProgressId);
      match found
      case Some(i) =>
        assert forall j :: 0 <= j < |progress| ==> progress[j].id == before[j].id;
        assert forall x :: x in progress ==> x.id < nextProgressId by {
          forall x | x in progress ensures x.id < nextProgressId {
            var j :| 0 <= j < |progress| && progress[j] == x;
            assert before[j] in before;
          }
        }
        rec := progress[i];
      case None =>
        rec := progress[|before|];
        nextProgressId := nextProgressId + 1;
    }

    /** `clearUserProgress`: exactly the user's progress rows go. */
    method ClearUserProgress(userId: int)
      requires Valid()
      modifies this`progress
      ensures Valid()
      ensures progress == Filter(old(progress), NotOfUser(userId))
      ensures forall r :: r in progress <==> r in old(progress) && r.userId != userId
    {
      FilterDistinct(progress, NotOfUser(userId), RecordId);
      FilterDistinct(progress, NotOfUser(userId), KeyOf);
      progress := Filter(progress, NotOfUser(userId));
    }

    /** `clearUserProgressByType`: exactly the user's rows of that type go (the two WHEREs read as a conjunction). */
    method ClearUserProgressByType(userId: int, activityType: string)
      requires Valid()
      modifies this`progress
      ensures Valid()
      ensures progress == Filter(old(progress), NotOfUserAndType(userId, activityType))
      ensures forall r :: r in progress <==>
                r in old(progress) && !(r.userId == userId && r.activityType == activityType)
    {
      FilterDistinct(progress, NotOfUserAndType(userId, activityType), RecordId);
      FilterDistinct(progress, NotOfUserAndType(userId, activityType), KeyOf);
      progress := Filter(progress, NotOfUserAndType(userId, activityType));
    }

    // ----- reading words -----

    /** `getReadingWords`: exactly the words of one level, in table order. */
    function GetReadingWords(level: int): (words: seq<ReadingWord>)
      reads this
      ensures forall w :: w in words <==> w in readingWords && w.level == level
    {
      Filter(readingWords, WordOfLevel(level))
    }

    /** `addReadingWord`: appends a row under the next serial id. */
    method AddReadingWord(word: string, imageUrl: string, level: int) returns (w: ReadingWord)
      requires Valid()
      modifies this`readingWords, this`nextWordId
      ensures Valid()
      ensures w == ReadingWord(old(nextWordId), word, level, Some(imageUrl))
      ensures readingWords == old(readingWords) + [w]
      ensures nextWordId == old(nextWordId) + 1
    {
      w := ReadingWord(nextWordId, word, level, Some(imageUrl));
      readingWords := readingWords + [w];
      nextWordId := nextWordId + 1;
    }

    /** `updateReadingWord`: overwrites word, image and level of the row; fails with "Word not found". */
    method UpdateReadingWord(id: int, word: string, imageUrl: string, level: int) returns (r: Result<ReadingWord>)
      requires Valid()
      modifies this`readingWords
      ensures Valid()
      ensures r.Err? <==> forall w :: w in old(readingWords) ==> w.id != id
      ensures r.Err? ==> r.error == WordNotFound && readingWords == old(readingWords)
      ensures readingWords == UpdateWhere(old(readingWords), WordWithId(id),
                                          (w: ReadingWord) => ReadingWord(w.id, word, level, Some(imageUrl)))
      ensures r.Ok? ==> r.value == ReadingWord(id, word, level, Some(imageUrl)) && r.value in readingWords
    {
      var found := FindFirst(readingWords, WordWithId(id));
      var before := readingWords;
      readingWords := UpdateWhere(before, WordWithId(id), (w: ReadingWord) => ReadingWord(w.id, word, level, Some(imageUrl)));
      assert forall i :: 0 <= i < |readingWords| ==> readingWords[i].id == before[i].id;
      if found.None? {
        r := Err(WordNotFound);
      } else {
        r := Ok(readingWords[found.value]);
      }
    }

    /** `deleteReadingWord`: the row with the id goes (if there is one); every other word stays. */
    method DeleteReadingWord(id: int)
      requires Valid()
      modifies this`readingWords
      ensures Valid()
      ensures readingWords == Filter(old(readingWords), WordNotWithId(id))
      ensures forall w :: w in readingWords <==> w in old(readingWords) && w.id != id
    {
      FilterDistinct(readingWords, WordNotWithId(id), WordId);
      readingWords := Filter(readingWords, WordNotWithId(id));
    }

    // ----- achievements -----

    /** `getUserAchievements`: exactly the user's achievements. */
    function GetUserAchievements(userId: int): (rows: seq<Achievement>)
      reads this
      ensures forall a :: a in rows <==> a in achievements && a.userId == userId
    {
      Filter(achievements, AchievementOfUser(userId))
    }

    /** `addAchievement`: appends a row under the next serial id. */
    method AddAchievement(userId: int, title: string, description: string, icon: string, earnedAt: string)
      returns (a: Achievement)
      requires Valid()
      modifies this`achievements, this`nextAchievementId
      ensures Valid()
      ensures a == Achievement(old(nextAchievementId), userId, title, description, icon, earnedAt)
      ensures achievements == old(achievements) + [a]
      ensures nextAchievementId == old(nextAchievementId) + 1
    {
      a := Achievement(nextAchievementId, userId, title, description, icon, earnedAt);
      achievements := achievements + [a];
      nextAchievementId := nextAchievementId + 1;
    }

    /** `clearUserAchievements`: exactly the user's achievements go. */
    method ClearUserAchievements(userId: int)
      requires Valid()
      modifies this`achievements
      ensures Valid()
      ensures achievements == Filter(old(achievements), AchievementNotOfUser(userId))
      ensures forall a :: a in achievements <==> a in old(achievements) && a.userId != userId
    {
      FilterDistinct(achievements, AchievementNotOfUser(userId), AchievementId);
      achievements := Filter(achievements, AchievementNotOfUser(userId));
    }
  }
}
