/**
 * What the reading and counting pages share: reading the completed-item ids
 * of one progress row out of the progress list the server returned, marking
 * one more item completed, and the progress payload posted to the server.
 */
module Completion {
  import opened Tables
  import opened Schema
  import Storage

  /** The body of `POST /api/progress`, which the server hands to the progress upsert. */
  datatype ProgressPost = ProgressPost(userId: int, activityType: string, level: int, completedItems: seq<int>, stars: int)

  /** The ids a `completed_items` value holds; a value that is not an array holds none. */
  function ItemIds(c: Completed): (ids: seq<int>)
    ensures c.Items? ==> ids == c.ids
    ensures c.NotArray? ==> ids == []
  {
    match c
    case Items(ids) => ids
    case NotArray => []
  }

  /**
   * `progress?.find(p)?.completedItems || []`: the ids of the first row that
   * satisfies `p`; no list, no such row, or a value that is not an array all
   * give the empty list.
   */
  function CompletedList(progress: Option<seq<ProgressRecord>>, p: ProgressRecord -> bool): (ids: seq<int>)
    ensures progress.None? ==> ids == []
    ensures progress.Some? && (forall r :: r in progress.value ==> !p(r)) ==> ids == []
    ensures ids != [] ==> exists r :: r in progress.value && p(r) && r.completedItems == Items(ids)
    ensures progress.Some? ==> forall i ::
      (0 <= i < |progress.value| && p(progress.value[i]) && forall j :: 0 <= j < i ==> !p(progress.value[j]))
      ==> ids == ItemIds(progress.value[i].completedItems)
  {
    match progress
    case None => []
    case Some(rows) =>
      match FindFirst(rows, p)
      case None => []
      case Some(i) =>
        match rows[i].completedItems
        case Items(ids) => ids
        case NotArray => []
  }

  /**
   * `[...completed, id]` when `id` is not yet among `completed`, and nothing
   * otherwise: an item is recorded once, at the end, and never twice.
   */
  function Complete(completed: seq<int>, id: int): (r: Option<seq<int>>)
    ensures r.None? <==> id in completed
    ensures r.Some? ==> |r.value| == |completed| + 1 && r.value[..|completed|] == completed && r.value[|completed|] == id
    ensures r.Some? ==> multiset(r.value) == multiset(completed) + multiset{id}
    ensures r.Some? && NoDuplicates(completed) ==> NoDuplicates(r.value)
  {
    if id in completed then None
    else
      var next := completed + [id];
      assert next[..|completed|] == completed;
      AppendFreshNoDuplicates(completed, id);
      Some(next)
  }

  /**
   * After the server upserts a posted payload, the page that posted it reads
   * the posted ids back: the first row of the user's rows of that type at
   * that level is the upserted one.
   */
  lemma PostReadBack(rows: seq<ProgressRecord>, post: ProgressPost, newId: int)
    requires Storage.KeysUnique(rows)
    ensures var after := Storage.Upsert(rows, post.userId, post.activityType, post.level, post.completedItems, post.stars, newId);
      CompletedList(Some(Filter(after, Storage.OfUserAndType(post.userId, post.activityType))), AtLevel(post.level))
        == post.completedItems
  {
    var key := Storage.WithKey(post.userId, post.activityType, post.level);
    var after := Storage.Upsert(rows, post.userId, post.activityType, post.level, post.completedItems, post.stars, newId);
    var mine := Filter(after, Storage.OfUserAndType(post.userId, post.activityType));
    Storage.UpsertKeyHoldsLatest(rows, post.userId, post.activityType, post.level, post.completedItems, post.stars, newId);
    var i :| 0 <= i < |after| && key(after[i]) && after[i].completedItems == Items(post.completedItems)
      && forall j :: 0 <= j < |after| && key(after[j]) ==> j == i;
    assert after[i] in mine;
    var k :| 0 <= k < |mine| && mine[k] == after[i];
    assert AtLevel(post.level)(mine[k]);
    var f := FindFirst(mine, AtLevel(post.level)).value;
    assert mine[f] in mine;
    var j :| 0 <= j < |after| && after[j] == mine[f];
    assert key(after[j]);
  }
}
