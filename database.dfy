/** The server's database layer: the `date_plans`, `user_comments`, `plan_likes` and
    `comment_likes` tables and the functions that read and write them. Each like table
    has a unique key on (entity id, device id), so it is a set of pairs; its entity id
    is a foreign key, so a like can only refer to an existing plan or comment. */
module Database {
  import opened Wrappers
  import opened Records
  import Sorting

  type LikeKey = (int, string)

  /** The columns of a `date_plans` row other than its id. */
  datatype PlanColumns = PlanColumns(
    plan: string, score: int, comment: Option<string>,
    age: Option<string>, occupation: Option<string>, gender: Option<string>,
    dateTime: Option<string>, dateNumber: Option<string>, location: Option<string>,
    cost: Option<string>, additionalNotes: Option<string>, subscores: Subscores)

  datatype PlanRow = PlanRow(id: int, cols: PlanColumns)

  /** A `user_comments` row; `createdAt` is the insertion timestamp. */
  datatype CommentRow = CommentRow(id: int, datePlanId: int, username: string, comment: string, createdAt: int)

  /** The devices that have liked entity `id` in a like table. */
  function Likers(likes: set<LikeKey>, id: int): (devices: set<string>)
    ensures forall d :: d in devices <==> (id, d) in likes
  {
    set k | k in likes && k.0 == id :: k.1
  }

  /** Adding a new like raises that entity's count by one and no other entity's. */
  lemma LikersAfterAdd(likes: set<LikeKey>, key: LikeKey, id: int)
    requires key !in likes
    ensures |Likers(likes + {key}, id)| == |Likers(likes, id)| + (if key.0 == id then 1 else 0)
  {
    if key.0 == id {
      assert Likers(likes + {key}, id) == Likers(likes, id) + {key.1};
    } else {
      assert Likers(likes + {key}, id) == Likers(likes, id);
    }
  }

  /** Removing an existing like lowers that entity's count by one and no other entity's. */
  lemma LikersAfterRemove(likes: set<LikeKey>, key: LikeKey, id: int)
    requires key in likes
    ensures |Likers(likes - {key}, id)| == |Likers(likes, id)| - (if key.0 == id then 1 else 0)
  {
    if key.0 == id {
      assert Likers(likes - {key}, id) == Likers(likes, id) - {key.1};
    } else {
      assert Likers(likes - {key}, id) == Likers(likes, id);
    }
  }

  predicate HasPlan(plans: seq<PlanRow>, id: int) {
    exists i :: 0 <= i < |plans| && plans[i].id == id
  }

  predicate HasComment(comments: seq<CommentRow>, id: int) {
    exists i :: 0 <= i < |comments| && comments[i].id == id
  }

  /** `ORDER BY score DESC` as an ascending sort key. */
  function ScoreDescKey(r: PlanRow): int { -r.cols.score }

  /** `ORDER BY created_at DESC` as an ascending sort key. */
  function NewestFirstKey(c: CommentRow): int { -c.createdAt }

  /** The rows of `plans` in the order of the ranking query. */
  function RankingOrder(plans: seq<PlanRow>): seq<PlanRow> {
    Sorting.SortBy(plans, ScoreDescKey)
  }

  /** `WHERE date_plan_id = planId`, in table order. */
  function CommentsOf(comments: seq<CommentRow>, planId: int): (r: seq<CommentRow>)
    ensures forall c :: c in r <==> c in comments && c.datePlanId == planId
  {
    if comments == [] then []
    else (if comments[0].datePlanId == planId then [comments[0]] else []) + CommentsOf(comments[1..], planId)
  }

  /** The comments of plan `planId` in the order of the comments query. */
  function NewestFirst(comments: seq<CommentRow>, planId: int): seq<CommentRow> {
    Sorting.SortBy(CommentsOf(comments, planId), NewestFirstKey)
  }

  /** The comments query returns exactly the plan's comments, each once per row. */
  lemma NewestFirstIsThePlansComments(comments: seq<CommentRow>, planId: int)
    ensures multiset(NewestFirst(comments, planId)) == multiset(CommentsOf(comments, planId))
    ensures forall c :: c in NewestFirst(comments, planId) <==> c in comments && c.datePlanId == planId
  {
    var r := NewestFirst(comments, planId);
    forall c ensures c in r <==> c in CommentsOf(comments, planId) {
      assert c in r <==> c in multiset(r);
    }
  }

  /** A ranking record: the row's columns with its like count attached. */
  function ToPost(r: PlanRow, likeCount: int): Post {
    Post(r.id, r.cols.plan, r.cols.score, r.cols.comment, r.cols.age, r.cols.occupation,
         r.cols.gender, r.cols.dateTime, r.cols.dateNumber, r.cols.location, r.cols.cost,
         r.cols.additionalNotes, Some(r.cols.subscores), Some(likeCount))
  }

  function ToCommentRecord(c: CommentRow, likeCount: int): CommentRecord {
    CommentRecord(c.id, c.username, c.comment, Some(c.createdAt), Some(likeCount))
  }

  /** A row with its score replaced by the recomputed one, if there is one. */
  function Rescored(r: PlanRow, scores: map<int, int>): PlanRow {
    if r.id in scores then r.(cols := r.cols.(score := scores[r.id])) else r
  }

  /** `get_likes_for_plans` / `get_likes_for_comments`: one entry per requested id,
      0 unless the grouped count query reports likes for it. */
  method CountLikes(likes: set<LikeKey>, ids: seq<int>) returns (counts: map<int, int>)
    ensures ids == [] ==> counts == map[]
    ensures forall id :: id in counts <==> id in ids
    ensures forall id :: id in counts ==> counts[id] == |Likers(likes, id)|
  {
    if ids == [] {
      return map[];
    }
    counts := map id | id in ids :: 0;
    // the rows of `SELECT id, COUNT(*) ... WHERE id IN (...) GROUP BY id`
    var grouped := set id | id in ids && |Likers(likes, id)| > 0 :: (id, |Likers(likes, id)|);
    var rest := grouped;
    while rest != {}
      invariant rest <= grouped
      invariant forall id :: id in counts <==> id in ids
      invariant forall id :: id in counts ==> counts[id] == 0 || counts[id] == |Likers(likes, id)|
      invariant forall id :: id in counts && (id, |Likers(likes, id)|) !in rest ==> counts[id] == |Likers(likes, id)|
      decreases rest
    {
      var row :| row in rest;
      counts := counts[row.0 := row.1];
      rest := rest - {row};
    }
  }

  class Db {
    var plans: seq<PlanRow>
    var comments: seq<CommentRow>
    var planLikes: set<LikeKey>
    var commentLikes: set<LikeKey>
    var nextPlanId: int
    var nextCommentId: int

    /** Auto-increment ids (positive, increasing, below the next one) and the foreign keys. */
    ghost predicate Valid()
      reads this
    {
      && 1 <= nextPlanId && 1 <= nextCommentId
      && (forall i :: 0 <= i < |plans| ==> 1 <= plans[i].id < nextPlanId)
      && (forall i, j :: 0 <= i < j < |plans| ==> plans[i].id < plans[j].id)
      && (forall i :: 0 <= i < |comments| ==> 1 <= comments[i].id < nextCommentId)
      && (forall i, j :: 0 <= i < j < |comments| ==> comments[i].id < comments[j].id)
      && (forall i :: 0 <= i < |comments| ==> HasPlan(plans, comments[i].datePlanId))
      && (forall k :: k in planLikes ==> HasPlan(plans, k.0))
      && (forall k :: k in commentLikes ==> HasComment(comments, k.0))
    }

    /** Freshly created, empty tables. */
    constructor ()
      ensures Valid()
      ensures plans == [] && comments == [] && planLikes == {} && commentLikes == {}
    {
      plans, comments := [], [];
      planLikes, commentLikes := {}, {};
      nextPlanId, nextCommentId := 1, 1;
    }

    /** `save_date_plan_detailed`: inserts exactly one row and returns its new id. */
    method SaveDatePlanDetailed(cols: PlanColumns) returns (planId: int)
      requires Valid()
      modifies this`plans, this`nextPlanId
      ensures Valid()
      ensures !HasPlan(old(plans), planId) && 1 <= planId
      ensures plans == old(plans) + [PlanRow(planId, cols)]
    {
      planId := nextPlanId;
      plans := plans + [PlanRow(planId, cols)];
      nextPlanId := nextPlanId + 1;
      assert forall i :: 0 <= i < |old(plans)| ==> plans[i] == old(plans)[i];
    }

    /** `save_user_comment`: inserts one comment. The foreign key rejects a plan id
        that does not exist (`saved` is false, the table is unchanged). */
    method SaveUserComment(datePlanId: int, username: string, comment: string, now: int) returns (saved: bool)
      requires Valid()
      modifies this`comments, this`nextCommentId
      ensures Valid()
      ensures saved <==> HasPlan(plans, datePlanId)
      ensures saved ==> exists id :: !HasComment(old(comments), id) &&
                          comments == old(comments) + [CommentRow(id, datePlanId, username, comment, now)]
      ensures !saved ==> comments == old(comments)
    {
      saved := HasPlan(plans, datePlanId);
      if saved {
        var id := nextCommentId;
        comments := comments + [CommentRow(id, datePlanId, username, comment, now)];
        nextCommentId := nextCommentId + 1;
        assert forall i :: 0 <= i < |old(comments)| ==> comments[i] == old(comments)[i];
        forall k | k in commentLikes ensures HasComment(comments, k.0) {
          var i :| 0 <= i < |old(comments)| && old(comments)[i].id == k.0;
          assert comments[i].id == k.0;
        }
      }
    }

    /** The `UPDATE date_plans SET score = ...` loop of `update_all_deviation_scores`,
        with the recomputed scores given by id. */
    method ApplyScores(scores: map<int, int>)
      requires Valid()
      modifies this`plans
      ensures Valid()
      ensures |plans| == |old(plans)|
      ensures forall i :: 0 <= i < |plans| ==> plans[i] == Rescored(old(plans)[i], scores)
    {
      var rows := plans;
      var i := 0;
      while i < |rows|
        invariant 0 <= i <= |rows| == |plans|
        invariant forall j :: 0 <= j < i ==> rows[j] == Rescored(plans[j], scores)
        invariant forall j :: i <= j < |rows| ==> rows[j] == plans[j]
      {
        rows := rows[i := Rescored(rows[i], scores)];
        i := i + 1;
      }
      assert forall j :: 0 <= j < |rows| ==> rows[j].id == plans[j].id;
      forall id | HasPlan(plans, id) ensures HasPlan(rows, id) {
        var j :| 0 <= j < |plans| && plans[j].id == id;
        assert rows[j].id == id;
      }
      plans := rows;
    }

    /** `get_ranking`: every plan, highest score first, each with its like count. */
    method GetRanking() returns (ranking: seq<Post>)
      ensures |ranking| == |plans|
      ensures forall i :: 0 <= i < |ranking| ==>
                ranking[i] == ToPost(RankingOrder(plans)[i], |Likers(planLikes, RankingOrder(plans)[i].id)|)
      ensures forall i, j :: 0 <= i < j < |ranking| ==> ranking[i].score >= ranking[j].score
    {
      var rows := RankingOrder(plans);
      var ids := seq(|rows|, i requires 0 <= i < |rows| => rows[i].id);
      var likes := GetLikesForPlans(ids);
      ranking := [];
      var i := 0;
      while i < |rows|
        invariant 0 <= i <= |rows|
        invariant |ranking| == i
        invariant forall j :: 0 <= j < i ==> ranking[j] == ToPost(rows[j], |Likers(planLikes, rows[j].id)|)
      {
        assert rows[i].id == ids[i];
        ranking := ranking + [ToPost(rows[i], if rows[i].id in likes then likes[rows[i].id] else 0)];
        i := i + 1;
      }
      assert Sorting.SortedBy(rows, ScoreDescKey);
    }

    /** `get_user_comments`: the comments of one plan, newest first, each with its like count. */
    method GetUserComments(datePlanId: int) returns (list: seq<CommentRecord>)
      ensures |list| == |NewestFirst(comments, datePlanId)|
      ensures forall i :: 0 <= i < |list| ==>
                list[i] == ToCommentRecord(NewestFirst(comments, datePlanId)[i],
                                           |Likers(commentLikes, NewestFirst(comments, datePlanId)[i].id)|)
      ensures forall i, j :: 0 <= i < j < |list| ==>
                list[i].createdAt.Some? && list[j].createdAt.Some? &&
                list[i].createdAt.value >= list[j].createdAt.value
    {
      var rows := NewestFirst(comments, datePlanId);
      var ids := seq(|rows|, i requires 0 <= i < |rows| => rows[i].id);
      var likes := GetLikesForComments(ids);
      list := [];
      var i := 0;
      while i < |rows|
        invariant 0 <= i <= |rows|
        invariant |list| == i
        invariant forall j :: 0 <= j < i ==> list[j] == ToCommentRecord(rows[j], |Likers(commentLikes, rows[j].id)|)
      {
        assert rows[i].id == ids[i];
        list := list + [ToCommentRecord(rows[i], if rows[i].id in likes then likes[rows[i].id] else 0)];
        i := i + 1;
      }
      assert Sorting.SortedBy(rows, NewestFirstKey);
    }

    /** `save_plan_like`: true when the like was new and the plan exists;
        otherwise the insert fails and nothing changes. */
    method SavePlanLike(datePlanId: int, deviceId: string) returns (saved: bool)
      requires Valid()
      modifies this`planLikes
      ensures Valid()
      ensures saved <==> (datePlanId, deviceId) !in old(planLikes) && HasPlan(plans, datePlanId)
      ensures planLikes == if saved then old(planLikes) + {(datePlanId, deviceId)} else old(planLikes)
    {
      saved := (datePlanId, deviceId) !in planLikes && HasPlan(plans, datePlanId);
      if saved {
        planLikes := planLikes + {(datePlanId, deviceId)};
      }
    }

    /** `remove_plan_like`: true exactly when the like existed; afterwards it does not. */
    method RemovePlanLike(datePlanId: int, deviceId: string) returns (removed: bool)
      requires Valid()
      modifies this`planLikes
      ensures Valid()
      ensures removed <==> (datePlanId, deviceId) in old(planLikes)
      ensures planLikes == old(planLikes) - {(datePlanId, deviceId)}
    {
      removed := (datePlanId, deviceId) in planLikes;
      planLikes := planLikes - {(datePlanId, deviceId)};
    }

    /** `check_plan_liked`. */
    method CheckPlanLiked(datePlanId: int, deviceId: string) returns (liked: bool)
      ensures liked <==> (datePlanId, deviceId) in planLikes
      ensures liked <==> deviceId in Likers(planLikes, datePlanId)
    {
      liked := (datePlanId, deviceId) in planLikes;
    }

    /** `get_plan_like_count`: the number of devices that like the plan. */
    method GetPlanLikeCount(datePlanId: int) returns (count: int)
      ensures count == |Likers(planLikes, datePlanId)|
      ensures count <= |planLikes|
    {
      count := |Likers(planLikes, datePlanId)|;
      LikersBound(planLikes, datePlanId);
    }

    /** `get_likes_for_plans`. */
    method GetLikesForPlans(ids: seq<int>) returns (counts: map<int, int>)
      ensures ids == [] ==> counts == map[]
      ensures forall id :: id in counts <==> id in ids
      ensures forall id :: id in counts ==> counts[id] == |Likers(planLikes, id)|
    {
      counts := CountLikes(planLikes, ids);
    }

    /** `save_comment_like`: as `SavePlanLike`, for comments. */
    method SaveCommentLike(commentId: int, deviceId: string) returns (saved: bool)
      requires Valid()
      modifies this`commentLikes
      ensures Valid()
      ensures saved <==> (commentId, deviceId) !in old(commentLikes) && HasComment(comments, commentId)
      ensures commentLikes == if saved then old(commentLikes) + {(commentId, deviceId)} else old(commentLikes)
    {
      saved := (commentId, deviceId) !in commentLikes && HasComment(comments, commentId);
      if saved {
        commentLikes := commentLikes + {(commentId, deviceId)};
      }
    }

    /** `remove_comment_like`. */
    method RemoveCommentLike(commentId: int, deviceId: string) returns (removed: bool)
      requires Valid()
      modifies this`commentLikes
      ensures Valid()
      ensures removed <==> (commentId, deviceId) in old(commentLikes)
      ensures commentLikes == old(commentLikes) - {(commentId, deviceId)}
    {
      removed := (commentId, deviceId) in commentLikes;
      commentLikes := commentLikes - {(commentId, deviceId)};
    }

    /** `check_comment_liked`. */
    method CheckCommentLiked(commentId: int, deviceId: string) returns (liked: bool)
      ensures liked <==> (commentId, deviceId) in commentLikes
      ensures liked <==> deviceId in Likers(commentLikes, commentId)
    {
      liked := (commentId, deviceId) in commentLikes;
    }

    /** `get_comment_like_count`. */
    method GetCommentLikeCount(commentId: int) returns (count: int)
      ensures count == |Likers(commentLikes, commentId)|
      ensures count <= |commentLikes|
    {
      count := |Likers(commentLikes, commentId)|;
      LikersBound(commentLikes, commentId);
    }

    /** `get_likes_for_comments`. */
    method GetLikesForComments(ids: seq<int>) returns (counts: map<int, int>)
      ensures ids == [] ==> counts == map[]
      ensures forall id :: id in counts <==> id in ids
      ensures forall id :: id in counts ==> counts[id] == |Likers(commentLikes, id)|
    {
      counts := CountLikes(commentLikes, ids);
    }
  }

  /** An entity cannot have more likes than the table has rows. */
  lemma LikersBound(likes: set<LikeKey>, id: int)
    ensures |Likers(likes, id)| <= |likes|
  {
    var pairs := set k | k in likes && k.0 == id;
    var devices := Likers(likes, id);
    assert devices == set k | k in pairs :: k.1;
    CardinalityOfImage(pairs, devices);
    SubsetCardinality(pairs, likes);
  }

  lemma {:induction false} SubsetCardinality<T>(a: set<T>, b: set<T>)
    requires a <= b
    ensures |a| <= |b|
    decreases |b|
  {
    if a != {} {
      var x :| x in a;
      SubsetCardinality(a - {x}, b - {x});
    }
  }

  /** Projecting a set of pairs onto their second component does not make it larger. */
  lemma {:induction false} CardinalityOfImage(pairs: set<LikeKey>, devices: set<string>)
    requires devices == set k | k in pairs :: k.1
    ensures |devices| <= |pairs|
    decreases |pairs|
  {
    if pairs != {} {
      var k :| k in pairs;
      var rest := pairs - {k};
      var restDevices := set p | p in rest :: p.1;
      CardinalityOfImage(rest, restDevices);
      assert devices <= restDevices + {k.1};
      SubsetCardinality(devices, restDevices + {k.1});
    }
  }
}
