/** The HTTP endpoints of the API server over the database model: plan scoring,
    comments, like toggling and like status, and AI suggestions. The AI evaluator,
    the composite and deviation scores and the clock are inputs. */
module Api {
  import opened Wrappers
  import opened Text
  import opened Records
  import opened Database
  import opened Moderation
  import Sorting

  /** A reply with an HTTP status: the JSON body, or an `HTTPException`'s status and detail. */
  datatype Reply<T> = Ok(body: T) | HttpError(status: int, detail: string)

  const NgWordDetail := "不適切な単語が含まれています。"
  const InternalErrorDetail := "サーバー内部でエラーが発生しました。"
  const AiErrorDetail := "AIによるプランの考案に失敗しました。"
  const CommentPosted := "コメントが正常に投稿されました"
  const MissingEvaluation := "評価コメントの取得に失敗しました。"
  const LikeRemoved := "いいねを解除しました"
  const LikeAdded := "いいねしました"
  const AddFailed := "いいねの追加に失敗しました"

  datatype DatePlanRequest = DatePlanRequest(
    age: string, occupation: string, gender: string, date: string, dayOfWeek: string,
    timeOfDay: string, dateNumber: string, location: string, cost: string, additionalNotes: string)

  datatype CommentRequest = CommentRequest(datePlanId: int, username: string, comment: string)
  datatype PlanLikeRequest = PlanLikeRequest(datePlanId: int, deviceId: string)
  datatype CommentLikeRequest = CommentLikeRequest(commentId: int, deviceId: string)
  datatype AiPlanRequest = AiPlanRequest(userInput: string)

  /** What the AI evaluator returned; a missing key reads as 0 (or the fixed comment). */
  datatype AiEvaluation = AiEvaluation(
    ageAppropriateness: Option<int>, costEffectiveness: Option<int>, creativity: Option<int>,
    balance: Option<int>, relationshipProgress: Option<int>, comment: Option<string>)

  datatype ScoreReply = ScoreReply(score: int, comment: string, plan: string, detailedScores: Subscores)

  /** The body of a like toggle: HTTP 200 either way, with an `error` key on failure. */
  datatype ToggleReply = Toggled(message: string, liked: bool, likeCount: int) | ToggleError(error: string)

  datatype LikeStatus = LikeStatus(liked: bool, likeCount: int)

  /** The request's field values in declaration order (`model_dump().values()`). */
  function FieldValues(r: DatePlanRequest): (vs: seq<string>)
    ensures |vs| == 10
  {
    [r.age, r.occupation, r.gender, r.date, r.dayOfWeek, r.timeOfDay, r.dateNumber,
     r.location, r.cost, r.additionalNotes]
  }

  /** The text a submission is moderated on: all field values joined by spaces, stripped. */
  function SubmissionText(r: DatePlanRequest): string {
    Strip(Python, Join(" ", FieldValues(r)))
  }

  /** A word that neither starts nor ends with whitespace (as every loaded NG word)
      and occurs in any one field is caught by the submission check. */
  lemma FieldWordIsCaught(r: DatePlanRequest, k: int, w: string)
    requires 0 <= k < 10
    requires w != [] && !IsSpace(Python, w[0]) && !IsSpace(Python, w[|w| - 1])
    requires Contains(FieldValues(r)[k], w)
    ensures Contains(SubmissionText(r), w)
  {
    var joined := Join(" ", FieldValues(r));
    JoinContainsParts(" ", FieldValues(r), k);
    ContainsTransitive(joined, FieldValues(r)[k], w);
    ContainsStripped(Python, joined, w);
  }

  /** The plan text handed to the evaluator and stored in the `plan` column. */
  function PlanText(r: DatePlanRequest): string {
    "\n        年齢: " + r.age + "歳\n        職業: " + r.occupation +
    "\n        性別: " + r.gender +
    "\n        デート日時: " + r.date + " (" + r.dayOfWeek + "曜日) " + r.timeOfDay +
    "\n        何回目: " + r.dateNumber + "回目\n        費用: " + CostDisplay(r.cost) +
    "\n        場所: " + r.location + "\n        追記事項: " + r.additionalNotes + "\n        "
  }

  function Scores(ev: AiEvaluation): Subscores {
    Subscores(ev.ageAppropriateness.GetOr(0), ev.costEffectiveness.GetOr(0), ev.creativity.GetOr(0),
              ev.balance.GetOr(0), ev.relationshipProgress.GetOr(0))
  }

  /** The columns `score_date_plan` saves for a request. */
  function StoredColumns(r: DatePlanRequest, ev: AiEvaluation, score: int): PlanColumns {
    PlanColumns(PlanText(r), score, Some(ev.comment.GetOr(MissingEvaluation)),
                Some(r.age + "歳"), Some(r.occupation), Some(r.gender),
                Some(r.date + " (" + r.dayOfWeek + "曜日) " + r.timeOfDay),
                Some(r.dateNumber + "回目"), Some(r.location), Some(CostDisplay(r.cost)),
                Some(r.additionalNotes), Scores(ev))
  }

  /** The `final_score` loop: the score of the first ranking entry with the plan's id, else 0. */
  method FindFinalScore(ranking: seq<Post>, planId: int) returns (score: int)
    ensures (forall i :: 0 <= i < |ranking| ==> ranking[i].id != planId) ==> score == 0
    ensures forall i :: (0 <= i < |ranking| && ranking[i].id == planId &&
                         forall j :: 0 <= j < i ==> ranking[j].id != planId) ==> score == ranking[i].score
    ensures (exists i :: 0 <= i < |ranking| && ranking[i].id == planId) ==>
              exists i :: 0 <= i < |ranking| && ranking[i].id == planId && score == ranking[i].score
  {
    score := 0;
    var i := 0;
    while i < |ranking|
      invariant 0 <= i <= |ranking|
      invariant forall j :: 0 <= j < i ==> ranking[j].id != planId
      invariant score == 0
    {
      if ranking[i].id == planId {
        score := ranking[i].score;
        break;
      }
      i := i + 1;
    }
  }

  /** With unique ids, the ranking holds a plan exactly once, under its own id. */
  lemma RankingHoldsPlan(plans: seq<PlanRow>, k: int)
    requires 0 <= k < |plans|
    requires forall i, j :: 0 <= i < j < |plans| ==> plans[i].id < plans[j].id
    ensures plans[k] in RankingOrder(plans)
    ensures forall x :: x in RankingOrder(plans) && x.id == plans[k].id ==> x == plans[k]
  {
    var order := RankingOrder(plans);
    assert plans[k] in multiset(plans);
    forall x | x in order && x.id == plans[k].id ensures x == plans[k] {
      assert x in multiset(order);
    }
  }

  /** A stored plan's score as read back from the ranking by its id. */
  method RankedScore(db: Db, planId: int) returns (score: int)
    requires db.Valid()
    ensures forall k :: 0 <= k < |db.plans| && db.plans[k].id == planId ==> score == db.plans[k].cols.score
  {
    var ranking := db.GetRanking();
    score := FindFinalScore(ranking, planId);
    var order := RankingOrder(db.plans);
    assert forall i :: 0 <= i < |ranking| ==> ranking[i].id == order[i].id && ranking[i].score == order[i].cols.score;
    forall k | 0 <= k < |db.plans| && db.plans[k].id == planId
      ensures score == db.plans[k].cols.score
    {
      ScoreFoundByIdIsStored(db.plans, ranking, k, score);
    }
  }

  /** A score found in the ranking under a stored plan's id is that plan's score. */
  lemma ScoreFoundByIdIsStored(plans: seq<PlanRow>, ranking: seq<Post>, k: int, score: int)
    requires 0 <= k < |plans|
    requires forall i, j :: 0 <= i < j < |plans| ==> plans[i].id < plans[j].id
    requires |ranking| == |RankingOrder(plans)|
    requires forall i :: 0 <= i < |ranking| ==>
               ranking[i].id == RankingOrder(plans)[i].id && ranking[i].score == RankingOrder(plans)[i].cols.score
    requires (exists i :: 0 <= i < |ranking| && ranking[i].id == plans[k].id) ==>
               exists i :: 0 <= i < |ranking| && ranking[i].id == plans[k].id && score == ranking[i].score
    ensures score == plans[k].cols.score
  {
    var order := RankingOrder(plans);
    RankingHoldsPlan(plans, k);
    var at :| 0 <= at < |order| && order[at] == plans[k];
    assert ranking[at].id == plans[k].id;
    var j :| 0 <= j < |ranking| && ranking[j].id == plans[k].id && score == ranking[j].score;
    assert order[j] in order && order[j].id == plans[k].id;
  }

  /** `score_date_plan`: NG-word check on the joined submission, then evaluation,
      insertion, rescoring, and the new plan's score looked up in the ranking. */
  method ScoreDatePlan(db: Db, ngWords: set<string>, req: DatePlanRequest,
                       evaluate: string -> AiEvaluation, composite: Subscores -> int,
                       rescored: map<int, int>)
    returns (reply: Reply<ScoreReply>)
    requires db.Valid()
    modifies db`plans, db`nextPlanId
    ensures db.Valid()
    ensures reply.HttpError? <==> HasNgWord(ngWords, SubmissionText(req))
    ensures reply.HttpError? ==> reply == HttpError(400, NgWordDetail) && db.plans == old(db.plans)
    ensures reply.Ok? ==>
              var ev := evaluate(PlanText(req));
              var cols := StoredColumns(req, ev, composite(Scores(ev)));
              && |db.plans| == |old(db.plans)| + 1
              && (forall i :: 0 <= i < |old(db.plans)| ==> db.plans[i] == Rescored(old(db.plans)[i], rescored))
              && var id := db.plans[|old(db.plans)|].id;
              && !HasPlan(old(db.plans), id)
              && db.plans[|old(db.plans)|] == Rescored(PlanRow(id, cols), rescored)
              && reply.body == ScoreReply(if id in rescored then rescored[id] else cols.score,
                                          cols.comment.value, PlanText(req), Scores(ev))
  {
    var rejected := FindNgWord(ngWords, SubmissionText(req));
    if rejected {
      return HttpError(400, NgWordDetail);
    }
    var text := PlanText(req);
    var ev := evaluate(text);
    var cols := StoredColumns(req, ev, composite(Scores(ev)));
    var planId := db.SaveDatePlanDetailed(cols);
    db.ApplyScores(rescored);
    var finalScore := RankedScore(db, planId);
    reply := Ok(ScoreReply(finalScore, cols.comment.value, text, Scores(ev)));
  }

  /** `add_comment`: NG-word check on the stripped comment; the unstripped comment is
      stored under the path's plan id. A plan that does not exist makes the insert fail. */
  method AddComment(db: Db, ngWords: set<string>, datePlanId: int, req: CommentRequest, now: int)
    returns (reply: Reply<string>)
    requires db.Valid()
    modifies db`comments, db`nextCommentId
    ensures db.Valid()
    ensures HasNgWord(ngWords, Strip(Python, req.comment)) ==>
              reply == HttpError(400, NgWordDetail) && db.comments == old(db.comments)
    ensures !HasNgWord(ngWords, Strip(Python, req.comment)) && !HasPlan(db.plans, datePlanId) ==>
              reply == HttpError(500, InternalErrorDetail) && db.comments == old(db.comments)
    ensures !HasNgWord(ngWords, Strip(Python, req.comment)) && HasPlan(db.plans, datePlanId) ==>
              && reply == Ok(CommentPosted)
              && |db.comments| == |old(db.comments)| + 1
              && db.comments[..|old(db.comments)|] == old(db.comments)
              && var added := db.comments[|old(db.comments)|];
              && !HasComment(old(db.comments), added.id)
              && added == CommentRow(added.id, datePlanId, req.username, req.comment, now)
  {
    var rejected := FindNgWord(ngWords, Strip(Python, req.comment));
    if rejected {
      return HttpError(400, NgWordDetail);
    }
    var saved := db.SaveUserComment(datePlanId, req.username, req.comment, now);
    if saved {
      reply := Ok(CommentPosted);
    } else {
      reply := HttpError(500, InternalErrorDetail);
    }
  }

  /** `get_comments`: the plan's comments, newest first, each with its like count. */
  method GetComments(db: Db, datePlanId: int) returns (comments: seq<CommentRecord>)
    ensures |comments| == |NewestFirst(db.comments, datePlanId)|
    ensures forall i :: 0 <= i < |comments| ==>
              var row := NewestFirst(db.comments, datePlanId)[i];
              row.datePlanId == datePlanId && row in db.comments &&
              comments[i] == ToCommentRecord(row, |Likers(db.commentLikes, row.id)|)
    ensures forall i, j :: 0 <= i < j < |comments| ==>
              comments[i].createdAt.Some? && comments[j].createdAt.Some? &&
              comments[i].createdAt.value >= comments[j].createdAt.value
  {
    comments := db.GetUserComments(datePlanId);
    NewestFirstIsThePlansComments(db.comments, datePlanId);
  }

  /** `get_date_plan_ranking`: every stored plan once, highest score first, each with
      its like count. */
  method GetDatePlanRanking(db: Db) returns (ranking: seq<Post>)
    ensures |ranking| == |db.plans|
    ensures multiset(RankingOrder(db.plans)) == multiset(db.plans)
    ensures forall i :: 0 <= i < |ranking| ==>
              ranking[i] == ToPost(RankingOrder(db.plans)[i], |Likers(db.planLikes, RankingOrder(db.plans)[i].id)|)
    ensures forall i, j :: 0 <= i < j < |ranking| ==> ranking[i].score >= ranking[j].score
    ensures forall i :: 0 <= i < |ranking| ==> ranking[i].likeCount == Some(|Likers(db.planLikes, ranking[i].id)|)
  {
    ranking := db.GetRanking();
  }

  /** The like set after a toggle of `key`. */
  function ToggleLikes(likes: set<LikeKey>, key: LikeKey): set<LikeKey> {
    if key in likes then likes - {key} else likes + {key}
  }

  /** A toggle reports the count one above or one below the count before it. */
  lemma ToggledCount(likes: set<LikeKey>, key: LikeKey)
    ensures |Likers(ToggleLikes(likes, key), key.0)| == |Likers(likes, key.0)| + (if key in likes then -1 else 1)
    ensures forall id :: id != key.0 ==> Likers(ToggleLikes(likes, key), id) == Likers(likes, id)
  {
    if key in likes {
      LikersAfterRemove(likes, key, key.0);
    } else {
      LikersAfterAdd(likes, key, key.0);
    }
  }

  /** Two toggles with the same key restore the like set. */
  lemma ToggleTwiceRestores(likes: set<LikeKey>, key: LikeKey)
    ensures ToggleLikes(ToggleLikes(likes, key), key) == likes
  {
    if key in likes {
      assert likes - {key} + {key} == likes;
    } else {
      assert likes + {key} - {key} == likes;
    }
  }

  /** `toggle_plan_like`: a prior like of this device (for the path's plan id) is
      removed, otherwise one is added; the reply carries the count afterwards. */
  method TogglePlanLike(db: Db, datePlanId: int, req: PlanLikeRequest) returns (reply: ToggleReply)
    requires db.Valid()
    modifies db`planLikes
    ensures db.Valid()
    ensures var key := (datePlanId, req.deviceId);
            if key in old(db.planLikes) then
              db.planLikes == old(db.planLikes) - {key} &&
              reply == Toggled(LikeRemoved, false, |Likers(db.planLikes, datePlanId)|)
            else if HasPlan(db.plans, datePlanId) then
              db.planLikes == old(db.planLikes) + {key} &&
              reply == Toggled(LikeAdded, true, |Likers(db.planLikes, datePlanId)|)
            else
              db.planLikes == old(db.planLikes) && reply == ToggleError(AddFailed)
    ensures reply.Toggled? ==>
              db.planLikes == ToggleLikes(old(db.planLikes), (datePlanId, req.deviceId)) &&
              reply.likeCount == |Likers(old(db.planLikes), datePlanId)| + (if reply.liked then 1 else -1)
  {
    ToggledCount(db.planLikes, (datePlanId, req.deviceId));
    var isLiked := db.CheckPlanLiked(datePlanId, req.deviceId);
    if isLiked {
      var success := db.RemovePlanLike(datePlanId, req.deviceId);
      if success {
        var count := db.GetPlanLikeCount(datePlanId);
        reply := Toggled(LikeRemoved, false, count);
      } else {
        // requests are handled one at a time: the check above found the row, so the delete removes it
        assert false;
      }
    } else {
      var success := db.SavePlanLike(datePlanId, req.deviceId);
      if success {
        var count := db.GetPlanLikeCount(datePlanId);
        reply := Toggled(LikeAdded, true, count);
      } else {
        reply := ToggleError(AddFailed);
      }
    }
  }

  /** `get_plan_like_status`: whether this device likes the plan, and the plan's count. */
  method GetPlanLikeStatus(db: Db, datePlanId: int, deviceId: string) returns (status: LikeStatus)
    ensures status.liked <==> (datePlanId, deviceId) in db.planLikes
    ensures status.likeCount == |Likers(db.planLikes, datePlanId)|
  {
    var isLiked := db.CheckPlanLiked(datePlanId, deviceId);
    var count := db.GetPlanLikeCount(datePlanId);
    status := LikeStatus(isLiked, count);
  }

  /** `toggle_comment_like`: as `TogglePlanLike`, for comments. */
  method ToggleCommentLike(db: Db, commentId: int, req: CommentLikeRequest) returns (reply: ToggleReply)
    requires db.Valid()
    modifies db`commentLikes
    ensures db.Valid()
    ensures var key := (commentId, req.deviceId);
            if key in old(db.commentLikes) then
              db.commentLikes == old(db.commentLikes) - {key} &&
              reply == Toggled(LikeRemoved, false, |Likers(db.commentLikes, commentId)|)
            else if HasComment(db.comments, commentId) then
              db.commentLikes == old(db.commentLikes) + {key} &&
              reply == Toggled(LikeAdded, true, |Likers(db.commentLikes, commentId)|)
            else
              db.commentLikes == old(db.commentLikes) && reply == ToggleError(AddFailed)
    ensures reply.Toggled? ==>
              db.commentLikes == ToggleLikes(old(db.commentLikes), (commentId, req.deviceId)) &&
              reply.likeCount == |Likers(old(db.commentLikes), commentId)| + (if reply.liked then 1 else -1)
  {
    ToggledCount(db.commentLikes, (commentId, req.deviceId));
    var isLiked := db.CheckCommentLiked(commentId, req.deviceId);
    if isLiked {
      var success := db.RemoveCommentLike(commentId, req.deviceId);
      if success {
        var count := db.GetCommentLikeCount(commentId);
        reply := Toggled(LikeRemoved, false, count);
      } else {
        // requests are handled one at a time: the check above found the row, so the delete removes it
        assert false;
      }
    } else {
      var success := db.SaveCommentLike(commentId, req.deviceId);
      if success {
        var count := db.GetCommentLikeCount(commentId);
        reply := Toggled(LikeAdded, true, count);
      } else {
        reply := ToggleError(AddFailed);
      }
    }
  }

  /** `get_comment_like_status`. */
  method GetCommentLikeStatus(db: Db, commentId: int, deviceId: string) returns (status: LikeStatus)
    ensures status.liked <==> (commentId, deviceId) in db.commentLikes
    ensures status.likeCount == |Likers(db.commentLikes, commentId)|
  {
    var isLiked := db.CheckCommentLiked(commentId, deviceId);
    var count := db.GetCommentLikeCount(commentId);
    status := LikeStatus(isLiked, count);
  }

  /** Toggling a plan like twice from one device restores the like set, and the
      second reply reports the original count. */
  method TogglePlanLikeTwice(db: Db, datePlanId: int, req: PlanLikeRequest)
    returns (first: ToggleReply, second: ToggleReply)
    requires db.Valid()
    modifies db`planLikes
    ensures db.Valid()
    ensures db.planLikes == old(db.planLikes)
    ensures first.Toggled? <==> second.Toggled?
    ensures second.Toggled? ==> second.likeCount == |Likers(old(db.planLikes), datePlanId)|
                                 && second.liked == ((datePlanId, req.deviceId) in old(db.planLikes))
  {
    first := TogglePlanLike(db, datePlanId, req);
    second := TogglePlanLike(db, datePlanId, req);
    ToggleTwiceRestores(old(db.planLikes), (datePlanId, req.deviceId));
  }

  /** `generate_ai_date_plan`: NG-word check on the stripped input; the suggester
      receives the input as sent. A failing suggester is a 500. */
  method GenerateAiDatePlan(ngWords: set<string>, req: AiPlanRequest, suggest: string -> Option<Suggestion>)
    returns (reply: Reply<Suggestion>)
    ensures HasNgWord(ngWords, Strip(Python, req.userInput)) ==>
              reply == HttpError(400, NgWordDetail)
    ensures !HasNgWord(ngWords, Strip(Python, req.userInput)) ==>
              reply == match suggest(req.userInput)
                       case Some(s) => Ok(s)
                       case None => HttpError(500, AiErrorDetail)
  {
    var rejected := FindNgWord(ngWords, Strip(Python, req.userInput));
    if rejected {
      return HttpError(400, NgWordDetail);
    }
    var suggestion := suggest(req.userInput);
    if suggestion.None? {
      return HttpError(500, AiErrorDetail);
    }
    reply := Ok(suggestion.value);
  }
}
