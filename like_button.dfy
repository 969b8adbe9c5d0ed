/** The like buttons of plans and comments: three state cells (`liked`, `likeCount`,
    `isLoading`) driven by a like-status fetch on mount and by clicks. Each async
    handler is split at its `await`: the click issues the request, the completion
    receives what `fetch` delivered. */
module LikeButton {
  import opened Wrappers
  import opened Records
  import opened Http
  import Api
  import Database

  datatype Kind = PlanButton | CommentButton

  /** A toggle request: the URL's entity id and the JSON body, which carries the
      same id (`date_plan_id` or `comment_id`) and the device id. */
  datatype ToggleRequest = ToggleRequest(kind: Kind, entityId: int, deviceId: string)

  /** The JSON body the client reads from a toggle reply. The server answers a failed
      toggle with status 200 and an `error` key only, so both fields read as undefined. */
  function ToggleBody(reply: Api.ToggleReply): (body: LikeBody)
    ensures body.liked.Some? <==> reply.Toggled?
    ensures body.likeCount.Some? <==> reply.Toggled?
    ensures reply.Toggled? ==> body.liked == Some(reply.liked) && body.likeCount == Some(reply.likeCount)
  {
    match reply
    case Toggled(_, liked, likeCount) => LikeBody(Some(liked), Some(likeCount))
    case ToggleError(_) => LikeBody(None, None)
  }

  /** The JSON body of a like-status reply. */
  function StatusBody(status: Api.LikeStatus): (body: LikeBody)
    ensures body.liked == Some(status.liked) && body.likeCount == Some(status.likeCount)
  {
    LikeBody(Some(status.liked), Some(status.likeCount))
  }

  class LikeButton {
    const kind: Kind
    const entityId: int
    /** Whether the owner passed an `onLikeChange` callback. */
    const notifies: bool
    var liked: Option<bool>
    var likeCount: Option<int>
    var isLoading: bool
    /** Toggle requests issued and not yet answered. */
    ghost var inFlight: nat

    /** At most one toggle request is outstanding, exactly while `isLoading` holds. */
    ghost predicate Valid()
      reads this
    {
      inFlight == if isLoading then 1 else 0
    }

    /** A fresh button: not liked, the count its owner passed in, not loading. */
    constructor (kind: Kind, entityId: int, initialLikeCount: int, notifies: bool)
      ensures Valid()
      ensures this.kind == kind && this.entityId == entityId && this.notifies == notifies
      ensures liked == Some(false) && likeCount == Some(initialLikeCount) && !isLoading
    {
      this.kind := kind;
      this.entityId := entityId;
      this.notifies := notifies;
      liked := Some(false);
      likeCount := Some(initialLikeCount);
      isLoading := false;
      inFlight := 0;
    }

    /** `fetchLikeStatus` once its reply is in: an ok reply overwrites both cells with
        the server's values; a non-ok reply or an error leaves them as they were. */
    method CompleteStatusFetch(reply: Outcome<LikeBody>)
      modifies this`liked, this`likeCount
      ensures reply.Ok? ==> liked == reply.body.liked && likeCount == reply.body.likeCount
      ensures !reply.Ok? ==> liked == old(liked) && likeCount == old(likeCount)
    {
      if reply.Ok? {
        liked := reply.body.liked;
        likeCount := reply.body.likeCount;
      }
    }

    /** `handleLikeToggle` up to its request: a click while loading does nothing and
        sends nothing; otherwise loading starts and the request is issued. */
    method Click(deviceId: string) returns (request: Option<ToggleRequest>)
      requires Valid()
      modifies this`isLoading, this`inFlight
      ensures Valid() && isLoading
      ensures old(isLoading) ==> request == None && inFlight == old(inFlight)
      ensures !old(isLoading) ==> request == Some(ToggleRequest(kind, entityId, deviceId))
    {
      if isLoading {
        return None;
      }
      isLoading := true;
      inFlight := inFlight + 1;
      request := Some(ToggleRequest(kind, entityId, deviceId));
    }

    /** `handleLikeToggle` after its request: an ok reply commits the server's `liked`
        and `like_count` and hands exactly those to `onLikeChange`, if there is one; a
        non-ok reply or an error changes neither cell and notifies nobody. Loading
        ends on every path. */
    method CompleteToggle(reply: Outcome<LikeBody>) returns (notified: Option<LikeBody>)
      requires Valid() && isLoading
      modifies this`liked, this`likeCount, this`isLoading, this`inFlight
      ensures Valid() && !isLoading && inFlight == 0
      ensures reply.Ok? ==> liked == reply.body.liked && likeCount == reply.body.likeCount
      ensures reply.Ok? && notifies ==> notified == Some(LikeBody(liked, likeCount))
      ensures !reply.Ok? ==> liked == old(liked) && likeCount == old(likeCount)
      ensures !reply.Ok? || !notifies ==> notified == None
    {
      notified := None;
      if reply.Ok? {
        liked := reply.body.liked;
        likeCount := reply.body.likeCount;
        if notifies {
          notified := Some(reply.body);
        }
      }
      isLoading := false;
      inFlight := inFlight - 1;
    }
  }

  /** A plan button that fetches its status from the server shows the server's state. */
  method FetchPlanStatus(button: LikeButton, db: Database.Db, deviceId: string)
    requires button.kind == PlanButton
    modifies button`liked, button`likeCount
    ensures button.liked == Some((button.entityId, deviceId) in db.planLikes)
    ensures button.likeCount == Some(|Database.Likers(db.planLikes, button.entityId)|)
  {
    var status := Api.GetPlanLikeStatus(db, button.entityId, deviceId);
    button.CompleteStatusFetch(Ok(StatusBody(status)));
  }

  /** A click on an idle plan button, answered by the server: the plan's like set is
      toggled and the button shows the server's new state for this device. */
  method ClickPlanButton(button: LikeButton, db: Database.Db, deviceId: string)
    returns (notified: Option<LikeBody>)
    requires button.Valid() && !button.isLoading && button.kind == PlanButton
    requires db.Valid() && Database.HasPlan(db.plans, button.entityId)
    modifies button`liked, button`likeCount, button`isLoading, button`inFlight, db`planLikes
    ensures button.Valid() && !button.isLoading && db.Valid()
    ensures db.planLikes == Api.ToggleLikes(old(db.planLikes), (button.entityId, deviceId))
    ensures button.liked == Some((button.entityId, deviceId) in db.planLikes)
    ensures button.likeCount == Some(|Database.Likers(db.planLikes, button.entityId)|)
    ensures button.notifies ==> notified == Some(LikeBody(button.liked, button.likeCount))
  {
    var request := button.Click(deviceId);
    var reply := Api.TogglePlanLike(db, request.value.entityId,
                                    Api.PlanLikeRequest(request.value.entityId, request.value.deviceId));
    notified := button.CompleteToggle(Ok(ToggleBody(reply)));
  }

  /** Two answered clicks from one device restore the like set, and the button then
      shows the original like state and count. */
  method ClickPlanButtonTwice(button: LikeButton, db: Database.Db, deviceId: string)
    requires button.Valid() && !button.isLoading && button.kind == PlanButton
    requires db.Valid() && Database.HasPlan(db.plans, button.entityId)
    modifies button`liked, button`likeCount, button`isLoading, button`inFlight, db`planLikes
    ensures button.Valid() && !button.isLoading && db.Valid()
    ensures db.planLikes == old(db.planLikes)
    ensures button.liked == Some((button.entityId, deviceId) in old(db.planLikes))
    ensures button.likeCount == Some(|Database.Likers(old(db.planLikes), button.entityId)|)
  {
    var _ := ClickPlanButton(button, db, deviceId);
    var _ := ClickPlanButton(button, db, deviceId);
    Api.ToggleTwiceRestores(old(db.planLikes), (button.entityId, deviceId));
  }

  /** A click on an idle comment button, answered by the server. */
  method ClickCommentButton(button: LikeButton, db: Database.Db, deviceId: string)
    returns (notified: Option<LikeBody>)
    requires button.Valid() && !button.isLoading && button.kind == CommentButton
    requires db.Valid() && Database.HasComment(db.comments, button.entityId)
    modifies button`liked, button`likeCount, button`isLoading, button`inFlight, db`commentLikes
    ensures button.Valid() && !button.isLoading && db.Valid()
    ensures db.commentLikes == Api.ToggleLikes(old(db.commentLikes), (button.entityId, deviceId))
    ensures button.liked == Some((button.entityId, deviceId) in db.commentLikes)
    ensures button.likeCount == Some(|Database.Likers(db.commentLikes, button.entityId)|)
    ensures button.notifies ==> notified == Some(LikeBody(button.liked, button.likeCount))
  {
    var request := button.Click(deviceId);
    var reply := Api.ToggleCommentLike(db, request.value.entityId,
                                       Api.CommentLikeRequest(request.value.entityId, request.value.deviceId));
    notified := button.CompleteToggle(Ok(ToggleBody(reply)));
  }

  /** A toggle the server could not apply (a like for a plan that is gone) still
      arrives with status 200, so the button commits undefined values. */
  method ClickPlanButtonOnMissingPlan(button: LikeButton, db: Database.Db, deviceId: string)
    requires button.Valid() && !button.isLoading && button.kind == PlanButton
    requires db.Valid() && !Database.HasPlan(db.plans, button.entityId)
    modifies button`liked, button`likeCount, button`isLoading, button`inFlight, db`planLikes
    ensures db.planLikes == old(db.planLikes)
    ensures button.liked == None && button.likeCount == None
  {
    var request := button.Click(deviceId);
    var reply := Api.TogglePlanLike(db, request.value.entityId,
                                    Api.PlanLikeRequest(request.value.entityId, request.value.deviceId));
    var _ := button.CompleteToggle(Ok(ToggleBody(reply)));
  }
}
