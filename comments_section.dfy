/** The comments section of the selected plan: the comment list, the two inputs,
    the loading and error cells, and the like-count patch its buttons apply. */
module CommentsSection {
  import opened Wrappers
  import opened Text
  import opened Records
  import opened Http
  import Api
  import Database
  import opened Moderation

  const FetchFailed := "コメントの取得に失敗しました"
  const FillInBoth := "ユーザー名とコメントを入力してください"

  /** The comment list after a comment's like button reports a new count. */
  function PatchLikeCount(comments: seq<CommentRecord>, id: int, count: Option<int>): (r: seq<CommentRecord>)
    ensures |r| == |comments|
    ensures forall i :: 0 <= i < |r| && comments[i].id != id ==> r[i] == comments[i]
    ensures forall i :: 0 <= i < |r| && comments[i].id == id ==> r[i] == comments[i].(likeCount := count)
  {
    if comments == [] then []
    else
      var head := if comments[0].id == id then comments[0].(likeCount := count) else comments[0];
      [head] + PatchLikeCount(comments[1..], id, count)
  }

  /** A patch for an id no comment has leaves the list as it is. */
  lemma {:induction false} PatchAbsentId(comments: seq<CommentRecord>, id: int, count: Option<int>)
    requires forall i :: 0 <= i < |comments| ==> comments[i].id != id
    ensures PatchLikeCount(comments, id, count) == comments
  {
    var r := PatchLikeCount(comments, id, count);
    assert forall i :: 0 <= i < |comments| ==> r[i] == comments[i];
  }

  /** The post a submission sends: nothing when the trimmed name or comment is empty,
      otherwise the plan id with the trimmed name and comment. */
  function CommentPost(planId: int, username: string, comment: string): (request: Option<Api.CommentRequest>)
    ensures request.Some? ==>
              request.value == Api.CommentRequest(planId, Strip(JavaScript, username), Strip(JavaScript, comment))
  {
    var trimmedComment, trimmedName := Strip(JavaScript, comment), Strip(JavaScript, username);
    if trimmedComment == [] || trimmedName == [] then None
    else Some(Api.CommentRequest(planId, trimmedName, trimmedComment))
  }

  /** A submission is refused exactly when the name or the comment is blank, and a
      post that goes out never carries an empty name or comment. */
  lemma CommentPostRefusesBlank(planId: int, username: string, comment: string)
    ensures CommentPost(planId, username, comment).None? <==>
              IsBlank(JavaScript, username) || IsBlank(JavaScript, comment)
    ensures CommentPost(planId, username, comment).Some? ==>
              CommentPost(planId, username, comment).value.username != [] &&
              CommentPost(planId, username, comment).value.comment != []
  {
    BlankIffStripEmpty(JavaScript, comment);
    BlankIffStripEmpty(JavaScript, username);
  }

  class Section {
    /** The `dateplanId` prop; JavaScript treats a missing id and 0 alike as none. */
    var dateplanId: Option<int>
    var comments: seq<CommentRecord>
    var newComment: string
    var username: string
    var isLoading: bool
    var error: string

    predicate HasPlanId()
      reads this
    {
      dateplanId.Some? && dateplanId.value != 0
    }

    constructor (dateplanId: Option<int>)
      ensures this.dateplanId == dateplanId
      ensures comments == [] && newComment == "" && username == "" && !isLoading && error == ""
    {
      this.dateplanId := dateplanId;
      comments := [];
      newComment := "";
      username := "";
      isLoading := false;
      error := "";
    }

    /** `fetchComments` up to its request: the plan whose comments are requested,
        or nothing when there is no plan id. */
    method BeginFetch() returns (planId: Option<int>)
      ensures planId.Some? <==> HasPlanId()
      ensures planId.Some? ==> planId == dateplanId
    {
      if dateplanId.None? || dateplanId.value == 0 {
        return None;
      }
      planId := dateplanId;
    }

    /** `fetchComments` once the reply is in: `data.comments`, or an empty list when the
        body has none; a failure sets the error and keeps the list. */
    method CompleteFetch(reply: Outcome<Option<seq<CommentRecord>>>)
      modifies this`comments, this`error
      ensures reply.Ok? ==> comments == reply.body.GetOr([]) && error == old(error)
      ensures reply.NotOk? ==> error == FetchFailed && comments == old(comments)
      ensures reply.Threw? ==> error == reply.message && comments == old(comments)
    {
      match reply {
        case Ok(data) => comments := data.GetOr([]);
        case NotOk(_, _) => error := FetchFailed;
        case Threw(message) => error := message;
      }
    }

    /** `handleSubmitComment` up to its request: a blank name or comment sets the
        fill-in error and sends nothing; otherwise loading starts and the post is
        sent. The form is only shown when there is a plan id. */
    method BeginSubmit() returns (request: Option<Api.CommentRequest>)
      requires HasPlanId()
      modifies this`error, this`isLoading
      ensures request == CommentPost(dateplanId.value, username, newComment)
      ensures request.None? ==> error == FillInBoth && isLoading == old(isLoading)
      ensures request.Some? ==> isLoading && error == old(error)
    {
      request := CommentPost(dateplanId.value, username, newComment);
      if request.None? {
        error := FillInBoth;
        return;
      }
      isLoading := true;
    }

    /** `handleSubmitComment` after its request: success clears the comment box and the
        error and asks for a refetch; failure shows the mapped message. The user name
        is kept, and loading ends on every path. */
    method CompleteSubmit(reply: Outcome<string>) returns (refetch: bool)
      modifies this`newComment, this`error, this`isLoading
      ensures !isLoading
      ensures refetch <==> reply.Ok?
      ensures reply.Ok? ==> newComment == "" && error == ""
      ensures !reply.Ok? ==> error == FailureMessage(reply) && newComment == old(newComment)
    {
      if reply.Ok? {
        newComment := "";
        error := "";
        refetch := true;
      } else {
        error := FailureMessage(reply);
        refetch := false;
      }
      isLoading := false;
    }

    /** A new `dateplanId` prop. The section stays mounted when the selection moves to
        another plan, so the list, both inputs and the error carry over; only the
        comments fetch runs again, and only when the id differs from the previous one. */
    method ChangePlan(id: Option<int>) returns (planId: Option<int>)
      modifies this`dateplanId
      ensures dateplanId == id
      ensures comments == old(comments) && newComment == old(newComment)
      ensures username == old(username) && error == old(error) && isLoading == old(isLoading)
      ensures planId.Some? <==> id != old(dateplanId) && HasPlanId()
      ensures planId.Some? ==> planId == id
    {
      var previous := dateplanId;
      dateplanId := id;
      if id == previous {
        return None;
      }
      planId := BeginFetch();
    }

    /** The `onLikeChange` callback of the comment with id `id`. */
    method OnLikeChange(id: int, liked: Option<bool>, count: Option<int>)
      modifies this`comments
      ensures comments == PatchLikeCount(old(comments), id, count)
    {
      comments := PatchLikeCount(comments, id, count);
    }
  }

  /** The selection moves to another plan and its comments fetch fails: the previous
      plan's comments stay on screen under the new plan, next to the error, and a
      half-typed comment is now addressed to the new plan. */
  method SwitchPlanFetchFails(section: Section, id: int, status: int, detail: Option<string>)
    requires id != 0 && section.dateplanId != Some(id)
    modifies section
    ensures section.dateplanId == Some(id) && section.error == FetchFailed
    ensures section.comments == old(section.comments) && section.newComment == old(section.newComment)
  {
    var planId := section.ChangePlan(Some(id));
    assert planId == Some(id);
    section.CompleteFetch(NotOk(status, detail));
  }

  /** A submission answered by the server: a comment with an NG word is refused and
      the section shows the server's reason; otherwise the trimmed comment is stored
      for the plan and the comment box is cleared. */
  method SubmitToServer(section: Section, db: Database.Db, ngWords: set<string>, now: int)
    requires section.HasPlanId() && db.Valid()
    requires !IsBlank(JavaScript, section.newComment) && !IsBlank(JavaScript, section.username)
    modifies section`error, section`isLoading, section`newComment, db`comments, db`nextCommentId
    ensures db.Valid() && !section.isLoading
    ensures var sent := Strip(JavaScript, old(section.newComment));
            && (HasNgWord(ngWords, Strip(Python, sent)) ==>
                  section.error == Api.NgWordDetail && db.comments == old(db.comments))
            && (!HasNgWord(ngWords, Strip(Python, sent)) &&
                Database.HasPlan(db.plans, old(section.dateplanId.value)) ==>
                  section.newComment == "" && section.error == "" &&
                  |db.comments| == |old(db.comments)| + 1 &&
                  db.comments[|old(db.comments)|].comment == sent &&
                  db.comments[|old(db.comments)|].datePlanId == old(section.dateplanId.value) &&
                  db.comments[|old(db.comments)|].username == Strip(JavaScript, old(section.username)))
  {
    ghost var sent := Strip(JavaScript, section.newComment);
    ghost var name := Strip(JavaScript, section.username);
    ghost var planId := section.dateplanId.value;
    ghost var n := |db.comments|;
    var request := section.BeginSubmit();
    var post := request.value;
    assert post == Api.CommentRequest(planId, name, sent);
    var reply := Api.AddComment(db, ngWords, post.datePlanId, post, now);
    if reply == Api.HttpError(400, Api.NgWordDetail) {
      NgRejectionShown(reply);
    } else if !HasNgWord(ngWords, Strip(Python, sent)) && Database.HasPlan(db.plans, planId) {
      assert db.comments[n] == Database.CommentRow(db.comments[n].id, planId, name, sent, now);
    }
    var _ := section.CompleteSubmit(ReplyOutcome(reply));
  }
}
