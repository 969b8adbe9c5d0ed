/** The JSON records that travel between the API server and the web client. A field
    that may be absent from the JSON (or NULL in the database) is an `Option`. */
module Records {
  import opened Wrappers

  /** The five sub-scores an evaluation gives a plan. */
  datatype Subscores = Subscores(
    ageAppropriateness: int, costEffectiveness: int, creativity: int,
    balance: int, relationshipProgress: int)

  /** A date-plan post as the ranking and search endpoints send it. Search results
      carry neither sub-scores nor a like count. */
  datatype Post = Post(
    id: int, plan: string, score: int, comment: Option<string>,
    age: Option<string>, occupation: Option<string>, gender: Option<string>,
    dateTime: Option<string>, dateNumber: Option<string>, location: Option<string>,
    cost: Option<string>, additionalNotes: Option<string>,
    subscores: Option<Subscores>, likeCount: Option<int>)

  /** A user comment as the comments endpoint sends it. */
  datatype CommentRecord = CommentRecord(
    id: int, username: string, comment: string, createdAt: Option<int>, likeCount: Option<int>)

  /** The body of a like-status or like-toggle reply as the client reads it:
      `data.liked` and `data.like_count`, either of which may be undefined. */
  datatype LikeBody = LikeBody(liked: Option<bool>, likeCount: Option<int>)

  /** A plan suggestion from the AI endpoint. */
  datatype Suggestion = Suggestion(
    planTitle: string, planDescription: string, estimatedCost: string, duration: string, tips: string)
}
