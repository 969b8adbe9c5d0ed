/** The ranking page: the fetched ranking, its loading and error cells, the shared
    selection, and the like-count patch its buttons apply. */
module RankingPage {
  import opened Wrappers
  import opened Records
  import opened Http
  import opened App

  const FetchFailed := "データの取得に失敗しました。"

  /** The ranking after a plan's like button reports a new count: the entry with that
      id gets the count, every other entry is left as it is. */
  function PatchLikeCount(ranking: seq<Post>, id: int, count: Option<int>): (r: seq<Post>)
    ensures |r| == |ranking|
    ensures forall i :: 0 <= i < |r| && ranking[i].id != id ==> r[i] == ranking[i]
    ensures forall i :: 0 <= i < |r| && ranking[i].id == id ==> r[i] == ranking[i].(likeCount := count)
  {
    if ranking == [] then []
    else
      var head := if ranking[0].id == id then ranking[0].(likeCount := count) else ranking[0];
      [head] + PatchLikeCount(ranking[1..], id, count)
  }

  /** A patch changes no id and no field other than the like count. */
  lemma PatchKeepsEntries(ranking: seq<Post>, id: int, count: Option<int>)
    ensures forall i :: 0 <= i < |ranking| ==>
              PatchLikeCount(ranking, id, count)[i].(likeCount := None) == ranking[i].(likeCount := None)
  {
  }

  /** Patching with the newest count replaces what an earlier patch of the same entry wrote. */
  lemma {:induction false} PatchTwiceKeepsLast(ranking: seq<Post>, id: int, c1: Option<int>, c2: Option<int>)
    ensures PatchLikeCount(PatchLikeCount(ranking, id, c1), id, c2) == PatchLikeCount(ranking, id, c2)
  {
    var once := PatchLikeCount(ranking, id, c1);
    var twice := PatchLikeCount(once, id, c2);
    var direct := PatchLikeCount(ranking, id, c2);
    assert forall i :: 0 <= i < |ranking| ==> twice[i] == direct[i];
  }

  /** Patches of two different entries commute. */
  lemma {:induction false} PatchesCommute(ranking: seq<Post>, id1: int, c1: Option<int>, id2: int, c2: Option<int>)
    requires id1 != id2
    ensures PatchLikeCount(PatchLikeCount(ranking, id1, c1), id2, c2)
         == PatchLikeCount(PatchLikeCount(ranking, id2, c2), id1, c1)
  {
    var first1 := PatchLikeCount(ranking, id1, c1);
    var first2 := PatchLikeCount(ranking, id2, c2);
    var a := PatchLikeCount(first1, id2, c2);
    var b := PatchLikeCount(first2, id1, c1);
    forall i | 0 <= i < |ranking|
      ensures a[i] == b[i]
    {
      assert first1[i].id == ranking[i].id && first2[i].id == ranking[i].id;
    }
  }

  class Page {
    var ranking: seq<Post>
    var isLoading: bool
    var error: string
    const selection: Selection

    /** Mounted: empty ranking, loading, no error. */
    constructor (selection: Selection)
      ensures this.selection == selection
      ensures ranking == [] && isLoading && error == ""
    {
      this.selection := selection;
      ranking := [];
      isLoading := true;
      error := "";
    }

    /** `fetchRanking` once the reply is in: on success the ranking is replaced and,
        when it is not empty, its first entry is selected; on failure the error is
        set and the ranking and the selection are kept. Loading ends either way. */
    method CompleteFetch(reply: Outcome<seq<Post>>)
      modifies this`ranking, this`isLoading, this`error, selection
      ensures !isLoading
      ensures reply.Ok? ==> ranking == reply.body && error == old(error)
      ensures reply.Ok? && reply.body != [] ==> selection.post == Some(reply.body[0]) && IsSelected(ranking[0])
      ensures !reply.Ok? || reply.body == [] ==> selection.post == old(selection.post)
      ensures reply.NotOk? ==> error == FetchFailed && ranking == old(ranking)
      ensures reply.Threw? ==> error == reply.message && ranking == old(ranking)
    {
      match reply {
        case Ok(data) =>
          ranking := data;
          if |data| > 0 {
            selection.Select(data[0]);
          }
        case NotOk(_, _) =>
          error := FetchFailed;
        case Threw(message) =>
          error := message;
      }
      isLoading := false;
    }

    /** A click on an entry selects it, and the entries drawn as selected are then
        exactly those with its id. */
    method Click(i: nat)
      requires i < |ranking|
      modifies selection
      ensures selection.post == Some(ranking[i])
      ensures forall j :: 0 <= j < |ranking| ==> (IsSelected(ranking[j]) <==> ranking[j].id == ranking[i].id)
    {
      selection.Select(ranking[i]);
    }

    /** The `onLikeChange` callback of the entry with id `id`. */
    method OnLikeChange(id: int, liked: Option<bool>, count: Option<int>)
      modifies this`ranking
      ensures ranking == PatchLikeCount(old(ranking), id, count)
    {
      ranking := PatchLikeCount(ranking, id, count);
    }

    /** Whether an entry is drawn as selected: a selection exists and has its id. */
    predicate IsSelected(item: Post)
      reads this, selection
    {
      selection.post.Some? && selection.post.value.id == item.id
    }
  }
}
