/** The application shell: the selection cell shared by the ranking and search
    pages, and the layout chosen from the current path. */
module App {
  import opened Wrappers
  import opened Records

  /** The `selectedPost` state: no post at first, then whichever post a page selects. */
  class Selection {
    var post: Option<Post>

    constructor ()
      ensures post == None
    {
      post := None;
    }

    /** `setSelectedPost`. */
    method Select(p: Post)
      modifies this
      ensures post == Some(p)
    {
      post := Some(p);
    }
  }

  datatype Page = SubmissionPage | AiPlanPage | RankingPage | SearchPage

  /** ASCII case folding: the route patterns are matched case-insensitively, and a
      JavaScript `i` regular expression folds no character outside ASCII onto an
      ASCII letter. */
  function FoldCase(c: char): (folded: char)
    ensures 'A' <= c <= 'Z' ==> folded as int == c as int + 32
    ensures !('A' <= c <= 'Z') ==> folded == c
  {
    if 'A' <= c <= 'Z' then (c as int + 32) as char else c
  }

  /** Whether a `<Route path>` matches the current path as React Router 6 matches
      it: the path starts with the pattern up to ASCII case, and only `/` may
      follow it. */
  predicate RouteMatches(pattern: string, pathname: string) {
    |pattern| <= |pathname|
    && (forall k :: 0 <= k < |pattern| ==> FoldCase(pathname[k]) == FoldCase(pattern[k]))
    && (forall k :: |pattern| <= k < |pathname| ==> pathname[k] == '/')
  }

  /** A path the ranking route matches is matched by no route listed before it. */
  lemma RankingRouteOnly(pathname: string)
    ensures RouteMatches("/ranking", pathname) ==>
              !RouteMatches("/", pathname) && !RouteMatches("/ai-plan", pathname)
  {
    if RouteMatches("/ranking", pathname) {
      assert FoldCase(pathname[1]) == FoldCase("/ranking"[1]);
    }
  }

  /** The routes: the page rendered for a path, if any. */
  function PageAt(pathname: string): (page: Option<Page>)
    ensures pathname in {"/", "/ai-plan", "/ranking", "/search"} ==> page.Some?
    ensures page.Some? ==> |pathname| > 0 && pathname[0] == '/'
    ensures page == Some(RankingPage) <==> RouteMatches("/ranking", pathname)
  {
    RankingRouteOnly(pathname);
    if RouteMatches("/", pathname) then Some(SubmissionPage)
    else if RouteMatches("/ai-plan", pathname) then Some(AiPlanPage)
    else if RouteMatches("/ranking", pathname) then Some(RankingPage)
    else if RouteMatches("/search", pathname) then Some(SearchPage)
    else None
  }

  datatype Layout = ThreeColumns | TwoColumns

  /** `isThreeColumnLayout`, which is `isRankingPage`: an exact comparison of the
      path, so the three-column layout only ever frames the ranking page. */
  function LayoutAt(pathname: string): (layout: Layout)
    ensures layout == ThreeColumns <==> pathname == "/ranking"
    ensures layout == ThreeColumns ==> PageAt(pathname) == Some(RankingPage)
  {
    if pathname == "/ranking" then ThreeColumns else TwoColumns
  }

  /** A pattern followed by a trailing `/` still matches it. */
  lemma TrailingSlashMatches(pattern: string)
    ensures RouteMatches(pattern, pattern + "/")
  {
    var path := pattern + "/";
    assert forall k :: 0 <= k < |pattern| ==> path[k] == pattern[k];
  }

  /** The route and the layout disagree on other spellings of the ranking path: a
      trailing `/` still renders the ranking page, but in the two-column layout and
      without the detail sidebar. */
  lemma RankingPageWithSlashInTwoColumns(selection: Option<Post>)
    ensures PageAt("/ranking/") == Some(RankingPage) && LayoutAt("/ranking/") == TwoColumns
    ensures DetailSidebar("/ranking/", selection).None?
  {
    TrailingSlashMatches("/ranking");
    assert "/ranking" + "/" == "/ranking/";
  }

  /** Capital letters likewise render the ranking page in the two-column layout. */
  lemma CapitalisedRankingInTwoColumns(selection: Option<Post>)
    ensures PageAt("/Ranking") == Some(RankingPage) && LayoutAt("/Ranking") == TwoColumns
    ensures DetailSidebar("/Ranking", selection).None?
  {
    assert FoldCase('R') == 'r';
    assert RouteMatches("/ranking", "/Ranking");
  }

  /** The detail sidebar: rendered only on the ranking page, showing the selection. */
  function DetailSidebar(pathname: string, selection: Option<Post>): (shown: Option<Option<Post>>)
    ensures shown.Some? <==> LayoutAt(pathname) == ThreeColumns
    ensures shown.Some? ==> shown.value == selection && PageAt(pathname) == Some(RankingPage)
  {
    if pathname == "/ranking" then Some(selection) else None
  }
}
