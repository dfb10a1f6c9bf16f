/** The playlist service (internal/yt/services/playlist.go): every page of a
    playlist, fetched in turn by page token; each page's usable items are
    appended to the results and then the details of that page's videos are
    merged into all results gathered so far. */
module Playlist {
  import opened Common
  import opened YouTube
  import opened Search

  /** A playlist item is converted only when both its `Snippet` and its
      `ContentDetails` are set. */
  predicate PlaylistUsable(item: PlaylistItem) {
    item.snippet.Some? && item.contentDetails.Some?
  }

  /** The basic result of a usable playlist item: its video's ID and link, the
      item's text and best thumbnail, no duration and no counts yet. */
  function PlaylistResult(item: PlaylistItem): SearchResult
    requires PlaylistUsable(item)
  {
    var snippet := item.snippet.value;
    var videoId := item.contentDetails.value.videoId;
    SearchResult(videoId, snippet.title, snippet.description, snippet.channelTitle,
                 snippet.channelId, snippet.publishedAt, "", 0, 0,
                 BestThumbnail(snippet.thumbnails), WatchUrl(videoId))
  }

  function UsablePlaylistItems(items: seq<PlaylistItem>): (kept: seq<PlaylistItem>)
    ensures forall i :: 0 <= i < |kept| ==> PlaylistUsable(kept[i])
  {
    Filter(items, PlaylistUsable)
  }

  /** The results of one page, one per usable item, in order. */
  function PageResults(items: seq<PlaylistItem>): seq<SearchResult> {
    var kept := UsablePlaylistItems(items);
    seq(|kept|, j requires 0 <= j < |kept| => PlaylistResult(kept[j]))
  }

  /** The video IDs of one page, one per usable item, in order. */
  function PageIds(items: seq<PlaylistItem>): seq<string> {
    var kept := UsablePlaylistItems(items);
    seq(|kept|, j requires 0 <= j < |kept| => kept[j].contentDetails.value.videoId)
  }

  lemma PageSnoc(items: seq<PlaylistItem>, item: PlaylistItem)
    ensures PageResults(items + [item]) == PageResults(items) + (if PlaylistUsable(item) then [PlaylistResult(item)] else [])
    ensures PageIds(items + [item]) == PageIds(items) + (if PlaylistUsable(item) then [item.contentDetails.value.videoId] else [])
  {
    FilterSnoc(items, item, PlaylistUsable);
  }

  /** The first pass over one page's items. */
  method ConvertPage(items: seq<PlaylistItem>) returns (results: seq<SearchResult>, videoIds: seq<string>)
    ensures results == PageResults(items)
    ensures videoIds == PageIds(items)
  {
    results, videoIds := [], [];
    for i := 0 to |items|
      invariant results == PageResults(items[..i])
      invariant videoIds == PageIds(items[..i])
    {
      var item := items[i];
      if item.snippet.Some? && item.contentDetails.Some? {
        videoIds := videoIds + [item.contentDetails.value.videoId];
        results := results + [PlaylistResult(item)];
      }
      assert items[..i + 1] == items[..i] + [item];
      PageSnoc(items[..i], item);
    }
    assert items[..|items|] == items;
  }

  /** The IDs of a sequence of results. */
  function VideoIds(results: seq<SearchResult>): (ids: seq<string>)
    ensures |ids| == |results|
  {
    seq(|results|, i requires 0 <= i < |results| => results[i].videoId)
  }

  /** Every result links to the watch page of its own video. */
  predicate LinksToOwnVideo(results: seq<SearchResult>) {
    forall i :: 0 <= i < |results| ==> results[i].url == WatchUrl(results[i].videoId)
  }

  /** The results after one page: the page's results appended, then, when it
      had IDs and the details call succeeded, that page's details merged into
      every result gathered so far. */
  function PageStep(acc: seq<SearchResult>, page: PlaylistPage, videosApi: VideosApi): seq<SearchResult> {
    WithDetails(acc + PageResults(page.items), PageIds(page.items), videosApi)
  }

  /** A page's details reach the results of earlier pages too: every result
      gathered so far is enriched by them, and the new page's results follow. */
  lemma PageStepEnrichesAll(acc: seq<SearchResult>, page: PlaylistPage, videosApi: VideosApi)
    requires |PageIds(page.items)| > 0 && videosApi(PageIds(page.items)).Success?
    ensures var details := DetailsMap(videosApi(PageIds(page.items)).value.items);
            var next := PageStep(acc, page, videosApi);
            && |next| == |acc| + |PageResults(page.items)|
            && (forall i :: 0 <= i < |acc| ==> next[i] == Enriched(acc[i], details))
            && (forall i :: 0 <= i < |PageResults(page.items)| ==>
                  next[|acc| + i] == Enriched(PageResults(page.items)[i], details))
  {
  }

  /** A page answer ends the walk when it is an error or has no next token. */
  predicate Terminal(response: Result<PlaylistPage, ApiError>) {
    response.Failure? || response.value.nextPageToken == ""
  }

  /** The page answers of a walk that ends: the last answer is terminal. */
  predicate FinitePages(pages: seq<Result<PlaylistPage, ApiError>>) {
    && |pages| > 0
    && Terminal(pages[|pages| - 1])
  }

  /** What the pagination loop returns when the `PlaylistItems.List` calls
      answer `pages` in turn, starting from the results `acc`. */
  function Paginate(pages: seq<Result<PlaylistPage, ApiError>>, videosApi: VideosApi, acc: seq<SearchResult>)
    : Result<seq<SearchResult>, CatalogError>
    requires FinitePages(pages)
    decreases |pages|
  {
    match pages[0]
    case Failure(e) => Failure(PlaylistFetchFailed(e))
    case Success(page) =>
      var next := PageStep(acc, page, videosApi);
      if page.nextPageToken == "" then Success(next)
      else Paginate(pages[1..], videosApi, next)
  }

  /** The index of the page that ends the walk. */
  function EndIndex(pages: seq<Result<PlaylistPage, ApiError>>): (k: nat)
    requires FinitePages(pages)
    ensures k < |pages| && Terminal(pages[k])
    ensures forall j :: 0 <= j < k ==> !Terminal(pages[j])
    decreases |pages|
  {
    if Terminal(pages[0]) then 0 else 1 + EndIndex(pages[1..])
  }

  /** The page token of the `i`-th call: "" first, then the previous page's. */
  function TokenFor(pages: seq<Result<PlaylistPage, ApiError>>, i: nat): string
    requires i <= |pages|
  {
    if i == 0 || pages[i - 1].Failure? then "" else pages[i - 1].value.nextPageToken
  }

  /** The `PlaylistItems.List` call for one page. */
  function PageCall(playlistId: string, max: int, pageToken: string): PlaylistItemsCall {
    PlaylistItemsCall(["id", "snippet", "contentDetails"], playlistId, max, pageToken)
  }

  /** The walk fails exactly when the page that ends it is an error, and then
      with that page's error. */
  lemma {:induction false} PaginateFailsOnError(pages: seq<Result<PlaylistPage, ApiError>>, videosApi: VideosApi,
                                                 acc: seq<SearchResult>)
    requires FinitePages(pages)
    ensures Paginate(pages, videosApi, acc).Failure? <==> pages[EndIndex(pages)].Failure?
    ensures Paginate(pages, videosApi, acc).Failure? ==>
              Paginate(pages, videosApi, acc).error == PlaylistFetchFailed(pages[EndIndex(pages)].error)
    decreases |pages|
  {
    if !Terminal(pages[0]) {
      PaginateFailsOnError(pages[1..], videosApi, PageStep(acc, pages[0].value, videosApi));
    }
  }

  /** The IDs of the usable items of the pages walked, in page order (an
      error page holds none). */
  function WalkedIds(pages: seq<Result<PlaylistPage, ApiError>>): seq<string>
    requires FinitePages(pages)
    decreases |pages|
  {
    var ids := if pages[0].Failure? then [] else PageIds(pages[0].value.items);
    if Terminal(pages[0]) then ids else ids + WalkedIds(pages[1..])
  }

  /** Merging the details never changes which videos the results hold. */
  lemma WithDetailsKeepsIds(results: seq<SearchResult>, videoIds: seq<string>, videosApi: VideosApi)
    ensures VideoIds(WithDetails(results, videoIds, videosApi)) == VideoIds(results)
    ensures LinksToOwnVideo(results) ==> LinksToOwnVideo(WithDetails(results, videoIds, videosApi))
  {
    if |videoIds| > 0 && videosApi(videoIds).Success? {
      MergedChangesOnlyDetails(results, DetailsMap(videosApi(videoIds).value.items));
    }
  }

  lemma VideoIdsAppend(a: seq<SearchResult>, b: seq<SearchResult>)
    ensures VideoIds(a + b) == VideoIds(a) + VideoIds(b)
    ensures LinksToOwnVideo(a) && LinksToOwnVideo(b) ==> LinksToOwnVideo(a + b)
  {
  }

  /** A page appends its own usable items' results, each linking to its video. */
  lemma PageResultsIds(items: seq<PlaylistItem>)
    ensures VideoIds(PageResults(items)) == PageIds(items)
    ensures LinksToOwnVideo(PageResults(items))
  {
  }

  /** One page appends its own IDs to those gathered so far, and keeps every
      result linked to its own video. */
  lemma PageStepKeepsIds(acc: seq<SearchResult>, page: PlaylistPage, videosApi: VideosApi)
    ensures VideoIds(PageStep(acc, page, videosApi)) == VideoIds(acc) + PageIds(page.items)
    ensures LinksToOwnVideo(acc) ==> LinksToOwnVideo(PageStep(acc, page, videosApi))
  {
    PageResultsIds(page.items);
    VideoIdsAppend(acc, PageResults(page.items));
    WithDetailsKeepsIds(acc + PageResults(page.items), PageIds(page.items), videosApi);
  }

  /** A successful walk returns the results it started with followed by one
      result per usable item of every page walked, in page and item order. */
  lemma {:induction false} PaginateCollectsInOrder(pages: seq<Result<PlaylistPage, ApiError>>, videosApi: VideosApi,
                                                    acc: seq<SearchResult>)
    requires FinitePages(pages)
    requires Paginate(pages, videosApi, acc).Success?
    ensures VideoIds(Paginate(pages, videosApi, acc).value) == VideoIds(acc) + WalkedIds(pages)
    decreases |pages|
  {
    if Terminal(pages[0]) {
      CollectLast(pages, videosApi, acc);
    } else {
      CollectNext(pages, videosApi, acc);
      PaginateCollectsInOrder(pages[1..], videosApi, PageStep(acc, pages[0].value, videosApi));
      CollectJoin(pages, videosApi, acc);
    }
  }

  /** The last page of a successful walk adds its own IDs. */
  lemma CollectLast(pages: seq<Result<PlaylistPage, ApiError>>, videosApi: VideosApi, acc: seq<SearchResult>)
    requires FinitePages(pages) && Terminal(pages[0]) && Paginate(pages, videosApi, acc).Success?
    ensures VideoIds(Paginate(pages, videosApi, acc).value) == VideoIds(acc) + WalkedIds(pages)
  {
    PageStepKeepsIds(acc, pages[0].value, videosApi);
  }

  /** A page with a next token hands its results on to the rest of the pages. */
  lemma CollectNext(pages: seq<Result<PlaylistPage, ApiError>>, videosApi: VideosApi, acc: seq<SearchResult>)
    requires FinitePages(pages) && !Terminal(pages[0])
    ensures FinitePages(pages[1..])
    ensures Paginate(pages, videosApi, acc) == Paginate(pages[1..], videosApi, PageStep(acc, pages[0].value, videosApi))
  {
  }

  /** A page with a next token adds its own IDs before those of the rest. */
  lemma CollectJoin(pages: seq<Result<PlaylistPage, ApiError>>, videosApi: VideosApi, acc: seq<SearchResult>)
    requires FinitePages(pages) && !Terminal(pages[0])
    ensures FinitePages(pages[1..])
    ensures VideoIds(PageStep(acc, pages[0].value, videosApi)) + WalkedIds(pages[1..]) == VideoIds(acc) + WalkedIds(pages)
  {
    PageStepKeepsIds(acc, pages[0].value, videosApi);
    WalkedIdsStep(pages);
    ConcatRegroup(VideoIds(PageStep(acc, pages[0].value, videosApi)), VideoIds(acc),
                  PageIds(pages[0].value.items), WalkedIds(pages[1..]), WalkedIds(pages));
  }

  /** The walked IDs of a page with a next token, unfolded once. */
  lemma WalkedIdsStep(pages: seq<Result<PlaylistPage, ApiError>>)
    requires FinitePages(pages) && !Terminal(pages[0])
    ensures FinitePages(pages[1..])
    ensures WalkedIds(pages) == PageIds(pages[0].value.items) + WalkedIds(pages[1..])
  {
  }

  /** Regrouping a concatenation of three ID lists. */
  lemma ConcatRegroup(x: seq<string>, a: seq<string>, b: seq<string>, c: seq<string>, y: seq<string>)
    requires x == a + b && y == b + c
    ensures x + c == a + y
  {
  }


  /** Every result of a successful walk links to the watch page of its own
      video, given that the results it started with do. */
  lemma {:induction false} PaginateLinksToOwnVideo(pages: seq<Result<PlaylistPage, ApiError>>, videosApi: VideosApi,
                                                    acc: seq<SearchResult>)
    requires FinitePages(pages)
    requires Paginate(pages, videosApi, acc).Success?
    requires LinksToOwnVideo(acc)
    ensures LinksToOwnVideo(Paginate(pages, videosApi, acc).value)
    decreases |pages|
  {
    PageStepKeepsIds(acc, pages[0].value, videosApi);
    if !Terminal(pages[0]) {
      PaginateLinksToOwnVideo(pages[1..], videosApi, PageStep(acc, pages[0].value, videosApi));
    }
  }

  /** `calls` are the walk's first `|calls|` requests. */
  predicate CallsMatch(calls: seq<PlaylistItemsCall>, playlistId: string, max: int, pages: seq<Result<PlaylistPage, ApiError>>)
    requires |calls| <= |pages|
  {
    forall j :: 0 <= j < |calls| ==> calls[j] == PageCall(playlistId, max, TokenFor(pages, j))
  }

  lemma CallsMatchExtend(calls: seq<PlaylistItemsCall>, playlistId: string, max: int,
                         pages: seq<Result<PlaylistPage, ApiError>>)
    requires |calls| < |pages| && CallsMatch(calls, playlistId, max, pages)
    ensures CallsMatch(calls + [PageCall(playlistId, max, TokenFor(pages, |calls|))], playlistId, max, pages)
  {
  }

  /** One turn of the walk, seen from page `i`: an error or a last page ends
      it, any other page hands its results on to the rest of the pages. */
  lemma PaginateAt(pages: seq<Result<PlaylistPage, ApiError>>, i: int, videosApi: VideosApi, acc: seq<SearchResult>)
    requires FinitePages(pages) && 0 <= i < |pages|
    ensures FinitePages(pages[i..])
    ensures pages[i].Failure? ==> Paginate(pages[i..], videosApi, acc) == Failure(PlaylistFetchFailed(pages[i].error))
    ensures pages[i].Success? && pages[i].value.nextPageToken == "" ==>
              Paginate(pages[i..], videosApi, acc) == Success(PageStep(acc, pages[i].value, videosApi))
    ensures !Terminal(pages[i]) ==>
              && i + 1 < |pages| && FinitePages(pages[i + 1..])
              && Paginate(pages[i..], videosApi, acc) == Paginate(pages[i + 1..], videosApi, PageStep(acc, pages[i].value, videosApi))
  {
    assert pages[i..][0] == pages[i];
    if !Terminal(pages[i]) {
      assert pages[i..][1..] == pages[i + 1..];
    }
  }

  /** The body of the pagination loop for one fetched page: append its
      results, then merge its details into everything gathered so far. */
  method AddPage(results: seq<SearchResult>, page: PlaylistPage, videosApi: VideosApi) returns (next: seq<SearchResult>)
    ensures next == PageStep(results, page, videosApi)
  {
    var pageResults, videoIds := ConvertPage(page.items);
    next := results + pageResults;
    if |videoIds| > 0 {
      var details := GetVideoDetails(videoIds, videosApi);
      if details.Success? {
        next := MergeDetails(next, details.value);
      }
    }
  }

  /** `GetPlaylistItems`: the `i`-th `PlaylistItems.List` call is answered by
      `pages[i]`. The calls carry the playlist, the page size and the page
      token "" and then each previous page's `NextPageToken`; the loop stops
      at the first error or at the first page without a next token. */
  method GetPlaylistItems(playlistId: string, max: int, pages: seq<Result<PlaylistPage, ApiError>>, videosApi: VideosApi)
    returns (r: Result<seq<SearchResult>, CatalogError>, calls: seq<PlaylistItemsCall>)
    requires FinitePages(pages)
    ensures r == Paginate(pages, videosApi, [])
    ensures |calls| == EndIndex(pages) + 1
    ensures forall j :: 0 <= j < |calls| ==> calls[j] == PageCall(playlistId, max, TokenFor(pages, j))
  {
    var results: seq<SearchResult> := [];
    var nextPageToken := "";
    var i := 0;
    var done := false;
    r, calls := Success([]), [];
    assert pages[0..] == pages;
    while !done
      invariant 0 <= i <= EndIndex(pages)
      invariant done ==> r == Paginate(pages, videosApi, []) && |calls| == i + 1 && i == EndIndex(pages)
      invariant !done ==> |calls| == i && nextPageToken == TokenFor(pages, i)
      invariant !done ==> FinitePages(pages[i..]) && Paginate(pages[i..], videosApi, results) == Paginate(pages, videosApi, [])
      invariant |calls| <= |pages| && CallsMatch(calls, playlistId, max, pages)
      decreases EndIndex(pages) - i + (if done then 0 else 1)
    {
      PaginateAt(pages, i, videosApi, results);
      CallsMatchExtend(calls, playlistId, max, pages);
      calls := calls + [PageCall(playlistId, max, nextPageToken)];
      var response := pages[i];
      if response.Failure? {
        r := Failure(PlaylistFetchFailed(response.error));
        done := true;
      } else {
        var page := response.value;
        results := AddPage(results, page, videosApi);
        if page.nextPageToken == "" {
          r := Success(results);
          done := true;
        } else {
          nextPageToken := page.nextPageToken;
          i := i + 1;
        }
      }
    }
  }
}
