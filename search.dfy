/** The search service (internal/yt/services/search.go): one `Search.List`
    call, conversion of the usable items into `SearchResult`s, and a second,
    optional `Videos.List` call whose statistics and durations are merged in. */
module Search {
  import opened Common
  import opened YouTube

  const DefaultOrder := "relevance"
  const DefaultSafeSearch := "moderate"
  const DefaultVideoDuration := "any"
  const DefaultVideoType := "any"

  /** `searchService`: the configuration `Search` uses (the client is the
      `SearchApi` and `VideosApi` parameters of the operations). */
  datatype SearchService = SearchService(config: SearchConfig)

  /** `NewSearchService`: the caller's page size with the default order,
      safe-search level, duration and video type. */
  function NewSearchService(maxResults: int): (s: SearchService)
    ensures s.config.maxResults == maxResults
    ensures s.config.order == "relevance" && s.config.safeSearch == "moderate"
    ensures s.config.videoDuration == "any" && s.config.videoType == "any"
  {
    SearchService(SearchConfig(maxResults, DefaultOrder, DefaultSafeSearch,
                               DefaultVideoDuration, DefaultVideoType))
  }

  /** The `Search.List` call for `query` under `config`. */
  function SearchCallFor(query: string, config: SearchConfig): SearchCall {
    SearchCall(["id", "snippet"], query, config.maxResults, config.order, config.safeSearch,
               config.videoDuration, config.videoType, "video")
  }

  // --- Thumbnails ----------------------------------------------------------

  /** The sizes `getBestThumbnail` considers, best first; `standard` is not
      among them. */
  function Preference(t: ThumbnailDetails): seq<Option<Thumbnail>> {
    [t.maxres, t.high, t.medium, t.default]
  }

  /** `getBestThumbnail`: "" without thumbnails; otherwise the URL of the
      first size of the preference order that is present, or "" when none is. */
  function BestThumbnail(thumbnails: Option<ThumbnailDetails>): (url: string)
    ensures thumbnails.None? ==> url == ""
    ensures thumbnails.Some? ==>
              var cs := Preference(thumbnails.value);
              && ((forall i :: 0 <= i < |cs| ==> cs[i].None?) ==> url == "")
              && (forall i :: 0 <= i < |cs| && cs[i].Some? && (forall j :: 0 <= j < i ==> cs[j].None?) ==>
                    url == cs[i].value.url)
  {
    if thumbnails.None? then ""
    else
      var t := thumbnails.value;
      var cs := Preference(t);
      assert cs[0] == t.maxres && cs[1] == t.high && cs[2] == t.medium && cs[3] == t.default;
      if t.maxres.Some? then t.maxres.value.url
      else if t.high.Some? then t.high.value.url
      else if t.medium.Some? then t.medium.value.url
      else if t.default.Some? then t.default.value.url
      else ""
  }

  /** A smaller size is used only when every better one is missing, and the
      `standard` size never is. */
  lemma BestThumbnailPrefersLarger(t: ThumbnailDetails)
    ensures t.maxres.Some? ==> BestThumbnail(Some(t)) == t.maxres.value.url
    ensures t.maxres.None? && t.high.Some? ==> BestThumbnail(Some(t)) == t.high.value.url
    ensures t.maxres.None? && t.high.None? && t.medium.Some? ==> BestThumbnail(Some(t)) == t.medium.value.url
    ensures t.maxres.None? && t.high.None? && t.medium.None? && t.default.Some?
            ==> BestThumbnail(Some(t)) == t.default.value.url
    ensures t.maxres.None? && t.high.None? && t.medium.None? && t.default.None?
            ==> BestThumbnail(Some(t)) == ""
  {
    var cs := Preference(t);
    assert cs[0] == t.maxres && cs[1] == t.high && cs[2] == t.medium && cs[3] == t.default;
  }

  // --- Conversion ----------------------------------------------------------

  /** An item is converted only when both its `Id` and its `Snippet` are set. */
  predicate Usable(item: SearchItem) {
    item.id.Some? && item.snippet.Some?
  }

  /** The basic `SearchResult` of a usable item: no duration, no counts yet. */
  function BasicResult(item: SearchItem): (r: SearchResult)
    requires Usable(item)
  {
    var snippet := item.snippet.value;
    SearchResult(item.id.value.videoId, snippet.title, snippet.description, snippet.channelTitle,
                 snippet.channelId, snippet.publishedAt, "", 0, 0,
                 BestThumbnail(snippet.thumbnails), WatchUrl(item.id.value.videoId))
  }

  /** The usable items of a response, in their order. */
  function UsableItems(items: seq<SearchItem>): (kept: seq<SearchItem>)
    ensures forall i :: 0 <= i < |kept| ==> Usable(kept[i])
  {
    Filter(items, Usable)
  }

  /** The results of the first pass, one per usable item, in order. */
  function Converted(items: seq<SearchItem>): (results: seq<SearchResult>) {
    var kept := UsableItems(items);
    seq(|kept|, j requires 0 <= j < |kept| => BasicResult(kept[j]))
  }

  /** The video IDs of the first pass, one per usable item, in order. */
  function CollectedIds(items: seq<SearchItem>): (ids: seq<string>) {
    var kept := UsableItems(items);
    seq(|kept|, j requires 0 <= j < |kept| => kept[j].id.value.videoId)
  }

  /** One more item extends the results and the IDs by its own, or not at all. */
  lemma ConvertedSnoc(items: seq<SearchItem>, item: SearchItem)
    ensures Converted(items + [item]) == Converted(items) + (if Usable(item) then [BasicResult(item)] else [])
    ensures CollectedIds(items + [item]) == CollectedIds(items) + (if Usable(item) then [item.id.value.videoId] else [])
  {
    FilterSnoc(items, item, Usable);
  }

  /** The i-th result belongs to the i-th collected ID and links to its watch
      page; every usable item is converted, and only usable ones are. */
  lemma ConvertedMatchesIds(items: seq<SearchItem>)
    ensures |Converted(items)| == |CollectedIds(items)| <= |items|
    ensures forall i :: 0 <= i < |Converted(items)| ==>
              Converted(items)[i].videoId == CollectedIds(items)[i]
              && Converted(items)[i].url == WatchUrl(CollectedIds(items)[i])
    ensures forall i :: 0 <= i < |items| && Usable(items[i]) ==> BasicResult(items[i]) in Converted(items)
  {
    var kept := UsableItems(items);
    forall i | 0 <= i < |items| && Usable(items[i])
      ensures BasicResult(items[i]) in Converted(items)
    {
      var j :| 0 <= j < |kept| && kept[j] == items[i];
      assert Converted(items)[j] == BasicResult(items[i]);
    }
  }

  /** The first pass of `SearchWithConfig`: the loop over `response.Items`. */
  method ConvertItems(items: seq<SearchItem>) returns (results: seq<SearchResult>, videoIds: seq<string>)
    ensures results == Converted(items)
    ensures videoIds == CollectedIds(items)
  {
    results, videoIds := [], [];
    for i := 0 to |items|
      invariant results == Converted(items[..i])
      invariant videoIds == CollectedIds(items[..i])
    {
      var item := items[i];
      if item.id.Some? && item.snippet.Some? {
        videoIds := videoIds + [item.id.value.videoId];
        results := results + [BasicResult(item)];
      }
      assert items[..i + 1] == items[..i] + [item];
      ConvertedSnoc(items[..i], item);
    }
    assert items[..|items|] == items;
  }

  // --- Video details -------------------------------------------------------

  /** `VideoDetails`. */
  datatype VideoDetails = VideoDetails(duration: string, viewCount: nat, likeCount: nat)

  /** A video contributes details only when both its statistics and its
      content details are set. */
  predicate HasDetails(v: Video) {
    v.statistics.Some? && v.contentDetails.Some?
  }

  function DetailsOf(v: Video): VideoDetails
    requires HasDetails(v)
  {
    VideoDetails(v.contentDetails.value.duration, v.statistics.value.viewCount, v.statistics.value.likeCount)
  }

  /** The map `getVideoDetails` builds: each video with details under its ID, a
      later video overwriting an earlier one with the same ID. */
  function DetailsMap(videos: seq<Video>): (m: map<string, VideoDetails>)
    ensures forall id :: id in m ==>
              exists i :: 0 <= i < |videos| && videos[i].id == id && HasDetails(videos[i]) && m[id] == DetailsOf(videos[i])
    ensures forall i :: 0 <= i < |videos| && HasDetails(videos[i]) ==> videos[i].id in m
  {
    if |videos| == 0 then map[]
    else
      var m := DetailsMap(videos[..|videos| - 1]);
      var v := videos[|videos| - 1];
      if HasDetails(v) then m[v.id := DetailsOf(v)] else m
  }

  /** The last video with details for an ID decides that ID's entry. */
  lemma {:induction false} DetailsMapLastWins(videos: seq<Video>, i: int)
    requires 0 <= i < |videos| && HasDetails(videos[i])
    requires forall j :: i < j < |videos| && HasDetails(videos[j]) ==> videos[j].id != videos[i].id
    ensures videos[i].id in DetailsMap(videos) && DetailsMap(videos)[videos[i].id] == DetailsOf(videos[i])
    decreases |videos|
  {
    var prefix := videos[..|videos| - 1];
    var last := videos[|videos| - 1];
    if i < |videos| - 1 {
      assert forall j :: i < j < |prefix| ==> prefix[j] == videos[j];
      DetailsMapLastWins(prefix, i);
      assert prefix[i] == videos[i];
      assert HasDetails(last) ==> last.id != videos[i].id;
    }
  }

  /** `getVideoDetails`: one `Videos.List` call for all IDs; its error, or the
      map of the returned videos that carry details. */
  method GetVideoDetails(videoIds: seq<string>, videosApi: VideosApi) returns (r: Result<map<string, VideoDetails>, ApiError>)
    ensures videosApi(videoIds).Failure? ==> r == Failure(videosApi(videoIds).error)
    ensures videosApi(videoIds).Success? ==> r == Success(DetailsMap(videosApi(videoIds).value.items))
  {
    var response := videosApi(videoIds);
    if response.Failure? {
      return Failure(response.error);
    }
    var videos := response.value.items;
    var details: map<string, VideoDetails> := map[];
    for i := 0 to |videos|
      invariant details == DetailsMap(videos[..i])
    {
      var video := videos[i];
      if video.statistics.Some? && video.contentDetails.Some? {
        details := details[video.id := DetailsOf(video)];
      }
      assert videos[..i + 1][..i] == videos[..i];
    }
    assert videos[..|videos|] == videos;
    return Success(details);
  }

  // --- Merging -------------------------------------------------------------

  /** A result with the details of its video, if the map has any. */
  function Enriched(result: SearchResult, details: map<string, VideoDetails>): SearchResult {
    if result.videoId in details then
      var d := details[result.videoId];
      result.(duration := d.duration, viewCount := d.viewCount, likeCount := d.likeCount)
    else result
  }

  /** Every result enriched in place. */
  function Merged(results: seq<SearchResult>, details: map<string, VideoDetails>): seq<SearchResult> {
    seq(|results|, i requires 0 <= i < |results| => Enriched(results[i], details))
  }

  /** Merging keeps the number and order of the results and their identity,
      text, thumbnail and link; it sets the duration and the two counts from
      the map exactly where the map has the result's ID. */
  lemma MergedChangesOnlyDetails(results: seq<SearchResult>, details: map<string, VideoDetails>)
    ensures |Merged(results, details)| == |results|
    ensures forall i :: 0 <= i < |results| ==>
              var m := Merged(results, details)[i];
              && m.videoId == results[i].videoId && m.title == results[i].title
              && m.description == results[i].description && m.channelTitle == results[i].channelTitle
              && m.channelId == results[i].channelId && m.publishedAt == results[i].publishedAt
              && m.thumbnailUrl == results[i].thumbnailUrl && m.url == results[i].url
              && (results[i].videoId in details ==>
                    var d := details[results[i].videoId];
                    m.duration == d.duration && m.viewCount == d.viewCount && m.likeCount == d.likeCount)
              && (results[i].videoId !in details ==> m == results[i])
  {
  }

  /** The merge loop: `results[i]` gets the details of its ID where present. */
  method MergeDetails(results: seq<SearchResult>, details: map<string, VideoDetails>) returns (merged: seq<SearchResult>)
    ensures merged == Merged(results, details)
  {
    merged := results;
    for i := 0 to |results|
      invariant |merged| == |results|
      invariant forall j :: 0 <= j < i ==> merged[j] == Enriched(results[j], details)
      invariant forall j :: i <= j < |results| ==> merged[j] == results[j]
    {
      var result := merged[i];
      if result.videoId in details {
        var detail := details[result.videoId];
        merged := merged[i := result.(duration := detail.duration, viewCount := detail.viewCount,
                                      likeCount := detail.likeCount)];
      }
    }
  }

  /** The second pass: no call when there are no IDs; a failed details call
      is only logged and leaves the results as they are. */
  function WithDetails(results: seq<SearchResult>, videoIds: seq<string>, videosApi: VideosApi): seq<SearchResult> {
    if |videoIds| == 0 then results
    else match videosApi(videoIds)
      case Failure(_) => results
      case Success(response) => Merged(results, DetailsMap(response.items))
  }

  /** The results `SearchWithConfig` returns for the items of a response. */
  function Shaped(items: seq<SearchItem>, videosApi: VideosApi): seq<SearchResult> {
    WithDetails(Converted(items), CollectedIds(items), videosApi)
  }

  /** Shaping keeps one result per usable item, in order, each with its own ID
      and watch-page link, whatever the details call answers. */
  lemma ShapedKeepsOrder(items: seq<SearchItem>, videosApi: VideosApi)
    ensures |Shaped(items, videosApi)| == |CollectedIds(items)|
    ensures forall i :: 0 <= i < |CollectedIds(items)| ==>
              Shaped(items, videosApi)[i].videoId == CollectedIds(items)[i]
              && Shaped(items, videosApi)[i].url == WatchUrl(CollectedIds(items)[i])
  {
    ConvertedMatchesIds(items);
    MergedChangesOnlyDetails(Converted(items), map[]);
    var ids := CollectedIds(items);
    if |ids| > 0 && videosApi(ids).Success? {
      MergedChangesOnlyDetails(Converted(items), DetailsMap(videosApi(ids).value.items));
    }
  }

  /** A failed details call costs the details only: the basic results are
      returned unchanged. */
  lemma DetailsFailureTolerated(items: seq<SearchItem>, videosApi: VideosApi)
    requires videosApi(CollectedIds(items)).Failure?
    ensures Shaped(items, videosApi) == Converted(items)
  {
  }

  /** `SearchWithConfig`: the search call's error, wrapped, or the shaped
      results with the response's total and page token and the query asked. */
  method SearchWithConfig(query: string, config: SearchConfig, searchApi: SearchApi, videosApi: VideosApi)
    returns (r: Result<SearchResponse, CatalogError>)
    ensures searchApi(SearchCallFor(query, config)).Failure? ==>
              r == Failure(SearchFailed(searchApi(SearchCallFor(query, config)).error))
    ensures searchApi(SearchCallFor(query, config)).Success? ==>
              var response := searchApi(SearchCallFor(query, config)).value;
              r == Success(SearchResponse(Shaped(response.items, videosApi), response.totalResults,
                                          query, response.nextPageToken))
  {
    var call := SearchCallFor(query, config);
    var response := searchApi(call);
    if response.Failure? {
      return Failure(SearchFailed(response.error));
    }
    var results, videoIds := ConvertItems(response.value.items);
    if |videoIds| > 0 {
      var details := GetVideoDetails(videoIds, videosApi);
      if details.Success? {
        results := MergeDetails(results, details.value);
      }
    }
    return Success(SearchResponse(results, response.value.totalResults, query, response.value.nextPageToken));
  }

  /** `Search`: `SearchWithConfig` under the service's own configuration. */
  method Search(service: SearchService, query: string, searchApi: SearchApi, videosApi: VideosApi)
    returns (r: Result<SearchResponse, CatalogError>)
    ensures searchApi(SearchCallFor(query, service.config)).Failure? ==>
              r == Failure(SearchFailed(searchApi(SearchCallFor(query, service.config)).error))
    ensures searchApi(SearchCallFor(query, service.config)).Success? ==>
              var response := searchApi(SearchCallFor(query, service.config)).value;
              r == Success(SearchResponse(Shaped(response.items, videosApi), response.totalResults,
                                          query, response.nextPageToken))
  {
    r := SearchWithConfig(query, service.config, searchApi, videosApi);
  }

  /** A service made by `NewSearchService` asks for ID and snippet of videos
      only, with the default filters and the caller's page size. */
  lemma DefaultSearchCall(maxResults: int, query: string)
    ensures SearchCallFor(query, NewSearchService(maxResults).config)
            == SearchCall(["id", "snippet"], query, maxResults, "relevance", "moderate", "any", "any", "video")
  {
  }
}
