/** Record shapes: the program's own (internal/yt/types.go) and the parts of
    the YouTube Data API v3 responses that the catalog services read. */
module YouTube {
  import opened Common

  /** `yt.SearchResult`. `publishedAt` keeps the RFC 3339 text the API sent
      (the model does not parse times); the counts are `uint64`. */
  datatype SearchResult = SearchResult(
    videoId: string,
    title: string,
    description: string,
    channelTitle: string,
    channelId: string,
    publishedAt: string,
    duration: string,
    viewCount: nat,
    likeCount: nat,
    thumbnailUrl: string,
    url: string)

  /** `yt.SearchResponse`. */
  datatype SearchResponse = SearchResponse(
    results: seq<SearchResult>,
    totalResults: int,
    query: string,
    nextPageToken: string)

  /** `yt.SearchConfig`. */
  datatype SearchConfig = SearchConfig(
    maxResults: int,
    order: string,
    safeSearch: string,
    videoDuration: string,
    videoType: string)

  /** The watch page of a video, as both services build it. */
  function WatchUrl(videoId: string): (url: string)
    ensures |url| == |"https://www.youtube.com/watch?v="| + |videoId|
    ensures url[..|"https://www.youtube.com/watch?v="|] == "https://www.youtube.com/watch?v="
    ensures url[|"https://www.youtube.com/watch?v="|..] == videoId
  {
    "https://www.youtube.com/watch?v=" + videoId
  }

  // --- API records -------------------------------------------------------

  /** An error returned by `call.Do()`. */
  datatype ApiError = ApiError(message: string)

  /** The errors the catalog services return: "error executing search" and
      "error fetching playlist items", each wrapping the API's error. */
  datatype CatalogError = SearchFailed(cause: ApiError) | PlaylistFetchFailed(cause: ApiError)

  datatype Thumbnail = Thumbnail(url: string)

  /** `youtube.ThumbnailDetails`: each size may be missing. */
  datatype ThumbnailDetails = ThumbnailDetails(
    maxres: Option<Thumbnail>,
    high: Option<Thumbnail>,
    medium: Option<Thumbnail>,
    default: Option<Thumbnail>,
    standard: Option<Thumbnail>)

  /** `youtube.SearchResultSnippet` and `youtube.PlaylistItemSnippet` (the
      fields the services read are the same). */
  datatype Snippet = Snippet(
    title: string,
    description: string,
    channelTitle: string,
    channelId: string,
    publishedAt: string,
    thumbnails: Option<ThumbnailDetails>)

  datatype ResourceId = ResourceId(videoId: string)

  /** `youtube.SearchResult`. */
  datatype SearchItem = SearchItem(id: Option<ResourceId>, snippet: Option<Snippet>)

  /** `youtube.SearchListResponse`. */
  datatype SearchListResponse = SearchListResponse(
    items: seq<SearchItem>,
    totalResults: int,
    nextPageToken: string)

  datatype VideoStatistics = VideoStatistics(viewCount: nat, likeCount: nat)
  datatype VideoContentDetails = VideoContentDetails(duration: string)

  /** `youtube.Video`. */
  datatype Video = Video(
    id: string,
    statistics: Option<VideoStatistics>,
    contentDetails: Option<VideoContentDetails>)

  /** `youtube.VideoListResponse`. */
  datatype VideoListResponse = VideoListResponse(items: seq<Video>)

  datatype PlaylistItemContentDetails = PlaylistItemContentDetails(videoId: string)

  /** `youtube.PlaylistItem`. */
  datatype PlaylistItem = PlaylistItem(
    snippet: Option<Snippet>,
    contentDetails: Option<PlaylistItemContentDetails>)

  /** `youtube.PlaylistItemListResponse`. */
  datatype PlaylistPage = PlaylistPage(items: seq<PlaylistItem>, nextPageToken: string)

  // --- API requests ------------------------------------------------------

  /** A `Search.List` call: part, q, maxResults, order, safeSearch,
      videoDuration, videoType and type. */
  datatype SearchCall = SearchCall(
    parts: seq<string>,
    query: string,
    maxResults: int,
    order: string,
    safeSearch: string,
    videoDuration: string,
    videoType: string,
    kind: string)

  /** A `PlaylistItems.List` call. */
  datatype PlaylistItemsCall = PlaylistItemsCall(
    parts: seq<string>,
    playlistId: string,
    maxResults: int,
    pageToken: string)

  /** The answer of `Search.List` to each call. */
  type SearchApi = SearchCall -> Result<SearchListResponse, ApiError>

  /** The answer of `Videos.List(statistics, contentDetails)` to each list
      of video IDs (the Go code joins them with commas). */
  type VideosApi = seq<string> -> Result<VideoListResponse, ApiError>
}
