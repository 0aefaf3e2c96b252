/** `components/MovieSection.tsx`: one titled row of videos on the home page: which
    endpoint the title selects, how many results are shown, and the guard that keeps
    a video's favorite button from firing twice. */
module MovieSection {
  import opened Options
  import opened Text
  import opened Videos

  const PopularTitle: string := "Más populares"

  const QueryMap: map<string, string> := map[
    "Recomendadas para ti" := "nature",
    PopularTitle := "popular",
    "Nuevos lanzamientos" := "technology",
    "Series destacadas" := "ocean"]

  /** `getSearchQuery`: `queryMap[title] || "nature"`; every listed query is non-empty. */
  function SearchQuery(title: string): string {
    if title in QueryMap && QueryMap[title] != "" then QueryMap[title] else "nature"
  }

  /** The four section titles select their own query and any other title searches
      for nature; every query is plain lower-case ASCII, which `encodeURIComponent`
      leaves as it is. */
  lemma SearchQueryCases(title: string)
    ensures title == "Recomendadas para ti" ==> SearchQuery(title) == "nature"
    ensures title == PopularTitle ==> SearchQuery(title) == "popular"
    ensures title == "Nuevos lanzamientos" ==> SearchQuery(title) == "technology"
    ensures title == "Series destacadas" ==> SearchQuery(title) == "ocean"
    ensures title !in QueryMap ==> SearchQuery(title) == "nature"
    ensures var q := SearchQuery(title); q != [] && forall i :: 0 <= i < |q| ==> IsAsciiLower(q[i])
  {
  }

  /** The path requested for a section. */
  function Endpoint(title: string): string {
    if title == PopularTitle then "/videos/popular" else "/videos/search?query=" + SearchQuery(title)
  }

  /** The popular section uses the popular endpoint; every other section searches,
      with its mapped query after the fixed prefix. */
  lemma EndpointChoice(title: string)
    ensures title == PopularTitle <==> Endpoint(title) == "/videos/popular"
    ensures title != PopularTitle ==>
      var prefix := "/videos/search?query=";
      |Endpoint(title)| > |prefix| && Endpoint(title)[..|prefix|] == prefix
      && Endpoint(title)[|prefix|..] == SearchQuery(title)
  {
    var prefix := "/videos/search?query=";
    if title != PopularTitle {
      SearchQueryCases(title);
      var e := Endpoint(title);
      assert e == prefix + SearchQuery(title);
      assert e[..|prefix|] == prefix;
      assert |e| != |"/videos/popular"|;
    }
  }

  const MaxShown: nat := 6

  /** `(result.videos || []).slice(0, 6)`: the first six results at most, in order;
      nothing when the response has no list. */
  function ShownVideos(result: Option<seq<Video>>): (r: seq<Video>)
    ensures result.None? ==> r == []
    ensures result.Some? ==> |r| == if |result.value| < MaxShown then |result.value| else MaxShown
    ensures result.Some? ==> r == result.value[..|r|]
  {
    match result
    case None => []
    case Some(vs) => if |vs| <= MaxShown then vs else vs[..MaxShown]
  }

  /** `favorites.includes(videoId)`. */
  function IsFavorite(favorites: seq<int>, videoId: int): (b: bool)
    ensures b <==> exists i :: 0 <= i < |favorites| && favorites[i] == videoId
  {
    videoId in favorites
  }

  class MovieSectionState {
    const title: string
    var videos: seq<Video>
    var isLoading: bool
    var error: string
    /** The id whose favorite toggle is in progress, if any. */
    var isTogglingFavorite: Option<int>

    constructor (title: string)
      ensures this.title == title
      ensures videos == [] && isLoading && error == "" && isTogglingFavorite.None?
    {
      this.title := title;
      videos, isLoading, error, isTogglingFavorite := [], true, "", None;
    }

    /** `fetchVideos` up to `fetch`: loading starts, the error is cleared, and the
        section's endpoint is requested. */
    method FetchBegin() returns (endpoint: string)
      modifies this
      ensures endpoint == Endpoint(title)
      ensures isLoading && error == ""
      ensures videos == old(videos) && isTogglingFavorite == old(isTogglingFavorite)
    {
      endpoint := Endpoint(title);
      isLoading, error := true, "";
    }

    /** After the request settles: at most six videos are kept, or the error is
        shown; loading ends either way. */
    method FetchFinished(outcome: Outcome<Option<seq<Video>>>)
      modifies this
      ensures outcome.Success? ==> videos == ShownVideos(outcome.value) && error == old(error)
      ensures outcome.Failure? ==>
        videos == old(videos) && error == "Error loading videos: " + outcome.message.GetOr("undefined")
      ensures !isLoading && isTogglingFavorite == old(isTogglingFavorite)
    {
      if outcome.Success? {
        videos := ShownVideos(outcome.value);
      } else {
        error := "Error loading videos: " + outcome.message.GetOr("undefined");
      }
      isLoading := false;
    }

    /** `handleToggleFavorite` up to the parent's call: a second click on the video
        already in progress is ignored; any other click marks its video and calls the
        parent. */
    method ToggleBegin(videoId: int) returns (called: bool)
      modifies this
      ensures old(isTogglingFavorite) == Some(videoId) ==> !called && isTogglingFavorite == old(isTogglingFavorite)
      ensures old(isTogglingFavorite) != Some(videoId) ==> called && isTogglingFavorite == Some(videoId)
      ensures videos == old(videos) && isLoading == old(isLoading) && error == old(error)
    {
      if isTogglingFavorite == Some(videoId) {
        return false;
      }
      isTogglingFavorite := Some(videoId);
      called := true;
    }

    /** The `finally` after the parent's call, whether it resolved or rejected. */
    method ToggleFinished()
      modifies this
      ensures isTogglingFavorite.None?
      ensures videos == old(videos) && isLoading == old(isLoading) && error == old(error)
    {
      isTogglingFavorite := None;
    }
  }
}
