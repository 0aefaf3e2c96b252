/** `pages/favorites.tsx`: the saved videos of the signed-in user, converted from the
    backend's flat records, removed one by one or all at once, and counted in the
    header. */
module Favorites {
  import opened Options
  import opened Text
  import opened Seqs
  import opened Storage
  import opened Videos

  /** A favorite as the backend returns it. */
  datatype FavoriteFromApi = FavoriteFromApi(videoId: int, image: string, duration: int, videoUrl: string, userName: string)

  /** One favorite as a displayable video: a single "hd" mp4 file whose link is the
      stored URL, and an author with id 0 and no URL. */
  function ToVideo(fav: FavoriteFromApi): Video {
    Video(fav.videoId, fav.image,
      [VideoFile(fav.videoId, "hd", "video/mp4", fav.videoUrl)],
      VideoUser(0, fav.userName, ""),
      fav.duration)
  }

  /** The `favoritesData.map(...)` transform. */
  function TransformAll(favs: seq<FavoriteFromApi>): (r: seq<Video>)
    ensures |r| == |favs|
    ensures forall i :: 0 <= i < |favs| ==> r[i] == ToVideo(favs[i])
  {
    if favs == [] then [] else [ToVideo(favs[0])] + TransformAll(favs[1..])
  }

  /** Reads a displayed favorite back as the backend record it came from. */
  function ToFavorite(v: Video): FavoriteFromApi {
    FavoriteFromApi(v.id, v.image, v.duration, BestVideoQuality(v.files), v.user.name)
  }

  /** The transform loses nothing: the played link is the stored URL, the video id is
      the favorite's id, and every field of the record can be read back. */
  lemma ToVideoRoundTrip(fav: FavoriteFromApi)
    ensures BestVideoQuality(ToVideo(fav).files) == fav.videoUrl
    ensures ToVideo(fav).id == fav.videoId
    ensures ToFavorite(ToVideo(fav)) == fav
  {
    assert FirstHdAt(ToVideo(fav).files, 0);
  }

  /** The whole list reads back, in order. */
  lemma TransformAllRoundTrip(favs: seq<FavoriteFromApi>)
    ensures forall i :: 0 <= i < |favs| ==> ToFavorite(TransformAll(favs)[i]) == favs[i]
  {
    forall i | 0 <= i < |favs| ensures ToFavorite(TransformAll(favs)[i]) == favs[i] {
      ToVideoRoundTrip(favs[i]);
    }
  }

  /** `prev.filter(v => v.id !== videoId)`. */
  function WithoutVideo(favorites: seq<Video>, videoId: int): seq<Video> {
    Filter(favorites, (v: Video) => v.id != videoId)
  }

  /** Removal by id: no entry with that id is left, every other entry stays, and the
      survivors keep their order. */
  lemma WithoutVideoRemovesOnlyThatId(favorites: seq<Video>, videoId: int)
    ensures forall v :: v in WithoutVideo(favorites, videoId) ==> v.id != videoId
    ensures forall v :: v in favorites && v.id != videoId ==> v in WithoutVideo(favorites, videoId)
    ensures IsSubsequence(WithoutVideo(favorites, videoId), favorites)
  {
    FilterIsSubsequence(favorites, (v: Video) => v.id != videoId);
  }

  /** Removing an id that no entry has changes nothing. */
  lemma WithoutAbsentVideo(favorites: seq<Video>, videoId: int)
    requires forall i :: 0 <= i < |favorites| ==> favorites[i].id != videoId
    ensures WithoutVideo(favorites, videoId) == favorites
  {
    FilterAllKept(favorites, (v: Video) => v.id != videoId);
  }

  /** The header count: "1 película guardada", otherwise "n películas guardadas". */
  function CountLabel(n: nat): string {
    NatToString(n) + " " + (if n == 1 then "película" else "películas") + " guardada" + (if n != 1 then "s" else "")
  }

  /** The singular form is used for exactly one favorite, and every other count gets
      the plural of both words. */
  lemma CountLabelForms(n: nat)
    ensures n == 1 <==> CountLabel(n) == "1 película guardada"
    ensures n != 1 ==> CountLabel(n) == NatToString(n) + " películas guardadas"
  {
    if n != 1 {
      var plural := NatToString(n) + " películas guardadas";
      assert CountLabel(n) == plural;
      if n < 10 {
        assert |plural| != |"1 película guardada"|;
      } else {
        assert |NatToString(n)| >= 2 by { assert NatToString(n) == NatToString(n / 10) + [DigitChar(n % 10)]; }
        assert |plural| > |"1 película guardada"|;
      }
    }
  }

  /** Different counts give different labels: the count is the text before the
      first space. */
  lemma CountLabelInjective(m: nat, n: nat)
    requires CountLabel(m) == CountLabel(n)
    ensures m == n
  {
    CountLabelStartsWithCount(m);
    CountLabelStartsWithCount(n);
    NatToStringInjective(m, n);
  }

  lemma CountLabelStartsWithCount(n: nat)
    ensures PrefixBefore(CountLabel(n), ' ') == NatToString(n)
  {
    var digits := NatToString(n);
    var rest := CountLabel(n)[|digits|..];
    assert CountLabel(n) == digits + rest;
    assert rest[0] == ' ';
    assert ' ' !in digits by {
      forall i | 0 <= i < |digits| ensures digits[i] != ' ' { assert IsAsciiDigit(digits[i]); }
    }
    PrefixBeforeAppend(digits, rest, ' ');
  }

  const LoginRequired: string := "Debes iniciar sesión para ver tus favoritos"
  const RemoveNeedsLogin: string := "Debes iniciar sesión"

  /** `!userId`: no stored user id, or an empty one. */
  function StoredUserId(storage: LocalStorage): (id: Option<string>)
    reads storage
    ensures id.Some? <==> "userId" in storage.items && storage.items["userId"] != ""
    ensures id.Some? ==> id.value == storage.items["userId"]
  {
    match storage.GetItem("userId")
    case Some(u) => if u != "" then Some(u) else None
    case None => None
  }

  /** A `removeFavorite(userId, videoId)` call. */
  datatype RemoveRequest = RemoveRequest(userId: string, videoId: int)

  /** `favorites.map(video => removeFavorite(userId, video.id))`: one removal per
      listed favorite, in list order. */
  function RemovalRequests(userId: string, favorites: seq<Video>): (r: seq<RemoveRequest>)
    ensures |r| == |favorites|
    ensures forall i :: 0 <= i < |favorites| ==> r[i] == RemoveRequest(userId, favorites[i].id)
  {
    if favorites == [] then [] else [RemoveRequest(userId, favorites[0].id)] + RemovalRequests(userId, favorites[1..])
  }

  class FavoritesPage {
    const storage: LocalStorage
    var favorites: seq<Video>
    var isLoading: bool
    var error: string

    constructor (storage: LocalStorage)
      ensures this.storage == storage
      ensures favorites == [] && isLoading && error == ""
    {
      this.storage := storage;
      favorites, isLoading, error := [], true, "";
    }

    /** The mount effect up to `getFavorites`: without a user id it stops with an
        error; otherwise it asks for that user's favorites. */
    method LoadFavoritesBegin() returns (request: Option<string>)
      modifies this
      ensures request == StoredUserId(storage)
      ensures request.None? ==> error == LoginRequired && !isLoading && favorites == old(favorites)
      ensures request.Some? ==> error == old(error) && isLoading == old(isLoading) && favorites == old(favorites)
    {
      request := StoredUserId(storage);
      if request.None? {
        error, isLoading := LoginRequired, false;
      }
    }

    /** The effect after `getFavorites` settles: the records are transformed in order,
        or the error message is shown; loading ends either way. */
    method LoadFavoritesFinished(outcome: Outcome<seq<FavoriteFromApi>>)
      modifies this
      ensures outcome.Success? ==> favorites == TransformAll(outcome.value) && error == old(error)
      ensures outcome.Failure? ==> favorites == old(favorites) && error == MessageOr(outcome.message, "Error al cargar favoritos")
      ensures !isLoading
    {
      if outcome.Success? {
        favorites := TransformAll(outcome.value);
      } else {
        error := MessageOr(outcome.message, "Error al cargar favoritos");
      }
      isLoading := false;
    }

    /** `handleRemoveFavorite` up to `removeFavorite`: without a user id it alerts and
        sends nothing. */
    method RemoveFavoriteBegin(videoId: int) returns (alert: Option<string>, request: Option<RemoveRequest>)
      ensures StoredUserId(storage).None? ==> alert == Some(RemoveNeedsLogin) && request.None?
      ensures StoredUserId(storage).Some? ==> alert.None? && request == Some(RemoveRequest(StoredUserId(storage).value, videoId))
    {
      var userId := StoredUserId(storage);
      if userId.None? {
        return Some(RemoveNeedsLogin), None;
      }
      alert, request := None, Some(RemoveRequest(userId.value, videoId));
    }

    /** After `removeFavorite` settles: on success every entry with that id is dropped;
        on failure the list stays and the error is alerted. */
    method RemoveFavoriteFinished(videoId: int, outcome: Outcome<()>) returns (alert: Option<string>)
      modifies this
      ensures outcome.Success? ==> favorites == WithoutVideo(old(favorites), videoId) && alert.None?
      ensures outcome.Failure? ==> favorites == old(favorites) && alert == Some(MessageOr(outcome.message, "Error al eliminar favorito"))
      ensures isLoading == old(isLoading) && error == old(error)
    {
      if outcome.Success? {
        favorites := WithoutVideo(favorites, videoId);
        alert := None;
      } else {
        alert := Some(MessageOr(outcome.message, "Error al eliminar favorito"));
      }
    }

    /** `clearAllFavorites` up to `Promise.all`: nothing without the user's
        confirmation; an alert without a user id; otherwise one removal per listed
        favorite, in list order. */
    method ClearAllBegin(confirmed: bool) returns (alert: Option<string>, requests: seq<RemoveRequest>)
      ensures !confirmed ==> alert.None? && requests == []
      ensures confirmed && StoredUserId(storage).None? ==> alert == Some(RemoveNeedsLogin) && requests == []
      ensures confirmed && StoredUserId(storage).Some? ==>
        && alert.None?
        && |requests| == |favorites|
        && forall i :: 0 <= i < |favorites| ==> requests[i] == RemoveRequest(StoredUserId(storage).value, favorites[i].id)
    {
      if !confirmed {
        return None, [];
      }
      var userId := StoredUserId(storage);
      if userId.None? {
        return Some(RemoveNeedsLogin), [];
      }
      alert, requests := None, RemovalRequests(userId.value, favorites);
    }

    /** After every removal settles: success empties the list; a failure alerts and
        keeps it. */
    method ClearAllFinished(outcome: Outcome<()>) returns (alert: Option<string>)
      modifies this
      ensures outcome.Success? ==> favorites == [] && alert.None?
      ensures outcome.Failure? ==> favorites == old(favorites) && alert == Some(MessageOr(outcome.message, "Error al limpiar favoritos"))
      ensures isLoading == old(isLoading) && error == old(error)
    {
      if outcome.Success? {
        favorites, alert := [], None;
      } else {
        alert := Some(MessageOr(outcome.message, "Error al limpiar favoritos"));
      }
    }
  }
}
