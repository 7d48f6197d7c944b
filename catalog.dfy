/** The records the pages exchange with the catalogue API and with the
    browser's persisted store, and the store itself.

    `localStorage` holds JSON text under string keys; here it holds the parsed
    records directly (`Stored`), so `JSON.parse`/`JSON.stringify` disappear
    and a key whose record is of another kind reads as absent. */
module Catalog {
  import opened Wrappers

  /** A catalogue entry, with the fields the pages read. `kind` is the API's
      `type` field ("TV", "Movie", ...); `genres` holds the genre names. */
  datatype Anime = Anime(
    malId: int,
    title: string,
    images: string,
    kind: Option<string>,
    score: Option<real>,
    popularity: Option<int>,
    genres: Option<seq<string>>)

  datatype Character = Character(malId: int, name: string)

  datatype Recommendation = Recommendation(malId: int, title: string)

  /** The record the detail page saves in the favorites list. */
  datatype Favorite = Favorite(malId: int, title: string, images: string, score: Option<real>)

  /** One comment of the comments section; `date` is the rendered clock,
      `id` the clock in milliseconds. */
  datatype Comment = Comment(text: string, rating: int, date: string, id: int)

  /** A settled `fetch`: `ok`, `status`, `statusText`, the body as text and
      the list or record under the body's data field (`None` when absent). */
  datatype Response<T> = Response(ok: bool, status: nat, statusText: string, body: string, data: Option<T>)

  /** What the pages persist: the favorites list, one anime's comments, or
      one anime's cached detail aggregate with the clock it was stored at. */
  datatype Stored =
    | FavoritesList(favorites: seq<Favorite>)
    | CommentsList(comments: seq<Comment>)
    | DetailEntry(animeData: Option<Anime>, charData: Option<seq<Character>>,
                  recData: Option<seq<Recommendation>>, timestamp: int)

  const FavoritesKey: string := "favorites"

  function CommentsKey(animeId: string): string {
    "comments-" + animeId
  }

  function CacheKey(id: string): string {
    "anime_" + id
  }

  /** The three families of keys never collide, and each family tells its
      anime ids apart, so no page can read or overwrite another's record. */
  lemma KeysDistinct(a: string, b: string)
    ensures FavoritesKey != CommentsKey(a) && FavoritesKey != CacheKey(b)
    ensures CommentsKey(a) != CacheKey(b)
    ensures CommentsKey(a) == CommentsKey(b) ==> a == b
    ensures CacheKey(a) == CacheKey(b) ==> a == b
  {
    assert FavoritesKey[0] == 'f' && CommentsKey(a)[0] == 'c' && CacheKey(b)[0] == 'a';
    if CommentsKey(a) == CommentsKey(b) {
      assert a == CommentsKey(a)[9..] && b == CommentsKey(b)[9..];
    }
    if CacheKey(a) == CacheKey(b) {
      assert a == CacheKey(a)[6..] && b == CacheKey(b)[6..];
    }
  }

  /** The browser's `localStorage`, as a map from key to record. */
  class Store {
    var items: map<string, Stored>

    constructor (initial: map<string, Stored>)
      ensures items == initial
    {
      items := initial;
    }

    /** `localStorage.setItem(key, value)`. */
    method SetItem(key: string, value: Stored)
      modifies this
      ensures items == old(items)[key := value]
    {
      items := items[key := value];
    }

    /** `localStorage.removeItem(key)`. */
    method RemoveItem(key: string)
      modifies this
      ensures items == old(items) - {key}
    {
      items := items - {key};
    }
  }
}
