/** src/AnimeDetailPage.jsx: one anime's page. On mount it derives the
    favorite flag from the stored favorites, then serves the details from the
    store when they were saved less than an hour ago, and otherwise evicts the
    stale record, requests the details, the characters and the
    recommendations together, and saves the three only when all three
    succeeded. The favorite button appends or removes the anime in the stored
    favorites. */
module DetailPage {
  import opened Wrappers
  import opened Text
  import opened Catalog
  import opened Seqs
  import opened Favorites

  /** `1000 * 60 * 60`: how long a saved aggregate is served, in
      milliseconds. */
  const CacheTtl: int := 1000 * 60 * 60

  /** The record under `key` that a read at clock `now` serves: a saved
      aggregate younger than an hour. */
  function FreshEntry(items: map<string, Stored>, key: string, now: int): (r: Option<Stored>)
    ensures r.Some? <==> key in items && items[key].DetailEntry? && now - items[key].timestamp < CacheTtl
    ensures r.Some? ==> r.value == items[key]
  {
    if key in items && items[key].DetailEntry? && now - items[key].timestamp < CacheTtl then Some(items[key])
    else None
  }

  /** The store after the read at `now`: a record that is present but not
      served is removed, and no other key is touched. */
  function AfterLookup(items: map<string, Stored>, key: string, now: int): (r: map<string, Stored>)
    ensures FreshEntry(items, key, now).Some? ==> r == items
    ensures FreshEntry(items, key, now).None? ==> key !in r
    ensures forall k :: k != key ==> (k in r <==> k in items)
    ensures forall k :: k != key && k in items ==> r[k] == items[k]
  {
    if key in items && FreshEntry(items, key, now).None? then items - {key} else items
  }

  const DetailsPrefix: string := "Failed to load " + "anime details: "
  const CharactersPrefix: string := "Failed to load " + "characters: "
  const RecommendationsPrefix: string := "Failed to load " + "recommendations: "

  /** `${res.status} ${res.statusText}`. */
  function StatusLine<T>(r: Response<T>): string {
    DecimalString(r.status) + " " + r.statusText
  }

  /** The error thrown for the first of the three responses that is not ok,
      checked in the order details, characters, recommendations; the
      recommendations message also carries the body text. */
  function DetailFailure(a: Response<Anime>, c: Response<seq<Character>>, r: Response<seq<Recommendation>>)
    : (m: Option<string>)
    ensures m.None? <==> a.ok && c.ok && r.ok
  {
    if !a.ok then Some(DetailsPrefix + StatusLine(a))
    else if !c.ok then Some(CharactersPrefix + StatusLine(c))
    else if !r.ok then Some(RecommendationsPrefix + StatusLine(r) + ". Response: " + r.body)
    else None
  }

  /** Each failure names the request that failed first: the message starts
      with the prefix of the details, the characters or the recommendations
      request exactly when that request is the first one that failed. */
  lemma FailureNamesFirst(a: Response<Anime>, c: Response<seq<Character>>, r: Response<seq<Recommendation>>)
    ensures var m := DetailFailure(a, c, r);
      && (!a.ok <==> m.Some? && StartsWith(m.value, DetailsPrefix))
      && (a.ok && !c.ok <==> m.Some? && StartsWith(m.value, CharactersPrefix))
      && (a.ok && c.ok && !r.ok <==> m.Some? && StartsWith(m.value, RecommendationsPrefix))
  {
    var m := DetailFailure(a, c, r);
    assert DetailsPrefix[15] == 'a' && CharactersPrefix[15] == 'c' && RecommendationsPrefix[15] == 'r';
    if m.Some? {
      if !a.ok {
        assert m.value[..|DetailsPrefix|] == DetailsPrefix;
      } else if !c.ok {
        assert m.value[..|CharactersPrefix|] == CharactersPrefix;
      } else {
        assert m.value[..|RecommendationsPrefix|] == RecommendationsPrefix;
      }
    }
  }

  /** After its prefix, a failure message carries the failed response's
      status, which `parseInt` reads back, and ends with its status text (for
      the recommendations, followed by the body the server sent). */
  lemma FailureCarriesStatus(a: Response<Anime>, c: Response<seq<Character>>, r: Response<seq<Recommendation>>)
    ensures var m := DetailFailure(a, c, r);
      && (!a.ok ==> ParseInt(m.value[|DetailsPrefix|..]) == Some(a.status as int)
                    && EndsWith(m.value, " " + a.statusText))
      && (a.ok && !c.ok ==> ParseInt(m.value[|CharactersPrefix|..]) == Some(c.status as int)
                            && EndsWith(m.value, " " + c.statusText))
      && (a.ok && c.ok && !r.ok ==>
            ParseInt(m.value[|RecommendationsPrefix|..]) == Some(r.status as int)
            && EndsWith(m.value, " " + r.statusText + ". Response: " + r.body))
  {
    var m := DetailFailure(a, c, r);
    if !a.ok {
      assert m.value == DetailsPrefix + StatusLine(a) + "";
      StatusMessage(DetailsPrefix, a, "");
      assert " " + a.statusText + "" == " " + a.statusText;
    } else if !c.ok {
      assert m.value == CharactersPrefix + StatusLine(c) + "";
      StatusMessage(CharactersPrefix, c, "");
      assert " " + c.statusText + "" == " " + c.statusText;
    } else if !r.ok {
      var after := ". Response: " + r.body;
      assert m.value == RecommendationsPrefix + StatusLine(r) + after;
      StatusMessage(RecommendationsPrefix, r, after);
      assert " " + r.statusText + ". Response: " + r.body == " " + r.statusText + after;
    }
  }

  /** A message made of a prefix, the status line of `resp` and some text
      after it gives the status back after the prefix, and ends with the
      status text and that text. */
  lemma StatusMessage<T>(prefix: string, resp: Response<T>, after: string)
    ensures var m := prefix + StatusLine(resp) + after;
      && ParseInt(m[|prefix|..]) == Some(resp.status as int)
      && EndsWith(m, " " + resp.statusText + after)
  {
    var d := DecimalString(resp.status);
    var tail := " " + resp.statusText + after;
    var m := prefix + StatusLine(resp) + after;
    assert m == prefix + d + tail;
    assert m[|prefix|..] == d + tail;
    assert tail[0] == ' ';
    ParseDecimalThen(resp.status, tail);
  }

  /** The store after the three responses, all or nothing: a failed request
      leaves it untouched; when all three succeed, exactly `key` is
      (over)written, with the three payloads and the clock `savedAt`. */
  function AfterFetch(items: map<string, Stored>, key: string, savedAt: int, a: Response<Anime>,
                      c: Response<seq<Character>>, r: Response<seq<Recommendation>>): (m: map<string, Stored>)
    ensures !(a.ok && c.ok && r.ok) ==> m == items
    ensures a.ok && c.ok && r.ok ==>
      && key in m && m[key] == DetailEntry(a.data, c.data, r.data, savedAt)
      && m - {key} == items - {key}
  {
    if DetailFailure(a, c, r).None? then items[key := DetailEntry(a.data, c.data, r.data, savedAt)] else items
  }

  /** A saved aggregate is served back as it was saved by every read in the
      hour that follows, and the first read an hour or more later evicts
      it. */
  lemma SavedThenRead(items: map<string, Stored>, key: string, savedAt: int, later: int,
                      a: Response<Anime>, c: Response<seq<Character>>, r: Response<seq<Recommendation>>)
    requires a.ok && c.ok && r.ok
    ensures var saved := AfterFetch(items, key, savedAt, a, c, r);
      && (later - savedAt < CacheTtl ==> FreshEntry(saved, key, later) == Some(DetailEntry(a.data, c.data, r.data, savedAt)))
      && (later - savedAt >= CacheTtl ==> FreshEntry(saved, key, later).None? && key !in AfterLookup(saved, key, later))
  {
    var saved := AfterFetch(items, key, savedAt, a, c, r);
    assert saved[key].timestamp == savedAt;
  }

  /** The record the favorite button saves. */
  function FavoriteOf(a: Anime): Favorite {
    Favorite(a.malId, a.title, a.images, a.score)
  }

  /** The list `handleToggleFavorite` saves, from the stored list and the
      flag as it was: every entry with the anime's id removed, or the
      anime's record appended. */
  function Toggled(favs: seq<Favorite>, wasFavorite: bool, a: Anime): seq<Favorite> {
    if wasFavorite then WithoutId(favs, a.malId) else favs + [FavoriteOf(a)]
  }

  /** Toggling an anime that is not among the favorites on and off again
      gives the list back as it was. */
  lemma ToggleTwice(favs: seq<Favorite>, a: Anime)
    requires forall f :: f in favs ==> f.malId != a.malId
    ensures Toggled(Toggled(favs, false, a), true, a) == favs
  {
    var other := (f: Favorite) => f.malId != a.malId;
    KeepAppend(favs, [FavoriteOf(a)], other);
    WithoutAbsentId(favs, a.malId);
    assert Keep([FavoriteOf(a)], other) == [] by { assert [FavoriteOf(a)][1..] == []; }
  }

  /** The flipped flag is what the page derives again from the saved list on
      its next mount, when the route id reads as the anime's id. */
  lemma ToggleAgrees(favs: seq<Favorite>, wasFavorite: bool, a: Anime, routeId: string)
    requires ParseInt(routeId) == Some(a.malId)
    ensures HasId(Toggled(favs, wasFavorite, a), ParseInt(routeId)) == !wasFavorite
  {
    var t := Toggled(favs, wasFavorite, a);
    HasIdMeans(t, Some(a.malId));
    if wasFavorite {
      WithoutIdMeans(favs, a.malId);
    } else {
      assert t[|t| - 1] == FavoriteOf(a);
    }
  }

  /** The detail page's state for the route id `id`, and the store. */
  class AnimeDetailPage {
    var anime: Option<Anime>
    var characters: seq<Character>
    var recommendations: seq<Recommendation>
    var loading: bool
    var error: Option<string>
    var isFavorite: bool
    const id: string
    const store: Store

    constructor (id: string, store: Store)
      ensures this.id == id && this.store == store
      ensures anime == None && characters == [] && recommendations == []
      ensures loading && error == None && !isFavorite
    {
      this.id := id;
      this.store := store;
      anime := None;
      characters := [];
      recommendations := [];
      loading := true;
      error := None;
      isFavorite := false;
    }

    /** The effect for the route id: the favorite flag, then the cached or
        fetched details. `now` is the clock at the read, `savedAt` the clock
        when the aggregate is saved, and the three responses are the answers
        the requests get. `fetched` tells whether the requests were made. */
    method Mount(now: int, savedAt: int, a: Response<Anime>, c: Response<seq<Character>>,
                 r: Response<seq<Recommendation>>) returns (fetched: bool)
      modifies this, store
      ensures isFavorite == HasId(SavedFavorites(old(store.items)), ParseInt(id))
      ensures !loading
      ensures fetched <==> FreshEntry(old(store.items), CacheKey(id), now).None?
      ensures !fetched ==>
        var e := FreshEntry(old(store.items), CacheKey(id), now).value;
        && anime == e.animeData && characters == e.charData.GetOr([])
        && recommendations == e.recData.GetOr([]) && error == None
        && store.items == old(store.items)
      ensures fetched ==>
        && error == DetailFailure(a, c, r)
        && store.items == AfterFetch(AfterLookup(old(store.items), CacheKey(id), now), CacheKey(id), savedAt, a, c, r)
        && (error.None? ==> anime == a.data && characters == c.data.GetOr([]) && recommendations == r.data.GetOr([]))
        && (error.Some? ==> anime == old(anime) && characters == old(characters)
                            && recommendations == old(recommendations))
    {
      var favorites := SavedFavorites(store.items);
      isFavorite := HasId(favorites, ParseInt(id));
      fetched := LoadDetails(now, savedAt, a, c, r);
    }

    /** `fetchDetails`: the spinner and a cleared error, then the cache step
        and, on a miss, the requests. */
    method LoadDetails(now: int, savedAt: int, a: Response<Anime>, c: Response<seq<Character>>,
                       r: Response<seq<Recommendation>>) returns (fetched: bool)
      modifies this, store
      ensures isFavorite == old(isFavorite) && !loading
      ensures fetched <==> FreshEntry(old(store.items), CacheKey(id), now).None?
      ensures !fetched ==>
        var e := FreshEntry(old(store.items), CacheKey(id), now).value;
        && anime == e.animeData && characters == e.charData.GetOr([])
        && recommendations == e.recData.GetOr([]) && error == None
        && store.items == old(store.items)
      ensures fetched ==>
        && error == DetailFailure(a, c, r)
        && store.items == AfterFetch(AfterLookup(old(store.items), CacheKey(id), now), CacheKey(id), savedAt, a, c, r)
        && (error.None? ==> anime == a.data && characters == c.data.GetOr([]) && recommendations == r.data.GetOr([]))
        && (error.Some? ==> anime == old(anime) && characters == old(characters)
                            && recommendations == old(recommendations))
    {
      loading := true;
      error := None;
      var hit := ReadCache(now);
      fetched := !hit;
      if fetched {
        FetchDetails(savedAt, a, c, r);
      }
    }

    /** The cache step: serve a fresh record, or evict a stale one. */
    method ReadCache(now: int) returns (hit: bool)
      modifies this, store
      ensures hit <==> FreshEntry(old(store.items), CacheKey(id), now).Some?
      ensures isFavorite == old(isFavorite) && error == old(error)
      ensures hit ==>
        var e := FreshEntry(old(store.items), CacheKey(id), now).value;
        && anime == e.animeData && characters == e.charData.GetOr([])
        && recommendations == e.recData.GetOr([]) && !loading
        && store.items == old(store.items)
      ensures !hit ==>
        && anime == old(anime) && characters == old(characters) && recommendations == old(recommendations)
        && loading == old(loading)
        && store.items == AfterLookup(old(store.items), CacheKey(id), now)
    {
      var key := CacheKey(id);
      if key in store.items {
        var cached := FreshEntry(store.items, key, now);
        if cached.Some? {
          anime := cached.value.animeData;
          characters := cached.value.charData.GetOr([]);
          recommendations := cached.value.recData.GetOr([]);
          loading := false;
          return true;
        }
        store.RemoveItem(key);
      }
      return false;
    }

    /** The three requests and the `try`/`catch`/`finally` around them. */
    method FetchDetails(savedAt: int, a: Response<Anime>, c: Response<seq<Character>>,
                        r: Response<seq<Recommendation>>)
      modifies this, store
      ensures isFavorite == old(isFavorite) && !loading
      ensures error == (if DetailFailure(a, c, r).Some? then DetailFailure(a, c, r) else old(error))
      ensures store.items == AfterFetch(old(store.items), CacheKey(id), savedAt, a, c, r)
      ensures DetailFailure(a, c, r).None? ==>
        anime == a.data && characters == c.data.GetOr([]) && recommendations == r.data.GetOr([])
      ensures DetailFailure(a, c, r).Some? ==>
        anime == old(anime) && characters == old(characters) && recommendations == old(recommendations)
    {
      var failure := DetailFailure(a, c, r);
      if failure.Some? {
        error := failure;
      } else {
        anime := a.data;
        characters := c.data.GetOr([]);
        recommendations := r.data.GetOr([]);
        store.SetItem(CacheKey(id), DetailEntry(a.data, c.data, r.data, savedAt));
      }
      loading := false;
    }

    /** `handleToggleFavorite`, offered once the anime is shown: save the
        toggled list and flip the flag. */
    method ToggleFavorite()
      modifies this, store
      requires anime.Some?
      ensures anime == old(anime) && error == old(error) && loading == old(loading)
      ensures characters == old(characters) && recommendations == old(recommendations)
      ensures isFavorite == !old(isFavorite)
      ensures store.items ==
        old(store.items)[FavoritesKey := FavoritesList(Toggled(SavedFavorites(old(store.items)), old(isFavorite), anime.value))]
    {
      var favorites := SavedFavorites(store.items);
      if isFavorite {
        favorites := WithoutId(favorites, anime.value.malId);
      } else {
        favorites := favorites + [FavoriteOf(anime.value)];
      }
      store.SetItem(FavoritesKey, FavoritesList(favorites));
      isFavorite := !isFavorite;
    }
  }
}
