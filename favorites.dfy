/** The favorites list: how the pages read it from the store, test it and
    take entries out of it, and src/FavoritesPage.jsx, which lists it and
    removes entries. */
module Favorites {
  import opened Wrappers
  import opened Catalog
  import opened Seqs

  /** `JSON.parse(localStorage.getItem("favorites")) || []`: the stored list,
      or the empty list when nothing (or no list) is stored. */
  function SavedFavorites(items: map<string, Stored>): (r: seq<Favorite>)
    ensures FavoritesKey !in items ==> r == []
    ensures FavoritesKey in items && items[FavoritesKey].FavoritesList? ==> r == items[FavoritesKey].favorites
  {
    if FavoritesKey in items && items[FavoritesKey].FavoritesList? then items[FavoritesKey].favorites else []
  }

  /** `favorites.some(fav => fav.mal_id === id)`, where `id` is `None` for a
      `NaN` that equals nothing. */
  function HasId(favs: seq<Favorite>, id: Option<int>): bool {
    if favs == [] then false
    else (id.Some? && favs[0].malId == id.value) || HasId(favs[1..], id)
  }

  /** `some` answers whether an entry carries the id, and `NaN` is never
      found. */
  lemma {:induction false} HasIdMeans(favs: seq<Favorite>, id: Option<int>)
    ensures HasId(favs, id) <==> id.Some? && exists f :: f in favs && f.malId == id.value
  {
    if favs != [] {
      HasIdMeans(favs[1..], id);
      assert favs == [favs[0]] + favs[1..];
      if id.Some? && HasId(favs[1..], id) {
        var f :| f in favs[1..] && f.malId == id.value;
        assert f in favs;
      }
    }
  }

  /** `favorites.filter(fav => fav.mal_id !== id)`. */
  function WithoutId(favs: seq<Favorite>, id: int): seq<Favorite> {
    Keep(favs, (f: Favorite) => f.malId != id)
  }

  /** Removing an id keeps exactly the entries with another id, each as often
      as before, in their order. */
  lemma WithoutIdMeans(favs: seq<Favorite>, id: int)
    ensures forall f :: f in WithoutId(favs, id) <==> f in favs && f.malId != id
    ensures forall f: Favorite :: f.malId != id ==> multiset(WithoutId(favs, id))[f] == multiset(favs)[f]
    ensures IsSubsequence(WithoutId(favs, id), favs)
  {
    KeepMeans(favs, (f: Favorite) => f.malId != id);
    KeepIsSubsequence(favs, (f: Favorite) => f.malId != id);
  }

  /** Removing an id no entry carries changes nothing. */
  lemma WithoutAbsentId(favs: seq<Favorite>, id: int)
    requires forall f :: f in favs ==> f.malId != id
    ensures WithoutId(favs, id) == favs
  {
    KeepAll(favs, (f: Favorite) => f.malId != id);
  }

  /** Removing the same id twice is removing it once. */
  lemma WithoutIdIdempotent(favs: seq<Favorite>, id: int)
    ensures WithoutId(WithoutId(favs, id), id) == WithoutId(favs, id)
  {
    KeepIdempotent(favs, (f: Favorite) => f.malId != id);
  }

  /** The favorites page: the list it shows, and the store it mirrors. */
  class FavoritesPage {
    var favorites: seq<Favorite>
    const store: Store

    /** The list shown is the list persisted under "favorites". */
    predicate Synced()
      reads this, store
    {
      FavoritesKey in store.items && store.items[FavoritesKey] == FavoritesList(favorites)
    }

    /** Mounting: the state starts empty and the effect loads the saved
        list. */
    constructor (store: Store)
      ensures this.store == store
      ensures favorites == SavedFavorites(store.items)
    {
      this.store := store;
      favorites := [];
      new;
      favorites := SavedFavorites(store.items);
    }

    /** `handleRemoveFavorite`: drop every entry with the id and persist the
        new list; no other key of the store changes. */
    method RemoveFavorite(malId: int)
      modifies this, store
      ensures favorites == WithoutId(old(favorites), malId)
      ensures store.items == old(store.items)[FavoritesKey := FavoritesList(favorites)]
      ensures Synced()
    {
      var updatedFavorites := WithoutId(favorites, malId);
      favorites := updatedFavorites;
      store.SetItem(FavoritesKey, FavoritesList(updatedFavorites));
    }
  }
}
