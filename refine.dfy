/** Client-side refinement of a result list (src/SearchResults.jsx:53-71, and
    the top-list path of src/Home.jsx:82-92): keep the entries of the selected
    type, then those sharing a genre with the selection, then those scoring at
    least the minimum, then sort by score or by popularity.

    `Array.prototype.sort` is stable, so it is modelled as a stable insertion
    sort on a key: minus the score (missing = 0) for "score", the popularity
    rank (missing = 99999) for "popularity", and one constant key — the order
    as given — for any other value, whose comparator always answers 0. */
module Refine {
  import opened Wrappers
  import opened Text
  import opened Catalog
  import opened Seqs

  /** `a.score || 0`. */
  function ScoreOrZero(a: Anime): real {
    a.score.GetOr(0.0)
  }

  /** `a.popularity || 99999`: a popularity of 0 is falsy and counts as
      missing too. */
  function PopularityRank(a: Anime): int {
    if a.popularity.Some? && a.popularity.value != 0 then a.popularity.value else 99999
  }

  /** `a.type?.toLowerCase() === type`. */
  predicate TypeMatches(a: Anime, t: string) {
    a.kind.Some? && Lower(a.kind.value) == t
  }

  /** `a.genres && a.genres.some(g => genres.includes(g.name))`. */
  predicate GenreMatches(a: Anime, selected: seq<string>) {
    a.genres.Some? && exists g :: g in a.genres.value && g in selected
  }

  /** `(a.score || 0) >= parseFloat(minScore)`, the parsed minimum being
      `None` for `NaN`, against which every comparison is false. */
  predicate ScoreAtLeast(a: Anime, min: Option<real>) {
    min.Some? && ScoreOrZero(a) >= min.value
  }

  /** The three filter stages, each applied only when its control is set. */
  function ByType(s: seq<Anime>, t: string): seq<Anime> {
    if t != "all" then Keep(s, a => TypeMatches(a, t)) else s
  }

  function ByGenres(s: seq<Anime>, genres: seq<string>): seq<Anime> {
    if |genres| > 0 then Keep(s, a => GenreMatches(a, genres)) else s
  }

  function ByMinScore(s: seq<Anime>, minScore: string, parse: string -> Option<real>): seq<Anime> {
    if minScore != "" then Keep(s, a => ScoreAtLeast(a, parse(minScore))) else s
  }

  /** An entry survives all three stages exactly when it passes every stage
      whose control is set. */
  predicate Passes(a: Anime, t: string, genres: seq<string>, minScore: string, parse: string -> Option<real>) {
    && (t != "all" ==> TypeMatches(a, t))
    && (|genres| > 0 ==> GenreMatches(a, genres))
    && (minScore != "" ==> ScoreAtLeast(a, parse(minScore)))
  }

  datatype Order = ByScore | ByPopularity | AsGiven

  /** The comparator chosen by the `sort` control. */
  function OrderOf(sort: string): Order {
    if sort == "score" then ByScore else if sort == "popularity" then ByPopularity else AsGiven
  }

  /** Sorting ascending by this key is sorting by the comparator of `o`. */
  function Key(a: Anime, o: Order): real {
    match o
    case ByScore => -ScoreOrZero(a)
    case ByPopularity => PopularityRank(a) as real
    case AsGiven => 0.0
  }

  /** Each entry's key is at most the next one's. */
  predicate Sorted(s: seq<Anime>, o: Order) {
    |s| <= 1 || (Key(s[0], o) <= Key(s[1], o) && Sorted(s[1..], o))
  }

  /** In a sorted list every entry's key is at most that of every later entry:
      for "score", scores (missing = 0) never increase; for "popularity",
      ranks (missing or 0 = 99999) never decrease. */
  lemma {:induction false} SortedOrdered(s: seq<Anime>, o: Order, i: int, j: int)
    requires Sorted(s, o) && 0 <= i < j < |s|
    ensures Key(s[i], o) <= Key(s[j], o)
  {
    if i == 0 {
      if j > 1 {
        SortedOrdered(s[1..], o, 0, j - 1);
      }
    } else {
      SortedOrdered(s[1..], o, i - 1, j - 1);
    }
  }

  /** Places `x` before the first element whose key is not smaller, so that
      `x`, which came first in the input, stays before its equals. */
  function Insert(x: Anime, s: seq<Anime>, o: Order): (r: seq<Anime>)
    ensures |r| == |s| + 1
  {
    if s == [] || Key(x, o) <= Key(s[0], o) then [x] + s
    else [s[0]] + Insert(x, s[1..], o)
  }

  /** Inserting adds `x` and loses nothing. */
  lemma {:induction false} InsertPermutes(x: Anime, s: seq<Anime>, o: Order)
    ensures multiset(Insert(x, s, o)) == multiset(s) + multiset{x}
  {
    if s != [] && Key(x, o) > Key(s[0], o) {
      InsertPermutes(x, s[1..], o);
      assert s == [s[0]] + s[1..];
    }
  }

  lemma {:induction false} InsertSorted(x: Anime, s: seq<Anime>, o: Order)
    requires Sorted(s, o)
    ensures Sorted(Insert(x, s, o), o)
  {
    if s != [] && Key(x, o) > Key(s[0], o) {
      InsertSorted(x, s[1..], o);
      var rest := Insert(x, s[1..], o);
      if s[1..] != [] && Key(x, o) > Key(s[1], o) {
        assert rest[0] == s[1];
      }
      assert ([s[0]] + rest)[1..] == rest;
    }
  }

  /** `s.sort(comparator)`: a stable sort by `Key`. */
  function SortBy(s: seq<Anime>, o: Order): (r: seq<Anime>)
    ensures |r| == |s|
  {
    if s == [] then [] else Insert(s[0], SortBy(s[1..], o), o)
  }

  /** The sort is a permutation of its input, in the order of `o`. */
  lemma {:induction false} SortByMeans(s: seq<Anime>, o: Order)
    ensures multiset(SortBy(s, o)) == multiset(s)
    ensures Sorted(SortBy(s, o), o)
  {
    if s != [] {
      SortByMeans(s[1..], o);
      InsertPermutes(s[0], SortBy(s[1..], o), o);
      InsertSorted(s[0], SortBy(s[1..], o), o);
      assert s == [s[0]] + s[1..];
    }
  }

  /** The entries of `s` whose key under `o` is `k`, in their order in `s`. */
  function Ties(s: seq<Anime>, o: Order, k: real): seq<Anime> {
    Keep(s, (a: Anime) => Key(a, o) == k)
  }

  lemma TiesCons(a: Anime, s: seq<Anime>, o: Order, k: real)
    ensures Ties([a] + s, o, k) == (if Key(a, o) == k then [a] else []) + Ties(s, o, k)
  {
    assert ([a] + s)[0] == a && ([a] + s)[1..] == s;
  }

  /** `x` only passes entries whose key differs from its own, so among the
      entries of any one key it lands where it would at the front. */
  lemma {:induction false} InsertStable(x: Anime, s: seq<Anime>, o: Order, k: real)
    ensures Ties(Insert(x, s, o), o, k) == Ties([x] + s, o, k)
  {
    if s != [] && Key(x, o) > Key(s[0], o) {
      InsertStable(x, s[1..], o, k);
      TiesCons(s[0], Insert(x, s[1..], o), o, k);
      TiesCons(x, s[1..], o, k);
      TiesCons(x, s, o, k);
      assert s == [s[0]] + s[1..];
      TiesCons(s[0], s[1..], o, k);
    }
  }

  /** The sort is stable: for every key, the entries with that key come out
      in the order (and number) they went in. */
  lemma {:induction false} SortByStable(s: seq<Anime>, o: Order, k: real)
    ensures Ties(SortBy(s, o), o, k) == Ties(s, o, k)
  {
    if s != [] {
      SortByStable(s[1..], o, k);
      InsertStable(s[0], SortBy(s[1..], o), o, k);
      TiesCons(s[0], SortBy(s[1..], o), o, k);
      assert s == [s[0]] + s[1..];
      TiesCons(s[0], s[1..], o, k);
    }
  }

  /** Sorting a list that is already in order changes nothing. */
  lemma {:induction false} SortSorted(s: seq<Anime>, o: Order)
    requires Sorted(s, o)
    ensures SortBy(s, o) == s
  {
    if s != [] {
      var t := s[1..];
      SortSorted(t, o);
      assert Insert(s[0], t, o) == s by { assert [s[0]] + t == s; }
    }
  }

  /** With a comparator that always answers 0 the order is left as given. */
  lemma AsGivenKeepsOrder(s: seq<Anime>)
    ensures SortBy(s, AsGiven) == s
  {
    AsGivenSorted(s);
    SortSorted(s, AsGiven);
  }

  lemma {:induction false} AsGivenSorted(s: seq<Anime>)
    ensures Sorted(s, AsGiven)
  {
    if |s| > 1 {
      AsGivenSorted(s[1..]);
    }
  }

  /** The refinement of src/SearchResults.jsx:53-71 as one function. */
  function Refined(raw: seq<Anime>, t: string, genres: seq<string>, minScore: string,
                   parse: string -> Option<real>, sort: string): seq<Anime>
  {
    SortBy(ByMinScore(ByGenres(ByType(raw, t), genres), minScore, parse), OrderOf(sort))
  }

  /** The three stages in a row keep exactly the entries that pass them all,
      in their input order. */
  lemma Stages(raw: seq<Anime>, t: string, genres: seq<string>, minScore: string, parse: string -> Option<real>)
    ensures ByMinScore(ByGenres(ByType(raw, t), genres), minScore, parse)
         == Keep(raw, a => Passes(a, t, genres, minScore, parse))
  {
    var pt := a => t != "all" ==> TypeMatches(a, t);
    var pg := a => |genres| > 0 ==> GenreMatches(a, genres);
    var ps := a => minScore != "" ==> ScoreAtLeast(a, parse(minScore));
    var ptg := a => pt(a) && pg(a);
    var all := a => Passes(a, t, genres, minScore, parse);
    assert ByType(raw, t) == Keep(raw, pt) by {
      if t == "all" { KeepAll(raw, pt); }
      else { assert Keep(raw, a => TypeMatches(a, t)) == Keep(raw, pt) by { KeepKeep(raw, pt, pt, a => TypeMatches(a, t)); KeepIdempotent(raw, pt); } }
    }
    var s1 := Keep(raw, pt);
    assert ByGenres(s1, genres) == Keep(s1, pg) by {
      if |genres| == 0 { KeepAll(s1, pg); }
      else { KeepKeep(s1, pg, pg, a => GenreMatches(a, genres)); KeepIdempotent(s1, pg); }
    }
    KeepKeep(raw, pt, pg, ptg);
    var s2 := Keep(raw, ptg);
    assert ByMinScore(s2, minScore, parse) == Keep(s2, ps) by {
      if minScore == "" { KeepAll(s2, ps); }
      else { KeepKeep(s2, ps, ps, a => ScoreAtLeast(a, parse(minScore))); KeepIdempotent(s2, ps); }
    }
    KeepKeep(raw, ptg, ps, all);
  }

  /** The refined list holds exactly the entries of `raw` that pass every
      active filter, as often as `raw` holds them, in the order `sort` asks
      for. */
  lemma RefinedMeans(raw: seq<Anime>, t: string, genres: seq<string>, minScore: string,
                     parse: string -> Option<real>, sort: string)
    ensures var r := Refined(raw, t, genres, minScore, parse, sort);
      && (forall a :: a in r <==> a in raw && Passes(a, t, genres, minScore, parse))
      && multiset(r) == multiset(Keep(raw, a => Passes(a, t, genres, minScore, parse)))
      && Sorted(r, OrderOf(sort))
  {
    var all := a => Passes(a, t, genres, minScore, parse);
    var r := Refined(raw, t, genres, minScore, parse, sort);
    Stages(raw, t, genres, minScore, parse);
    KeepMeans(raw, all);
    SortByMeans(Keep(raw, all), OrderOf(sort));
    forall a ensures a in r <==> a in multiset(Keep(raw, all)) {
      assert a in r <==> a in multiset(r);
    }
  }

  /** Entries the chosen order cannot tell apart keep the order they had in
      the response. */
  lemma RefinedStable(raw: seq<Anime>, t: string, genres: seq<string>, minScore: string,
                      parse: string -> Option<real>, sort: string, k: real)
    ensures Ties(Refined(raw, t, genres, minScore, parse, sort), OrderOf(sort), k)
         == Ties(Keep(raw, a => Passes(a, t, genres, minScore, parse)), OrderOf(sort), k)
  {
    Stages(raw, t, genres, minScore, parse);
    SortByStable(Keep(raw, a => Passes(a, t, genres, minScore, parse)), OrderOf(sort), k);
  }

  /** The pipeline as the page runs it, rebinding `filtered` stage by stage:
      each active filter in turn, then the sort. */
  method RefineResults(raw: seq<Anime>, t: string, genres: seq<string>, minScore: string,
                       parse: string -> Option<real>, sort: string) returns (filtered: seq<Anime>)
    ensures filtered == Refined(raw, t, genres, minScore, parse, sort)
  {
    filtered := raw;
    if t != "all" {
      filtered := Keep(filtered, a => TypeMatches(a, t));
    }
    if |genres| > 0 {
      filtered := Keep(filtered, a => GenreMatches(a, genres));
    }
    if minScore != "" {
      filtered := Keep(filtered, a => ScoreAtLeast(a, parse(minScore)));
    }
    filtered := SortBy(filtered, OrderOf(sort));
  }

  /** Each filter stage applied to its own output changes nothing. */
  lemma StagesIdempotent(s: seq<Anime>, t: string, genres: seq<string>, minScore: string, parse: string -> Option<real>)
    ensures ByType(ByType(s, t), t) == ByType(s, t)
    ensures ByGenres(ByGenres(s, genres), genres) == ByGenres(s, genres)
    ensures ByMinScore(ByMinScore(s, minScore, parse), minScore, parse) == ByMinScore(s, minScore, parse)
  {
    if t != "all" { KeepIdempotent(s, a => TypeMatches(a, t)); }
    if |genres| > 0 { KeepIdempotent(s, a => GenreMatches(a, genres)); }
    if minScore != "" { KeepIdempotent(s, a => ScoreAtLeast(a, parse(minScore))); }
  }

  /** Refining an already refined list gives it back unchanged. */
  lemma RefinedIdempotent(raw: seq<Anime>, t: string, genres: seq<string>, minScore: string,
                          parse: string -> Option<real>, sort: string)
    ensures var once := Refined(raw, t, genres, minScore, parse, sort);
      Refined(once, t, genres, minScore, parse, sort) == once
  {
    var all := a => Passes(a, t, genres, minScore, parse);
    var once := Refined(raw, t, genres, minScore, parse, sort);
    Stages(raw, t, genres, minScore, parse);
    Stages(once, t, genres, minScore, parse);
    KeepMeans(raw, all);
    SortByMeans(Keep(raw, all), OrderOf(sort));
    assert forall a :: a in once ==> all(a) by {
      forall a | a in once ensures all(a) {
        assert a in multiset(once);
      }
    }
    KeepAll(once, all);
    SortSorted(once, OrderOf(sort));
  }

  /** A "movie" search with minimum score 7.5 over a TV entry scoring 8 and
      movies scoring 9 and 6 keeps the movie scoring 9 alone. */
  lemma MovieAboveScenario(parse: string -> Option<real>)
    requires parse("7.5") == Some(7.5)
    ensures var tv8 := Anime(1, "A", "", Some("TV"), Some(8.0), None, None);
      var movie9 := Anime(2, "B", "", Some("Movie"), Some(9.0), None, None);
      var movie6 := Anime(3, "C", "", Some("Movie"), Some(6.0), None, None);
      Refined([tv8, movie9, movie6], "movie", [], "7.5", parse, "score") == [movie9]
  {
    var tv8 := Anime(1, "A", "", Some("TV"), Some(8.0), None, None);
    var movie9 := Anime(2, "B", "", Some("Movie"), Some(9.0), None, None);
    var movie6 := Anime(3, "C", "", Some("Movie"), Some(6.0), None, None);
    assert Lower("Movie") == "movie";
    assert !TypeMatches(tv8, "movie") by { assert |Lower("TV")| == 2; }
    var isMovie := a => TypeMatches(a, "movie");
    assert Keep([movie6], isMovie) == [movie6] by { assert [movie6][1..] == []; }
    assert Keep([movie9, movie6], isMovie) == [movie9, movie6] by { assert [movie9, movie6][1..] == [movie6]; }
    assert ByType([tv8, movie9, movie6], "movie") == [movie9, movie6] by {
      assert [tv8, movie9, movie6][1..] == [movie9, movie6];
    }
    var high := a => ScoreAtLeast(a, parse("7.5"));
    assert Keep([movie6], high) == [] by { assert [movie6][1..] == []; }
    assert Keep([movie9, movie6], high) == [movie9] by { assert [movie9, movie6][1..] == [movie6]; }
    assert ByMinScore([movie9, movie6], "7.5", parse) == [movie9];
    assert SortBy([movie9], ByScore) == [movie9] by { assert [movie9][1..] == []; }
  }

  /** Sorting by popularity ranks 2 before 5 before a missing popularity. */
  lemma PopularityScenario()
    ensures var unranked := Anime(1, "A", "", None, None, None, None);
      var fifth := Anime(2, "B", "", None, None, Some(5), None);
      var second := Anime(3, "C", "", None, None, Some(2), None);
      SortBy([unranked, fifth, second], ByPopularity) == [second, fifth, unranked]
  {
    var unranked := Anime(1, "A", "", None, None, None, None);
    var fifth := Anime(2, "B", "", None, None, Some(5), None);
    var second := Anime(3, "C", "", None, None, Some(2), None);
    var o := ByPopularity;
    assert [unranked, fifth, second][1..] == [fifth, second];
    assert [fifth, second][1..] == [second];
    assert SortBy([second], o) == [second] by { assert [second][1..] == []; }
    assert Insert(fifth, [second], o) == [second, fifth] by { assert [second][1..] == []; }
    assert SortBy([fifth, second], o) == [second, fifth];
    assert Insert(unranked, [fifth], o) == [fifth, unranked] by { assert [fifth][1..] == []; }
    assert Insert(unranked, [second, fifth], o) == [second, fifth, unranked] by {
      assert [second, fifth][1..] == [fifth];
    }
  }
}
