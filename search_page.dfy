/** src/SearchResults.jsx: the search page that queries `/api/anime/search`
    and then refines the returned list on the client. It differs from
    src/components/SearchResults.jsx: an empty term fetches nothing, the term
    is sent untrimmed as `query`, `sort` is sent only when it is not "score",
    no `limit` is sent, and clearing the filters restores the term of the page
    URL. */
module SearchPage {
  import opened Wrappers
  import opened Text
  import opened QueryString
  import opened Catalog
  import opened SearchInput
  import opened Refine

  const Path: string := "/api/anime/search"

  const FailureText: string := "Failed to fetch " + "search results"

  /** What a request URL of this page says: path `/api/anime/search`, the
      encoded term `q` as the first field `query`; read back through
      `QueryParams`, `type` is there exactly when a type other than "all" is
      chosen, `sort` exactly when the sort is not "score", `genres` (their
      comma join) exactly when some genre is ticked, `min_score` exactly when
      a minimum is typed, and nothing else is. */
  predicate PageUrl(url: string, q: string, kind: string, sort: string, genres: seq<string>, minScore: string)
  {
    var start := Path + "?query=" + q;
    && PathOf(url) == Path
    && |url| >= |start| && url[..|start|] == start
    && (Unambiguous(q, kind, sort, genres, minScore) ==> Describes(QueryParams(url), q, kind, sort, genres, minScore))
  }

  predicate Describes(p: map<string, string>, q: string, kind: string, sort: string, genres: seq<string>, minScore: string)
  {
    && p.Keys <= {"query", "type", "sort", "genres", "min_score"}
    && "query" in p && p["query"] == q
    && ("type" in p <==> kind != "all") && (kind != "all" ==> p["type"] == kind)
    && ("sort" in p <==> sort != "score") && (sort != "score" ==> p["sort"] == sort)
    && ("genres" in p <==> |genres| > 0) && (|genres| > 0 ==> p["genres"] == Join(genres, ','))
    && ("min_score" in p <==> minScore != "") && (minScore != "" ==> p["min_score"] == minScore)
  }

  /** The request URL for the encoded term `q`, field by field in the page's order. */
  function PageUrlFor(q: string, kind: string, sort: string, genres: seq<string>, minScore: string): string {
    var withGenres := AddIf(TypeSortUrl(q, kind, sort), |genres| > 0, "genres", Join(genres, ','));
    AddIf(withGenres, minScore != "", "min_score", minScore)
  }

  function TypeSortUrl(q: string, kind: string, sort: string): string {
    AddIf(AddIf(Path + "?query=" + q, kind != "all", "type", kind), sort != "score", "sort", sort)
  }

  /** The parameters the page means to send, added in the page's order. */
  function PageParams(q: string, kind: string, sort: string, genres: seq<string>, minScore: string): map<string, string> {
    var withGenres := if |genres| > 0 then TypeSortParams(q, kind, sort)["genres" := Join(genres, ',')]
                      else TypeSortParams(q, kind, sort);
    if minScore != "" then withGenres["min_score" := minScore] else withGenres
  }

  function TypeSortParams(q: string, kind: string, sort: string): map<string, string> {
    var withType := if kind != "all" then map["query" := q]["type" := kind] else map["query" := q];
    if sort != "score" then withType["sort" := sort] else withType
  }

  lemma Start(q: string, plain: bool)
    requires plain ==> Plain(q)
    ensures Building(Path + "?query=" + q, Path, Path + "?query=" + q, plain, map["query" := q])
  {
    StartAt(Path, "query", q, plain);
    assert Path + "?query=" + q == Path + "?" + "query" + "=" + q;
  }

  lemma TypeSortBuilding(q: string, kind: string, sort: string, plain: bool)
    requires plain ==> Plain(q) && Plain(kind) && Plain(sort)
    ensures Building(TypeSortUrl(q, kind, sort), Path, Path + "?query=" + q, plain, TypeSortParams(q, kind, sort))
  {
    var start := Path + "?query=" + q;
    Start(q, plain);
    var p0 := map["query" := q];
    StepIf(start, Path, start, plain, p0, kind != "all", "type", kind);
    var p1 := if kind != "all" then p0["type" := kind] else p0;
    StepIf(AddIf(start, kind != "all", "type", kind), Path, start, plain, p1, sort != "score", "sort", sort);
  }

  /** Every URL the page builds says what the search asks for. */
  lemma PageUrlForMeans(q: string, kind: string, sort: string, genres: seq<string>, minScore: string)
    ensures PageUrl(PageUrlFor(q, kind, sort, genres, minScore), q, kind, sort, genres, minScore)
  {
    var plain := Unambiguous(q, kind, sort, genres, minScore);
    var url := PageUrlFor(q, kind, sort, genres, minScore);
    PageBuilding(q, kind, sort, genres, minScore);
    BuildingPath(url, Path, Path + "?query=" + q, plain, PageParams(q, kind, sort, genres, minScore));
    if plain {
      ParamsDescribe(q, kind, sort, genres, minScore);
    }
  }

  /** The parameters added in the page's order are the ones a search means. */
  lemma ParamsDescribe(q: string, kind: string, sort: string, genres: seq<string>, minScore: string)
    ensures Describes(PageParams(q, kind, sort, genres, minScore), q, kind, sort, genres, minScore)
  {
  }

  lemma PageBuilding(q: string, kind: string, sort: string, genres: seq<string>, minScore: string)
    ensures Building(PageUrlFor(q, kind, sort, genres, minScore), Path, Path + "?query=" + q,
                     Unambiguous(q, kind, sort, genres, minScore), PageParams(q, kind, sort, genres, minScore))
  {
    var start := Path + "?query=" + q;
    var plain := Unambiguous(q, kind, sort, genres, minScore);
    TypeSortBuilding(q, kind, sort, plain);
    var u2 := TypeSortUrl(q, kind, sort);
    var p2 := TypeSortParams(q, kind, sort);
    if plain && |genres| > 0 {
      JoinAvoids(genres, ',', '&');
    }
    StepIf(u2, Path, start, plain, p2, |genres| > 0, "genres", Join(genres, ','));
    var u3 := AddIf(u2, |genres| > 0, "genres", Join(genres, ','));
    var p3 := if |genres| > 0 then p2["genres" := Join(genres, ',')] else p2;
    StepIf(u3, Path, start, plain, p3, minScore != "", "min_score", minScore);
  }

  /** Builds `apiUrl` field by field as the effect does; `enc` stands for
      `encodeURIComponent`. */
  method BuildPageUrl(enc: string -> string, searchTerm: string, kind: string, sort: string,
                      genres: seq<string>, minScore: string) returns (apiUrl: string)
    ensures apiUrl == PageUrlFor(enc(searchTerm), kind, sort, genres, minScore)
    ensures PageUrl(apiUrl, enc(searchTerm), kind, sort, genres, minScore)
  {
    apiUrl := Path + "?query=" + enc(searchTerm);
    if kind != "all" {
      apiUrl := apiUrl + Field("type", kind);
    }
    if sort != "score" {
      apiUrl := apiUrl + Field("sort", sort);
    }
    if |genres| > 0 {
      apiUrl := apiUrl + Field("genres", Join(genres, ','));
    }
    if minScore != "" {
      apiUrl := apiUrl + Field("min_score", minScore);
    }
    PageUrlForMeans(enc(searchTerm), kind, sort, genres, minScore);
  }

  /** The state of the page: the results, the loading flag, the error shown,
      the five filters the fetch effect depends on, and the term the page URL
      was opened with. */
  class SearchPageView {
    var anime: seq<Anime>
    var loading: bool
    var error: Option<string>
    var searchTerm: string
    var kind: string
    var sort: string
    var genres: seq<string>
    var minScore: string
    const initialSearchTerm: string

    /** First render, from the page URL's parameters `q`, `type` and `sort`. */
    constructor (params: map<string, string>)
      ensures initialSearchTerm == ParamOr(params, "q", "") && searchTerm == initialSearchTerm
      ensures kind == ParamOr(params, "type", "all") && sort == ParamOr(params, "sort", "score")
      ensures genres == [] && minScore == ""
      ensures anime == [] && loading && error == None
    {
      anime := [];
      loading := true;
      error := None;
      initialSearchTerm := ParamOr(params, "q", "");
      searchTerm := ParamOr(params, "q", "");
      kind := ParamOr(params, "type", "all");
      sort := ParamOr(params, "sort", "score");
      genres := [];
      minScore := "";
    }

    /** One run of the fetch effect, settled. `reply` is the server's answer,
        its `data` being the body's `results` list; `parse` stands for
        `parseFloat`. The request made, if any, is returned. */
    method RunEffect(enc: string -> string, parse: string -> Option<real>, reply: Response<seq<Anime>>)
      returns (request: Option<string>)
      modifies this
      ensures searchTerm == old(searchTerm) && kind == old(kind) && sort == old(sort)
      ensures genres == old(genres) && minScore == old(minScore)
      ensures !loading
      ensures searchTerm == "" ==> request == None && anime == [] && error == old(error)
      ensures searchTerm != "" ==>
        && request == Some(PageUrlFor(enc(searchTerm), kind, sort, genres, minScore))
        && PageUrl(request.value, enc(searchTerm), kind, sort, genres, minScore)
        && (reply.ok ==> anime == Refined(reply.data.GetOr([]), kind, genres, minScore, parse, sort) && error == None)
        && (!reply.ok ==> anime == old(anime) && error == Some(FailureText))
    {
      if searchTerm == "" {
        loading := false;
        anime := [];
        return None;
      }
      loading := true;
      error := None;
      var apiUrl := BuildPageUrl(enc, searchTerm, kind, sort, genres, minScore);
      request := Some(apiUrl);
      Settle(parse, reply);
    }

    /** The `try`/`catch`/`finally` around the answer to a request: a failed
        answer sets the error, a good one the refined results. */
    method Settle(parse: string -> Option<real>, reply: Response<seq<Anime>>)
      modifies this
      ensures searchTerm == old(searchTerm) && kind == old(kind) && sort == old(sort)
      ensures genres == old(genres) && minScore == old(minScore)
      ensures !loading
      ensures reply.ok ==> anime == Refined(reply.data.GetOr([]), kind, genres, minScore, parse, sort) && error == old(error)
      ensures !reply.ok ==> anime == old(anime) && error == Some(FailureText)
    {
      if !reply.ok {
        error := Some(FailureText);
      } else {
        var filtered := RefineResults(reply.data.GetOr([]), kind, genres, minScore, parse, sort);
        anime := filtered;
      }
      loading := false;
    }

    /** A genre check box changed. */
    method ChangeGenre(value: string, checked: bool)
      modifies this
      ensures genres == ToggleGenre(old(genres), value, checked)
      ensures anime == old(anime) && loading == old(loading) && error == old(error)
      ensures searchTerm == old(searchTerm) && kind == old(kind) && sort == old(sort) && minScore == old(minScore)
    {
      if checked {
        genres := genres + [value];
      } else {
        genres := ToggleGenre(genres, value, false);
      }
    }

    /** "Clear filters": the term of the page URL again, every other filter
        back to its default. */
    method ClearFilters()
      modifies this
      ensures searchTerm == initialSearchTerm
      ensures kind == "all" && sort == "score" && genres == [] && minScore == ""
      ensures anime == old(anime) && loading == old(loading) && error == old(error)
    {
      searchTerm := initialSearchTerm;
      kind := "all";
      sort := "score";
      genres := [];
      minScore := "";
    }
  }
}
