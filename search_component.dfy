/** src/components/SearchResults.jsx: the search page that queries the
    catalogue through the site's `/api/anime` proxy, with type, sort, genre
    and minimum-score filters sent as query parameters. */
module SearchComponent {
  import opened Wrappers
  import opened Text
  import opened QueryString
  import opened Catalog
  import opened Http
  import opened SearchInput

  /** The outer guard of the effect: the untrimmed term is empty or at least
      3 UTF-16 code units long. */
  predicate ShouldFetch(term: string): (r: bool)
    ensures !r ==> 0 < |term| < 3
  {
    term == "" || Utf16Length(term) >= 3
  }

  const Path: string := "/api/anime"

  /** What a request URL of this page says: path `/api/anime`, the encoded
      term `q` as the first field and `limit=20` as the last; read back through
      `QueryParams`, `type` is there exactly when a type other than "all" is
      chosen, `order_by=<sort>` and `sort=desc` exactly when a sort is chosen,
      `genres` (their comma join) exactly when some genre is ticked and
      `min_score` exactly when a minimum is typed, and nothing else is. */
  predicate SearchUrl(url: string, q: string, kind: string, sort: string, genres: seq<string>, minScore: string)
  {
    var start := Path + "?q=" + q;
    && PathOf(url) == Path
    && |url| >= |start| && url[..|start|] == start
    && |url| >= 9 && url[|url| - 9..] == "&limit=20"
    && (Unambiguous(q, kind, sort, genres, minScore) ==> Describes(QueryParams(url), q, kind, sort, genres, minScore))
  }

  /** The parameters `p` are those of a search for `q` with the given filters. */
  predicate Describes(p: map<string, string>, q: string, kind: string, sort: string, genres: seq<string>, minScore: string)
  {
    && p.Keys <= {"q", "type", "order_by", "sort", "genres", "min_score", "limit"}
    && "q" in p && p["q"] == q
    && "limit" in p && p["limit"] == "20"
    && ("type" in p <==> kind != "all") && (kind != "all" ==> p["type"] == kind)
    && ("order_by" in p <==> sort != "") && ("sort" in p <==> sort != "")
    && (sort != "" ==> p["order_by"] == sort && p["sort"] == "desc")
    && ("genres" in p <==> |genres| > 0) && (|genres| > 0 ==> p["genres"] == Join(genres, ','))
    && ("min_score" in p <==> minScore != "") && (minScore != "" ==> p["min_score"] == minScore)
  }

  /** The parameters the page means to send, added in the page's order. */
  function Expected(q: string, kind: string, sort: string, genres: seq<string>, minScore: string): map<string, string>
  {
    FilterParams(q, kind, sort, genres, minScore)["limit" := "20"]
  }

  /** The parameters before `limit`: the term and the filters that are set. */
  function FilterParams(q: string, kind: string, sort: string, genres: seq<string>, minScore: string): map<string, string>
  {
    WithMin(WithGenres(WithSort(WithType(map["q" := q], kind), sort), genres), minScore)
  }

  function WithType(m: map<string, string>, kind: string): map<string, string> {
    if kind != "all" then m["type" := kind] else m
  }

  function WithSort(m: map<string, string>, sort: string): map<string, string> {
    if sort != "" then m["order_by" := sort]["sort" := "desc"] else m
  }

  function WithGenres(m: map<string, string>, genres: seq<string>): map<string, string> {
    if |genres| > 0 then m["genres" := Join(genres, ',')] else m
  }

  function WithMin(m: map<string, string>, minScore: string): map<string, string> {
    if minScore != "" then m["min_score" := minScore] else m
  }

  /** The request URL of a search, field by field in the page's order. */
  function SearchUrlFor(q: string, kind: string, sort: string, genres: seq<string>, minScore: string): string {
    FiltersUrl(q, kind, sort, genres, minScore) + Field("limit", "20")
  }

  /** The request URL up to its last field: the term and the filters that are set. */
  function FiltersUrl(q: string, kind: string, sort: string, genres: seq<string>, minScore: string): string {
    var withGenres := AddIf(OrderUrl(q, kind, sort), |genres| > 0, "genres", Join(genres, ','));
    AddIf(withGenres, minScore != "", "min_score", minScore)
  }

  /** The request URL up to its sort fields. */
  function OrderUrl(q: string, kind: string, sort: string): string {
    var withType := AddIf(Path + "?q=" + q, kind != "all", "type", kind);
    AddIf(AddIf(withType, sort != "", "order_by", sort), sort != "", "sort", "desc")
  }

  /** Every URL the page builds says what the search asks for. */
  lemma SearchUrlForMeans(q: string, kind: string, sort: string, genres: seq<string>, minScore: string)
    ensures SearchUrl(SearchUrlFor(q, kind, sort, genres, minScore), q, kind, sort, genres, minScore)
  {
    var start := Path + "?q=" + q;
    var plain := Unambiguous(q, kind, sort, genres, minScore);
    var u := FiltersUrl(q, kind, sort, genres, minScore);
    FiltersBuilding(q, kind, sort, genres, minScore);
    LimitLast(q, kind, sort, genres, minScore);
    Step(u, Path, start, plain, FilterParams(q, kind, sort, genres, minScore), "limit", "20");
    Finished(u + Field("limit", "20"), u, start, plain, q, kind, sort, genres, minScore);
  }

  /** The URL up to its last field carries the term and the filters that are set. */
  lemma FiltersBuilding(q: string, kind: string, sort: string, genres: seq<string>, minScore: string)
    ensures Building(FiltersUrl(q, kind, sort, genres, minScore), Path, Path + "?q=" + q,
                     Unambiguous(q, kind, sort, genres, minScore), FilterParams(q, kind, sort, genres, minScore))
  {
    var start := Path + "?q=" + q;
    var plain := Unambiguous(q, kind, sort, genres, minScore);
    OrderBuilding(q, kind, sort, plain);
    var u3 := OrderUrl(q, kind, sort);
    var p3 := WithSort(WithType(map["q" := q], kind), sort);
    if plain && |genres| > 0 {
      JoinAvoids(genres, ',', '&');
    }
    var u4 := AddIf(u3, |genres| > 0, "genres", Join(genres, ','));
    var p4 := WithGenres(p3, genres);
    StepIf(u3, Path, start, plain, p3, |genres| > 0, "genres", Join(genres, ','));
    StepIf(u4, Path, start, plain, p4, minScore != "", "min_score", minScore);
  }

  /** The URL up to its sort fields carries the term, the type and the sort. */
  lemma OrderBuilding(q: string, kind: string, sort: string, plain: bool)
    requires plain ==> Plain(q) && Plain(kind) && Plain(sort)
    ensures Building(OrderUrl(q, kind, sort), Path, Path + "?q=" + q, plain, WithSort(WithType(map["q" := q], kind), sort))
  {
    var start := Path + "?q=" + q;
    Start(q, plain);
    var u0 := Path + "?q=" + q;
    var p0 := map["q" := q];
    var u1 := AddIf(u0, kind != "all", "type", kind);
    var p1 := WithType(p0, kind);
    StepIf(u0, Path, start, plain, p0, kind != "all", "type", kind);
    var u2 := AddIf(u1, sort != "", "order_by", sort);
    var p2 := if sort != "" then p1["order_by" := sort] else p1;
    StepIf(u1, Path, start, plain, p1, sort != "", "order_by", sort);
    StepIf(u2, Path, start, plain, p2, sort != "", "sort", "desc");
  }

  /** Builds `apiUrl` field by field as the effect does; `enc` stands for
      `encodeURIComponent`. */
  method BuildSearchUrl(enc: string -> string, actualQuery: string, kind: string, sort: string,
                        genres: seq<string>, minScore: string) returns (apiUrl: string)
    ensures apiUrl == SearchUrlFor(enc(actualQuery), kind, sort, genres, minScore)
    ensures SearchUrl(apiUrl, enc(actualQuery), kind, sort, genres, minScore)
  {
    var q := enc(actualQuery);
    apiUrl := Path + "?q=" + q;
    if kind != "all" {
      apiUrl := apiUrl + Field("type", kind);
    }
    if sort != "" {
      apiUrl := apiUrl + Field("order_by", sort);
      apiUrl := apiUrl + Field("sort", "desc");
    }
    if |genres| > 0 {
      apiUrl := apiUrl + Field("genres", Join(genres, ','));
    }
    if minScore != "" {
      apiUrl := apiUrl + Field("min_score", minScore);
    }
    apiUrl := apiUrl + Field("limit", "20");
    SearchUrlForMeans(q, kind, sort, genres, minScore);
  }

  /** `limit` is the one parameter the filters never add. */
  lemma LimitLast(q: string, kind: string, sort: string, genres: seq<string>, minScore: string)
    ensures "limit" !in FilterParams(q, kind, sort, genres, minScore)
  {
  }

  /** The URL `/api/anime?q=<q>` that every request starts from. */
  lemma Start(q: string, plain: bool)
    requires plain ==> Plain(q)
    ensures Building(Path + "?q=" + q, Path, Path + "?q=" + q, plain, map["q" := q])
  {
    StartAt(Path, "q", q, plain);
    assert Path + "?q=" + q == Path + "?" + "q" + "=" + q;
  }

  /** The parameters added in the page's order are the ones a search means. */
  lemma ExpectedDescribes(q: string, kind: string, sort: string, genres: seq<string>, minScore: string)
    ensures Describes(Expected(q, kind, sort, genres, minScore), q, kind, sort, genres, minScore)
  {
  }

  lemma Finished(url: string, prev: string, start: string, plain: bool,
                 q: string, kind: string, sort: string, genres: seq<string>, minScore: string)
    requires start == Path + "?q=" + q && plain == Unambiguous(q, kind, sort, genres, minScore)
    requires url == prev + Field("limit", "20")
    requires Building(url, Path, start, plain, Expected(q, kind, sort, genres, minScore))
    ensures SearchUrl(url, q, kind, sort, genres, minScore)
  {
    BuildingPath(url, Path, start, plain, Expected(q, kind, sort, genres, minScore));
    assert Field("limit", "20") == "&limit=20";
    assert url[|url| - 9..] == Field("limit", "20");
    if plain {
      ExpectedDescribes(q, kind, sort, genres, minScore);
    }
  }

  /** "ab " (padded) passes the outer guard and gets the too-short message;
      "ab" never reaches it: the page clears the results and leaves the error
      line as it was. */
  lemma ShortTermPaths()
    ensures ShouldFetch("ab ") && TooShort("ab ")
    ensures !ShouldFetch("ab") && TooShort("ab")
  {
    var ab: string := ['a', 'b'];
    var padded: string := ab + [' '];
    assert "ab" == ab && "ab " == padded;
    assert TrimStart(ab) == ab by { assert !IsSpace(ab[0]); }
    assert TrimEnd(ab) == ab by { assert !IsSpace(ab[1]); }
    assert TrimStart(padded) == padded by { assert !IsSpace(padded[0]); }
    assert TrimEnd(padded) == ab by {
      assert IsSpace(padded[2]) && padded[..2] == ab;
    }
  }

  /** A term the outer guard lets through reaches the too-short message only
      when trimming leaves one or two code units of at least three. */
  lemma TooShortNeedsPadding(term: string)
    requires ShouldFetch(term) && TooShort(term)
    ensures Utf16Length(term) >= 3 && |Trim(term)| < |term|
  {
    if |Trim(term)| == |term| {
      TrimWhole(term);
    }
  }

  /** Lengths are counted in UTF-16 code units: two emoji (each above
      U+FFFF) are four units, so they pass both checks and are searched for,
      and "a" followed by one emoji is three units and passes the outer
      guard. */
  lemma AstralTerms()
    ensures var two: string := "\U{1F600}\U{1F600}";
      |two| == 2 && Utf16Length(two) == 4 && ShouldFetch(two) && !TooShort(two)
    ensures var mixed: string := "a\U{1F600}";
      |mixed| == 2 && Utf16Length(mixed) == 3 && ShouldFetch(mixed) && !TooShort(mixed)
  {
    var two: string := "\U{1F600}\U{1F600}";
    assert two[..1] == "\U{1F600}" && two[..1][..0] == [];
    assert Trim(two) == two by {
      assert !IsSpace(two[0]) && !IsSpace(two[1]);
    }
    var mixed: string := "a\U{1F600}";
    assert mixed[..1] == "a" && mixed[..1][..0] == [];
    assert Trim(mixed) == mixed by {
      assert !IsSpace(mixed[0]) && !IsSpace(mixed[1]);
    }
  }

  /** The state of the search page: the results, the loading flag, the error
      shown and the five filters that the fetch effect depends on. */
  class SearchResultsView {
    var anime: seq<Anime>
    var loading: bool
    var error: Option<string>
    var searchTerm: string
    var kind: string
    var sort: string
    var genres: seq<string>
    var minScore: string

    /** First render, from the page URL's parameters `q`, `type` and `sort`. */
    constructor (params: map<string, string>)
      ensures searchTerm == ParamOr(params, "q", "") && kind == ParamOr(params, "type", "all")
      ensures sort == ParamOr(params, "sort", "score") && genres == [] && minScore == ""
      ensures anime == [] && loading && error == None
    {
      anime := [];
      loading := true;
      error := None;
      searchTerm := ParamOr(params, "q", "");
      kind := ParamOr(params, "type", "all");
      sort := ParamOr(params, "sort", "score");
      genres := [];
      minScore := "";
    }

    /** One run of the fetch effect, settled. `reply` is what the server
        answers to the request; the request made, if any, is returned. */
    method RunEffect(enc: string -> string, reply: Response<seq<Anime>>) returns (request: Option<string>)
      modifies this
      ensures searchTerm == old(searchTerm) && kind == old(kind) && sort == old(sort)
      ensures genres == old(genres) && minScore == old(minScore)
      ensures !loading
      ensures !ShouldFetch(searchTerm) ==> request == None && anime == [] && error == old(error)
      ensures ShouldFetch(searchTerm) && TooShort(searchTerm) ==>
        request == None && anime == [] && error == Some(TooShortMessage)
      ensures ShouldFetch(searchTerm) && !TooShort(searchTerm) ==>
        && request == Some(SearchUrlFor(enc(Trim(searchTerm)), kind, sort, genres, minScore))
        && SearchUrl(request.value, enc(Trim(searchTerm)), kind, sort, genres, minScore)
        && (reply.ok ==> anime == reply.data.GetOr([]) && error == None)
        && (!reply.ok ==> anime == old(anime) && error == Some(FailureMessage(reply)))
    {
      if !ShouldFetch(searchTerm) {
        loading := false;
        anime := [];
        request := None;
      } else {
        request := Fetch(enc, reply);
      }
    }

    /** The effect past the outer guard: the trimmed term is checked, then
        sent. */
    method Fetch(enc: string -> string, reply: Response<seq<Anime>>) returns (request: Option<string>)
      modifies this
      ensures searchTerm == old(searchTerm) && kind == old(kind) && sort == old(sort)
      ensures genres == old(genres) && minScore == old(minScore)
      ensures !loading
      ensures TooShort(searchTerm) ==> request == None && anime == [] && error == Some(TooShortMessage)
      ensures !TooShort(searchTerm) ==>
        && request == Some(SearchUrlFor(enc(Trim(searchTerm)), kind, sort, genres, minScore))
        && SearchUrl(request.value, enc(Trim(searchTerm)), kind, sort, genres, minScore)
        && (reply.ok ==> anime == reply.data.GetOr([]) && error == None)
        && (!reply.ok ==> anime == old(anime) && error == Some(FailureMessage(reply)))
    {
      loading := true;
      error := None;
      var actualQuery := Trim(searchTerm);
      if Utf16Length(actualQuery) > 0 && Utf16Length(actualQuery) < 3 {
        anime := [];
        loading := false;
        error := Some(TooShortMessage);
        request := None;
      } else {
        var apiUrl := Send(enc, actualQuery, reply);
        request := Some(apiUrl);
      }
    }

    /** The request for `actualQuery` and the filters, settled by `reply`. */
    method Send(enc: string -> string, actualQuery: string, reply: Response<seq<Anime>>) returns (apiUrl: string)
      modifies this
      ensures searchTerm == old(searchTerm) && kind == old(kind) && sort == old(sort)
      ensures genres == old(genres) && minScore == old(minScore)
      ensures !loading
      ensures apiUrl == SearchUrlFor(enc(actualQuery), kind, sort, genres, minScore)
      ensures SearchUrl(apiUrl, enc(actualQuery), kind, sort, genres, minScore)
      ensures reply.ok ==> anime == reply.data.GetOr([]) && error == old(error)
      ensures !reply.ok ==> anime == old(anime) && error == Some(FailureMessage(reply))
    {
      apiUrl := BuildSearchUrl(enc, actualQuery, kind, sort, genres, minScore);
      if !reply.ok {
        error := Some(FailureMessage(reply));
      } else {
        anime := reply.data.GetOr([]);
      }
      loading := false;
    }

    method SetSearchTerm(value: string)
      modifies this
      ensures searchTerm == value
      ensures anime == old(anime) && loading == old(loading) && error == old(error)
      ensures kind == old(kind) && sort == old(sort) && genres == old(genres) && minScore == old(minScore)
    {
      searchTerm := value;
    }

    method SetType(value: string)
      modifies this
      ensures kind == value
      ensures anime == old(anime) && loading == old(loading) && error == old(error)
      ensures searchTerm == old(searchTerm) && sort == old(sort) && genres == old(genres) && minScore == old(minScore)
    {
      kind := value;
    }

    method SetSort(value: string)
      modifies this
      ensures sort == value
      ensures anime == old(anime) && loading == old(loading) && error == old(error)
      ensures searchTerm == old(searchTerm) && kind == old(kind) && genres == old(genres) && minScore == old(minScore)
    {
      sort := value;
    }

    method SetMinScore(value: string)
      modifies this
      ensures minScore == value
      ensures anime == old(anime) && loading == old(loading) && error == old(error)
      ensures searchTerm == old(searchTerm) && kind == old(kind) && sort == old(sort) && genres == old(genres)
    {
      minScore := value;
    }

    /** A genre check box changed. */
    method ChangeGenre(value: string, checked: bool)
      modifies this
      ensures genres == ToggleGenre(old(genres), value, checked)
      ensures anime == old(anime) && loading == old(loading) && error == old(error)
      ensures searchTerm == old(searchTerm) && kind == old(kind) && sort == old(sort) && minScore == old(minScore)
    {
      genres := ToggleGenre(genres, value, checked);
    }

    /** "Clear filters": every filter back to its default; the results stay
        until the effect runs again. */
    method ClearFilters()
      modifies this
      ensures searchTerm == "" && kind == "all" && sort == "score" && genres == [] && minScore == ""
      ensures anime == old(anime) && loading == old(loading) && error == old(error)
    {
      searchTerm := "";
      kind := "all";
      sort := "score";
      genres := [];
      minScore := "";
    }
  }
}
