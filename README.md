# Anime catalogue pages: a verified model

This project models the logic inside the page components of a React front end
for an anime catalogue, which is backed by the Jikan API. The model covers:

- **Search requests.** Both search pages, `src/components/SearchResults.jsx`
  and `src/SearchResults.jsx`, and the landing page `src/Home.jsx` check the
  typed term and build a request URL from the term and the filters. Each page
  maps a failed response to its own message.
- **Client-side refinement.** `src/SearchResults.jsx` filters the returned
  list by type, genres and minimum score, then sorts it by score or by
  popularity. `src/Home.jsx` does the same for the top list, with a type
  filter only.
- **The debounce slot of `src/Home.jsx`.** The first render with an empty
  query is skipped once. Each change cancels the live timer and sets a new
  one, and unmounting cancels it.
- **The detail page, `src/AnimeDetailPage.jsx`.**
  - A saved aggregate of details, characters and recommendations is served
    for one hour, and a stale one is evicted when read.
  - The three requests are saved only when all three succeed.
  - The favorite flag is derived from the stored favorites, and the favorite
    button toggles the entry.
- **The favorites page, `src/FavoritesPage.jsx`**: loading and removing
  entries.
- **The comments section, `src/components/CommentsSection.jsx`**: checked
  submission, prepending, the reload when the section moves to another
  anime, and the ten-star rendering of a rating.

Each page component that updates React state is a class. Its fields are the
state variables and refs; the effects and handlers are methods. The browser's
`localStorage` is a `Store` object holding a map from keys to parsed records.
The clock, the answers to requests, `encodeURIComponent` and `parseFloat` are
parameters.

Each URL builder is checked against a decoder written in the same style as
`URLSearchParams` (module `QueryString`). The decoder reads back the path and
the parameters of the built URL.

Both search files have a `SearchResults` component, and they disagree on
several points:

- how an empty term is handled;
- whether the term is trimmed before it is sent;
- which parameters are sent;
- what clearing the filters restores.

Each is modelled as written (modules `SearchComponent` and `SearchPage`).

Points where the model had to take a side:

- **Lengths.** `.length` counts UTF-16 code units, so a character above
  U+FFFF (an emoji, say) counts twice. `Text.Utf16Length` models this, and
  both length checks use it: two emoji pass them, as
  `SearchComponent.AstralTerms` states.

- **Outer guard in `src/components/SearchResults.jsx`.** This guard (line 79)
  tests the untrimmed length. So "ab" clears the results and leaves the error
  line as it was (a message already on screen stays), and only a padded term
  such as "ab " reaches the too-short message.
  `SearchComponent.ShortTermPaths` states both.
- **Dead 400 branch in `src/Home.jsx`.** The 400 branch at lines 66-70 cannot
  be taken. Line 66 tests the same trimmed query, with the same `.length` in
  UTF-16 code units and the same bounds, as the too-short check at line 39,
  and a query of one or two UTF-16 code units returns there before any
  request. `Home.BadRequestUnreachable` proves it.
- **Top-list body without `data`.** On the top-list path of `src/Home.jsx`, a
  body without `data` makes `.filter` or `.sort` throw. The page then shows
  the thrown message and keeps the previous list.
- **Stable sort.** JavaScript's `sort` is stable, and the comparators order by
  a numeric key. The sort is therefore modelled as a stable insertion sort by
  that key. A comparator that always answers 0 leaves the list as it is.
- **Falsy defaults.**
  - `score || 0` counts a missing score as 0.
  - `popularity || 99999` counts a missing popularity as 99999, and a
    popularity of 0 as well.
  - `params.get(k) || d` also treats an empty string as missing, since `""`
    is falsy. `data.data || []` replaces only a missing list: an empty array
    is truthy, so `[]` is kept as it is (`Option.GetOr`).

## Model

| member | source | states |
|---|---|---|
| SearchInput.ToggleGenre | src/components/SearchResults.jsx:92-97 | ticking appends the genre; unticking removes every occurrence, and every other genre keeps its count and order |
| SearchInput.ToggleRoundTrip | src/SearchResults.jsx:83-90 | ticking a genre that was not selected and then unticking it restores the selection |
| SearchInput.TooShort | src/Home.jsx:39 | a too-short query is one whose trimmed form has 1 or 2 UTF-16 code units, so it has 1 or 2 characters |
| Text.Utf16Length | src/components/SearchResults.jsx:35 | `.length`: at least the number of characters and at most twice it (two units for a character above U+FFFF) |
| Text.TrimParts | src/components/SearchResults.jsx:33 | `trim` keeps the infix of the term that neither starts nor ends with white space, and cuts only white space |
| Text.TrimEmpty | src/components/CommentsSection.jsx:18 | the trimmed text is empty exactly when the text is all white space |
| Text.SplitJoin | src/components/SearchResults.jsx:53 | the comma join of the genres splits back into the genres when no genre holds a comma |
| Text.ParseDecimal | src/AnimeDetailPage.jsx:73 | `parseInt` reads back the decimal numeral of a non-negative id |
| Http.StatusDetail | src/components/SearchResults.jsx:66 | the detail is never empty: a non-empty status text is the detail; otherwise it is the status code, which `parseInt` reads back as the status |
| Http.FailureMessage | src/components/SearchResults.jsx:62-67 | the rate-limit message is given exactly for status 429; any other status gives "Failed to fetch anime: " followed by the status detail |
| SearchComponent.SearchUrlForMeans | src/components/SearchResults.jsx:43-58 | the URL has path `/api/anime`, starts with `?q=<term>` and ends with `&limit=20`. Read back, it has `type` iff the type is not "all", `order_by=<sort>&sort=desc` iff a sort is set, `genres=<comma join>` iff a genre is ticked, `min_score` iff a minimum is typed, and nothing else |
| SearchComponent.BuildSearchUrl | src/components/SearchResults.jsx:43-58 | the step-by-step `apiUrl +=` builder yields that URL |
| SearchComponent.FiltersBuilding | src/components/SearchResults.jsx:46-57 | after the optional fields, the URL carries exactly the term and the fields whose filters are set |
| SearchComponent.OrderBuilding | src/components/SearchResults.jsx:46-51 | the type field and the `order_by`/`sort` pair appear exactly when their conditions hold |
| SearchComponent.Start | src/components/SearchResults.jsx:43 | `/api/anime?q=<term>` carries the parameter `q` alone |
| SearchComponent.ShouldFetch | src/components/SearchResults.jsx:79 | the outer guard: a term it refuses has 1 or 2 characters |
| SearchComponent.SearchUrlFor | src/components/SearchResults.jsx:43-58 | the URL the page builds; what it says when read back is proved by SearchUrlForMeans |
| SearchComponent.Finished | src/components/SearchResults.jsx:58 | a URL built up to the limit field and ending in `&limit=20` has every property of a search URL |
| SearchComponent.ShortTermPaths | src/components/SearchResults.jsx:79-84 | "ab " passes the outer guard and is too short after trimming; "ab" fails the guard |
| SearchComponent.TooShortNeedsPadding | src/components/SearchResults.jsx:33-40 | a term that passes the guard and is still too short has at least 3 UTF-16 code units and loses some characters to trimming |
| SearchComponent.AstralTerms | src/components/SearchResults.jsx:35 | lengths count UTF-16 code units: two emoji are four units and are searched for; "a" and one emoji are three units and pass the outer guard |
| SearchComponent.SearchResultsView.constructor | src/components/SearchResults.jsx:11-23 | the initial state, with term, type and sort taken from the page URL or defaulted to "", "all", "score" |
| SearchComponent.SearchResultsView.RunEffect | src/components/SearchResults.jsx:28-85 | see "Effect outcomes" below |
| SearchComponent.SearchResultsView.Fetch | src/components/SearchResults.jsx:29-76 | past the outer guard: a trimmed term of 1 or 2 UTF-16 code units gives no request, empty results and the too-short message; any other term is sent as the URL for the trimmed, encoded term and settled as in RunEffect |
| SearchComponent.SearchResultsView.Send | src/components/SearchResults.jsx:43-75 | the request is exactly the search URL for the query and filters; a good reply shows its list (missing = []), a bad one keeps the list and shows the status message; the filters never change |
| SearchComponent.SearchResultsView.SetSearchTerm | src/components/SearchResults.jsx:88 | only the term changes |
| SearchComponent.SearchResultsView.SetType | src/components/SearchResults.jsx:89 | only the type changes |
| SearchComponent.SearchResultsView.SetSort | src/components/SearchResults.jsx:90 | only the sort changes |
| SearchComponent.SearchResultsView.SetMinScore | src/components/SearchResults.jsx:91 | only the minimum score changes |
| SearchComponent.SearchResultsView.ChangeGenre | src/components/SearchResults.jsx:92-97 | the genres become the toggled list, and nothing else changes |
| SearchComponent.SearchResultsView.ClearFilters | src/components/SearchResults.jsx:99-106 | term "", type "all", sort "score", no genres, no minimum |
| SearchPage.PageUrlForMeans | src/SearchResults.jsx:41-45 | the URL has path `/api/anime/search` and starts with `?query=<term>`. Read back, it has `type` iff the type is not "all", `sort` iff the sort is not "score", `genres` iff a genre is ticked, `min_score` iff a minimum is typed, and no `limit` |
| SearchPage.BuildPageUrl | src/SearchResults.jsx:41-45 | the `apiUrl +=` builder yields that URL |
| SearchPage.Start | src/SearchResults.jsx:41 | `/api/anime/search?query=<term>` carries the parameter `query` alone |
| SearchPage.PageUrlFor | src/SearchResults.jsx:41-45 | the URL the page builds; what it says when read back is proved by PageUrlForMeans |
| SearchPage.TypeSortBuilding | src/SearchResults.jsx:41-43 | the type and sort fields appear exactly when their conditions hold |
| SearchPage.PageBuilding | src/SearchResults.jsx:41-45 | the finished URL carries exactly the parameters of the page's filters |
| SearchPage.SearchPageView.constructor | src/SearchResults.jsx:13-25 | the initial state, remembering the term of the page URL |
| SearchPage.SearchPageView.RunEffect | src/SearchResults.jsx:30-81 | see "Effect outcomes" below |
| SearchPage.SearchPageView.Settle | src/SearchResults.jsx:47-78 | see "Effect outcomes" below |
| SearchPage.SearchPageView.ChangeGenre | src/SearchResults.jsx:83-90 | the genres become the toggled list, and nothing else changes |
| SearchPage.SearchPageView.ClearFilters | src/SearchResults.jsx:92-98 | the term returns to the page URL's term (not ""); type "all", sort "score", no genres, no minimum |
| Refine.SortedOrdered | src/SearchResults.jsx:66-71 | in a sorted list, scores (missing = 0) never increase, or ranks (missing or 0 = 99999) never decrease, between any two positions |
| Refine.InsertPermutes | src/SearchResults.jsx:66-71 | inserting adds exactly the one element |
| Refine.InsertSorted | src/SearchResults.jsx:66-71 | inserting into a sorted list keeps it sorted |
| Refine.SortByMeans | src/SearchResults.jsx:66-71 | the sort is a permutation of its input, and its output is sorted by the comparator's key |
| Refine.InsertStable | src/SearchResults.jsx:66-71 | inserting the first entry keeps it before the entries whose key equals its own, and leaves every other key's entries in order |
| Refine.SortByStable | src/SearchResults.jsx:66-71 | the sort is stable: for every key, the entries with that key come out in the order and number they went in |
| Refine.SortSorted | src/SearchResults.jsx:66-71 | sorting a sorted list changes nothing |
| Refine.AsGivenKeepsOrder | src/SearchResults.jsx:66-70 | with any other sort value, the comparator answers 0 and the order is kept |
| Refine.Stages | src/SearchResults.jsx:53-64 | the three filter stages together are one filter by "passes every active filter" |
| Refine.ByType | src/SearchResults.jsx:54-56 | the type stage; with Stages and RefinedMeans it keeps exactly the entries whose lower-cased type is the selected one |
| Refine.ByGenres | src/SearchResults.jsx:57-61 | the genre stage; it keeps exactly the entries with a genre among the ticked ones |
| Refine.ByMinScore | src/SearchResults.jsx:62-64 | the minimum-score stage; it keeps exactly the entries whose score (missing = 0) is at least the parsed minimum |
| Refine.SortBy | src/SearchResults.jsx:66-71 | `sort` with the chosen comparator: as long as its input (its meaning is proved by SortByMeans and SortByStable) |
| Refine.Refined | src/SearchResults.jsx:53-71 | the whole refinement; its meaning is proved by RefinedMeans and RefinedStable |
| Refine.RefinedMeans | src/SearchResults.jsx:53-71 | see "Refinement" below |
| Refine.RefinedStable | src/SearchResults.jsx:53-71 | entries the selected order cannot tell apart keep the order they had among the entries passing the filters |
| Refine.RefineResults | src/SearchResults.jsx:53-71 | the stage-by-stage rebinding of `filtered` computes the refinement |
| Refine.StagesIdempotent | src/SearchResults.jsx:54-64 | each filter stage applied to its own output changes nothing |
| Refine.RefinedIdempotent | src/SearchResults.jsx:53-71 | refining an already refined list gives it back unchanged |
| Refine.MovieAboveScenario | src/SearchResults.jsx:54-71 | a "movie" search with minimum 7.5 over a TV entry scoring 8 and movies scoring 9 and 6 keeps only the movie scoring 9 |
| Refine.PopularityScenario | src/SearchResults.jsx:68 | popularity 2 sorts before 5, and 5 before a missing popularity |
| Home.ChooseUrl | src/Home.jsx:48-57 | the `apiUrl` assignment: for a non-empty trimmed query the URL has path `.../v4/anime` and reads back exactly `q`, `type`, `order_by`, `sort=desc` and `limit=12`; for an empty one it has path `.../v4/top/anime` and reads back only `limit=12` |
| Home.HomeUrlMeans | src/Home.jsx:52-57 | see "Home requests" below |
| Home.HomeUrl | src/Home.jsx:52-57 | the URL for the trimmed query; what it says when read back is proved by HomeUrlMeans |
| Home.SearchRequestMeans | src/Home.jsx:53 | the search URL's path and its five parameters |
| Home.TopRequestMeans | src/Home.jsx:56 | the top-list URL's path and its single parameter |
| Home.SearchFields | src/Home.jsx:53 | the search URL up to `order_by` carries `q`, `type` and `order_by` |
| Home.BadRequestUnreachable | src/Home.jsx:62-72 | for a term that is not too short, every failure is the rate-limit or the generic message, never the bad-request one |
| Home.TopListMeans | src/Home.jsx:82-92 | the top list holds exactly the entries of the selected type, each as often as the response does, sorted by the selected order |
| Home.TopListStable | src/Home.jsx:87-90 | the top list keeps ties in the order the response gave them |
| Home.TopList | src/Home.jsx:82-91 | the top list; its meaning is proved by TopListMeans and TopListStable |
| Home.AfterReply | src/Home.jsx:58-102 | the list and the error after a reply; their meaning is proved by AfterReplyMeans |
| Home.ProcessResults | src/Home.jsx:74-92 | search results pass through unchanged (missing = []); top results are type-filtered and sorted; missing top `data` throws the `filter`/`sort` TypeError |
| Home.AfterReplyMeans | src/Home.jsx:58-102 | see "Home requests" below |
| Home.AtMostOnePending | src/Home.jsx:28-37 | a sound slot has at most one live timer, and none when the ref is empty |
| Home.HomePage.constructor | src/Home.jsx:8-26 | mounting with the empty query skips the first effect: no timer is live, and the skip has happened once |
| Home.HomePage.Cleanup | src/Home.jsx:105-110 | the cleanup clears the live timer, and nothing is left pending |
| Home.HomePage.Commit | src/Home.jsx:19-37 | see "Debounce slot" below |
| Home.HomePage.Schedule | src/Home.jsx:28-37 | see "Debounce slot" below |
| Home.HomePage.SetQuery | src/Home.jsx:114-116 | see "Debounce slot" below |
| Home.HomePage.SetType | src/Home.jsx:133 | the same as SetQuery, for the type: the list stays; a new type sets one timer over the current values, shows the spinner and clears the error; the same type changes nothing |
| Home.HomePage.SetSort | src/Home.jsx:144 | the same as SetQuery, for the sort: the list stays; a new sort sets one timer over the current values, shows the spinner and clears the error; the same sort changes nothing |
| Home.HomePage.Fire | src/Home.jsx:37-103 | see "Debounce slot" below |
| Home.HomePage.Callback | src/Home.jsx:37-103 | the callback over the closed-over values: the too-short check, then the request and its settling |
| Home.HomePage.Reject | src/Home.jsx:39-46 | a too-short query: empty list, the too-short message, no spinner |
| Home.HomePage.Request | src/Home.jsx:48-102 | the URL chosen, then the settled reply |
| Home.HomePage.Settle | src/Home.jsx:58-102 | the screen after the reply is what `AfterReply` says, and the spinner is off |
| Home.HomePage.Show | src/Home.jsx:74-95 | a good reply: the processed list is shown, or the thrown message with the old list |
| Home.HomePage.Unmount | src/Home.jsx:105-110 | unmounting leaves no live timer |
| Favorites.SavedFavorites | src/AnimeDetailPage.jsx:72 | nothing stored reads as []; a stored list reads as itself |
| Favorites.HasIdMeans | src/AnimeDetailPage.jsx:73 | the flag is true iff some stored favorite has the numeric route id; a route id that does not parse (`NaN`) is never found |
| Favorites.HasId | src/AnimeDetailPage.jsx:73 | `favorites.some(...)`; its meaning is proved by HasIdMeans |
| Favorites.WithoutIdMeans | src/FavoritesPage.jsx:14 | removal keeps exactly the entries with another id, with their counts, as a subsequence in order |
| Favorites.WithoutId | src/FavoritesPage.jsx:14 | `favorites.filter(...)`; its meaning is proved by WithoutIdMeans |
| Favorites.WithoutAbsentId | src/FavoritesPage.jsx:14 | removing an id no entry has changes nothing |
| Favorites.WithoutIdIdempotent | src/FavoritesPage.jsx:14 | removing twice is removing once |
| Favorites.FavoritesPage.constructor | src/FavoritesPage.jsx:6-11 | the page starts with the saved list, or [] |
| Favorites.FavoritesPage.RemoveFavorite | src/FavoritesPage.jsx:13-17 | the list loses every entry with the id; the same list is persisted under "favorites", and no other key changes |
| DetailPage.FreshEntry | src/AnimeDetailPage.jsx:80-84 | a read at `now` serves the record under `anime_<id>` iff it is a saved aggregate with now − timestamp < 3 600 000 |
| DetailPage.AfterLookup | src/AnimeDetailPage.jsx:91-94 | a record present but not served is removed; no other key is touched |
| DetailPage.DetailFailure | src/AnimeDetailPage.jsx:105-110 | there is no error iff all three responses are ok |
| DetailPage.FailureNamesFirst | src/AnimeDetailPage.jsx:105-110 | the message starts with "Failed to load anime details: ", "Failed to load characters: " or "Failed to load recommendations: " exactly when that request is the first to fail, in that order |
| DetailPage.FailureCarriesStatus | src/AnimeDetailPage.jsx:105-110 | after its prefix the message gives back the failed response's status under `parseInt`, and it ends with the status text (for the recommendations, followed by ". Response: " and the body) |
| DetailPage.AfterFetch | src/AnimeDetailPage.jsx:112-126 | all or nothing: a failure leaves the store as it was; success writes exactly `anime_<id>` with the three payloads and the clock |
| DetailPage.SavedThenRead | src/AnimeDetailPage.jsx:80-126 | a saved aggregate is served back unchanged for an hour, and the first read after that evicts it |
| DetailPage.ToggleTwice | src/AnimeDetailPage.jsx:139-153 | toggling an anime that is not a favorite on and then off restores the list |
| DetailPage.Toggled | src/AnimeDetailPage.jsx:140-150 | the list the button saves; ToggleTwice and ToggleAgrees prove what it means |
| DetailPage.ToggleAgrees | src/AnimeDetailPage.jsx:139-153 | the flipped flag equals the flag the page derives again from the saved list |
| DetailPage.AnimeDetailPage.constructor | src/AnimeDetailPage.jsx:57-63 | the initial state: no anime, empty lists, loading, no error, not a favorite |
| DetailPage.AnimeDetailPage.Mount | src/AnimeDetailPage.jsx:70-137 | see "Detail page" below |
| DetailPage.AnimeDetailPage.LoadDetails | src/AnimeDetailPage.jsx:75-135 | `fetchDetails`: the same outcomes as Mount for the details |
| DetailPage.AnimeDetailPage.ReadCache | src/AnimeDetailPage.jsx:80-95 | a hit shows the saved payloads and leaves the store alone; a miss evicts a stale record |
| DetailPage.AnimeDetailPage.FetchDetails | src/AnimeDetailPage.jsx:98-134 | all or nothing: the store and the shown payloads change only when all three responses are ok; otherwise the error is set |
| DetailPage.AnimeDetailPage.ToggleFavorite | src/AnimeDetailPage.jsx:139-153 | the stored list becomes the toggled list and no other key changes; the flag flips; the anime, characters, recommendations, spinner and error stay |
| Comments.Filled | src/components/CommentsSection.jsx:33-41 | n stars are drawn |
| Comments.Stars | src/components/CommentsSection.jsx:33-41 | `renderStars`: always ten stars (what each star shows is proved by StarsMeans) |
| Comments.FilledMeans | src/components/CommentsSection.jsx:33-41 | star i is filled iff the score is greater than i, and the number of filled stars is the score clamped to 0..n |
| Comments.StarsMeans | src/components/CommentsSection.jsx:33-41 | there are always 10 stars, the filled ones come first, and a rating r in 0..10 fills exactly r |
| Catalog.KeysDistinct | src/components/CommentsSection.jsx:5 | the keys "favorites", `comments-<id>` and `anime_<id>` never collide, and each key family tells ids apart |
| Comments.SavedComments | src/components/CommentsSection.jsx:11-14 | a stored list reads back as exactly what is stored |
| Comments.CommentsSection.constructor | src/components/CommentsSection.jsx:4-14 | the section starts with the saved comments (or []) and an empty form, so it shows its own anime's comments |
| Comments.CommentsSection.SetText | src/components/CommentsSection.jsx:76 | only the text changes; comments, rating, the submitting flag and the anime stay |
| Comments.CommentsSection.SetRating | src/components/CommentsSection.jsx:57 | only the rating changes; comments, text, the submitting flag and the anime stay |
| Comments.CommentsSection.Submit | src/components/CommentsSection.jsx:16-31 | see "Comment submission" below |
| Comments.CommentsSection.ChangeAnime | src/components/CommentsSection.jsx:5-14 | a new anime id changes the key and re-runs the load: the saved list under the new key when there is one (then in sync with the store), otherwise the previous anime's comments stay; text and rating stay; the same id changes nothing |
| Comments.StaleCommentsSaved | src/components/CommentsSection.jsx:11-14 | moving from an anime with a saved comment to one with none keeps that comment on screen, and the next submit saves it under the new anime's key |
| Comments.CommentsSection.ChangeAnimeIntended | src/components/CommentsSection.jsx:11-14 | the intended reload: the comments become those saved under the new key or none, so the section shows its own anime's comments only |
| Comments.IntendedSubmitKeepsOwn | src/components/CommentsSection.jsx:11-27 | after the intended reload, a submit saves under the key the new comment followed by exactly what was saved there before, and no other key reads differently |

### Effect outcomes

`SearchComponent.SearchResultsView.RunEffect`:

- A term of 1 or 2 UTF-16 code units fails the guard: no request, empty results, the error as it was.
- A term that passes the guard but is too short after trimming: no request, empty results, the too-short message.
- Any other term: the request is exactly the URL for the trimmed, encoded term. A good reply shows its list (missing = []) and clears the error. A bad reply keeps the list and shows the status message.
- The filters never change, and the spinner always ends off.

`SearchPage.SearchPageView.RunEffect`:

- An empty term: no request, empty results, the error as it was.
- Any other term: the request is the URL for the untrimmed, encoded term. A good reply shows the refinement of its `results`. A bad reply shows "Failed to fetch search results".

`SearchPage.SearchPageView.Settle`:

- A good reply shows the refinement of the reply's list.
- A bad reply keeps the list and shows "Failed to fetch search results".
- The spinner ends off.

### Refinement

`Refine.RefinedMeans` states that the result:

- holds exactly the entries of the input that pass every active filter:
  - a lower-cased type equal to the selected one;
  - some genre name among the ticked ones;
  - score (missing = 0) at least the parsed minimum;
- holds each such entry as often as the input does;
- is sorted by the selected order;
- keeps ties in input order: for every key, the entries with that key come out in the order the response gave them (`Refine.RefinedStable`).

### Home requests

`Home.HomeUrlMeans`:

- A non-empty trimmed query: the search URL has path `.../v4/anime` and exactly the parameters `q`, `type` (even when it is "all"), `order_by`, `sort=desc` and `limit=12`.
- An empty one: the URL is `.../v4/top/anime?limit=12`.

`Home.AfterReplyMeans`, for a query that is not too short:

- A failed reply keeps the list and shows the rate-limit or the generic message.
- A search shows the reply's list.
- The top list shows exactly the entries of the selected type, in the selected order.
- A top-list body without `data` keeps the list and shows an error.

### Debounce slot

`Home.HomePage.Commit`:

- The first commit with an empty query is skipped, once: no timer, spinner and error untouched.
- Any other commit clears the old timer and sets exactly one new timer, which closes over the current values. It also shows the spinner and clears the error.

`Home.HomePage.Schedule`: exactly one timer is live, holding the current query, type and sort. The spinner is on and the error cleared.

`Home.HomePage.SetQuery`:

- The list shown never changes.
- A new value commits: one timer over the new values is live and held by the ref, the spinner is on and the error is cleared.
- The same value changes nothing: no field of the page changes.
- The slot stays sound.

`Home.HomePage.Fire`: the live timer fires and no timer is left. Then:

- A too-short query gives the empty list and the too-short message, with no request.
- Otherwise the request is the chosen URL, and the screen is what `AfterReply` says.

### Detail page

`DetailPage.AnimeDetailPage.Mount`:

- The favorite flag is derived from the stored list.
- Requests are made iff no fresh aggregate is saved.
- A hit shows the saved payloads (missing lists = []) and leaves the store alone.
- A miss evicts the stale record. It then sets the first failure, or shows the three payloads and saves them with the clock.

### Comment submission

`Comments.CommentsSection.Submit`:

- It is accepted iff the text is not all white space and the rating is not 0. A refused submit changes nothing.
- An accepted submit:
  - prepends exactly one comment `{text, rating, date, id}`: the list grows by one, and its tail is the old list;
  - persists the new list under `comments-<animeId>` and nowhere else;
  - resets the text to "" and the rating to 0.
- Starting from a section that shows its own anime's comments
  (`OwnComments`), any submit keeps it that way. The constructor and
  `ChangeAnimeIntended` establish it; `ChangeAnime`, as written, does not
  (see "## Findings").

## Findings

| source | as written | input that shows it | evidently intended | confidence | as-written member | corrected member |
|---|---|---|---|---|---|---|
| src/components/CommentsSection.jsx:11-14 | when the anime id changes, the load effect sets the comments only if something is saved under the new key, so the previous anime's comments stay on screen and the next submit saves them under the new key | anime "1" has a saved comment, anime "2" has none; the detail page moves from "1" to "2" through a recommendation link, and anime "2"'s details were saved in the cache within the hour, so the loading skeleton never renders and the section stays mounted; one submit then saves the new comment and the first anime's comment under `comments-2` | with nothing saved, the section shows no comments, and each key only ever holds its own anime's comments | medium, not executed | Comments.StaleCommentsSaved | Comments.IntendedSubmitKeepsOwn |

`Comments.CommentsSection.ChangeAnime` models the move as written. `Comments.CommentsSection.ChangeAnimeIntended` is the corrected move, and it keeps `OwnComments`.

## Left out

- Markup, styling, skeletons, routing and the theme are presentation only.
- `console` and `alert` are not modelled. A rejected comment only shows an alert.
- **Network I/O.**
  - `fetch` and `Promise.all` are not modelled: each request's answer is a parameter, and the model returns the URL requested.
  - A network rejection, a `.json()` that fails, and `err.message || ...` fall-backs are not modelled.
  - Intermediate React states between the request and its answer (`loading` true while waiting) are collapsed into one settled step.
  - Because of that collapse, the model cannot express a reply that arrives after a newer request or a route change. The pages have no guard against it (`src/Home.jsx` lines 58-102, `src/components/SearchResults.jsx` lines 59-75, `src/SearchResults.jsx` lines 47-78, `src/AnimeDetailPage.jsx` lines 99-126), so a slow reply to an old query or id overwrites the newer screen.
- **`localStorage` and JSON.** Each key holds a parsed record (`Stored`), so JSON text, parse errors and records of a foreign shape are not modelled. A stored value of another kind reads as absent.
- **The clock.** `Date.now()` and `new Date().toLocaleString()` are parameters. The detail page reads the clock twice: once when it reads the cache (`now`) and once when it saves (`savedAt`).
- **`setTimeout`.** Its 500 ms delay and the real timing of timers are not modelled. Timers are ids in a table that fire when `Fire` is called; ids start at 1, as browsers hand out positive ids.
- **Library functions.**
  - `encodeURIComponent` (`enc`) and `parseFloat` (`parse`, where `None` stands for `NaN`) are opaque parameters.
  - Scores are `real`, so floating-point rounding is not modelled.
- **String built-ins.**
  - `trim` and `parseInt` skip the white space listed in `Text.IsSpace`: the ASCII ones, no-break space, BOM, and the line and paragraph separators. The other Unicode space separators are not modelled.
  - `toLowerCase` lowers ASCII letters only.
  - `parseInt` is modelled for base-10 input only.
- **Fragments.** The URL decoder does not model '#' fragments or percent-decoding.
- **Unescaped filter values.** The pages splice type, sort, genres and minimum score into the URL without escaping. The builders' read-back contracts therefore hold only for values that contain no '&' (`QueryString.Plain`, `SearchInput.Unambiguous`). An '=' inside a value is harmless, because the decoder, like `URLSearchParams`, splits a field at its first '=':
  - SearchComponent.SearchUrlForMeans: the parameter read-back is stated for unambiguous values only. A value holding '&' would start a parameter of its own.
  - SearchPage.PageUrlForMeans: the same, for `src/SearchResults.jsx`.
  - Home.HomeUrlMeans: the same, for the type and sort of `src/Home.jsx`.
- **`TypeError` text.** On the top-list path, the text of the `TypeError` for a missing `data` follows V8's wording (`Home.MissingDataMessage`). Other engines word it differently.
- Home.HomeFailure: stated through `Home.BadRequestUnreachable` and `Home.AfterReplyMeans` rather than by its own contract. For a query that reaches a request, its bad-request case is unreachable.
- **`handleSaveReview` in `src/AnimeDetailPage.jsx` (lines 156-163)** is not modelled. It is never rendered, and `CommentsSection` replaces it.
