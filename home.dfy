/** src/Home.jsx: the landing page. Typing in the search box or changing the
    type or sort re-runs an effect that (after skipping the very first render
    with an empty query) cancels the pending debounce timer and sets a new one
    of 500 ms; when a timer fires, its callback checks the query, picks the
    search or the top-list endpoint of the Jikan API, and on the top-list path
    filters by type and sorts on the client. */
module Home {
  import opened Wrappers
  import opened Text
  import opened QueryString
  import opened Catalog
  import opened Seqs
  import opened Http
  import opened SearchInput
  import opened Refine

  const Host: string := "https://api" + ".jikan.moe"
  const SearchBase: string := Host + "/v4/anime"
  const TopBase: string := Host + "/v4/top/anime"

  const BadRequestMessage: string := "Bad Request: " + "Search query invalid " + "or too short."

  /** The message a `TypeError` from reading a list method of `undefined`
      carries, as V8 words it. */
  function MissingDataMessage(methodName: string): string {
    "Cannot read properties " + "of undefined (reading '" + methodName + "')"
  }

  /** The request URL for the trimmed query `actual`: the search endpoint with
      `q`, `type` (sent even when it is "all"), `order_by`, `sort=desc` and
      `limit=12` when there is a query, the top list with `limit=12` when
      there is none. */
  function HomeUrl(enc: string -> string, actual: string, kind: string, sort: string): string {
    if actual != "" then
      SearchBase + "?q=" + enc(actual) + Field("type", kind) + Field("order_by", sort)
      + Field("sort", "desc") + Field("limit", "12")
    else TopBase + "?limit=12"
  }

  /** `apiUrl` as the callback assigns it. */
  method ChooseUrl(enc: string -> string, actual: string, kind: string, sort: string) returns (apiUrl: string)
    ensures apiUrl == HomeUrl(enc, actual, kind, sort)
    ensures actual != "" ==> PathOf(apiUrl) == SearchBase
    ensures actual != "" && Plain(enc(actual)) && Plain(kind) && Plain(sort) ==>
      QueryParams(apiUrl) == map["q" := enc(actual), "type" := kind, "order_by" := sort,
                                 "sort" := "desc", "limit" := "12"]
    ensures actual == "" ==> PathOf(apiUrl) == TopBase && QueryParams(apiUrl) == map["limit" := "12"]
  {
    HomeUrlMeans(enc, actual, kind, sort);
    if actual != "" {
      apiUrl := SearchBase + "?q=" + enc(actual) + Field("type", kind) + Field("order_by", sort)
        + Field("sort", "desc") + Field("limit", "12");
    } else {
      apiUrl := TopBase + "?limit=12";
    }
  }

  /** What the URL chosen for `actual` says when read back. */
  lemma HomeUrlMeans(enc: string -> string, actual: string, kind: string, sort: string)
    ensures var url := HomeUrl(enc, actual, kind, sort);
      && (actual != "" ==> PathOf(url) == SearchBase)
      && (actual != "" && Plain(enc(actual)) && Plain(kind) && Plain(sort) ==>
            QueryParams(url) == map["q" := enc(actual), "type" := kind, "order_by" := sort,
                                    "sort" := "desc", "limit" := "12"])
      && (actual == "" ==> PathOf(url) == TopBase && QueryParams(url) == map["limit" := "12"])
  {
    if actual != "" {
      SearchRequestMeans(enc(actual), kind, sort);
    } else {
      TopRequestMeans();
    }
  }

  lemma SearchRequestMeans(q: string, kind: string, sort: string)
    ensures var url := SearchBase + "?q=" + q + Field("type", kind) + Field("order_by", sort)
                       + Field("sort", "desc") + Field("limit", "12");
      && PathOf(url) == SearchBase
      && (Plain(q) && Plain(kind) && Plain(sort) ==>
            QueryParams(url) == map["q" := q, "type" := kind, "order_by" := sort, "sort" := "desc", "limit" := "12"])
  {
    var plain := Plain(q) && Plain(kind) && Plain(sort);
    SearchFields(q, kind, sort, plain);
    var start := SearchBase + "?q=" + q;
    var u2 := start + Field("type", kind) + Field("order_by", sort);
    var p2 := map["q" := q, "type" := kind, "order_by" := sort];
    Step(u2, SearchBase, start, plain, p2, "sort", "desc");
    var u3 := u2 + Field("sort", "desc");
    var p3 := p2["sort" := "desc"];
    Step(u3, SearchBase, start, plain, p3, "limit", "12");
    BuildingPath(u3 + Field("limit", "12"), SearchBase, start, plain, p3["limit" := "12"]);
  }

  lemma TopRequestMeans()
    ensures PathOf(TopBase + "?limit=12") == TopBase
    ensures QueryParams(TopBase + "?limit=12") == map["limit" := "12"]
  {
    StartAt(TopBase, "limit", "12", true);
    assert TopBase + "?limit=12" == TopBase + "?" + "limit" + "=" + "12";
    BuildingPath(TopBase + "?limit=12", TopBase, TopBase + "?limit=12", true, map["limit" := "12"]);
  }

  /** The search URL up to its `order_by` field. */
  lemma SearchFields(q: string, kind: string, sort: string, plain: bool)
    requires plain ==> Plain(q) && Plain(kind) && Plain(sort)
    ensures var start := SearchBase + "?q=" + q;
      Building(start + Field("type", kind) + Field("order_by", sort), SearchBase, start, plain,
               map["q" := q, "type" := kind, "order_by" := sort])
  {
    var start := SearchBase + "?q=" + q;
    StartAt(SearchBase, "q", q, plain);
    assert start == SearchBase + "?" + "q" + "=" + q;
    var p0 := map["q" := q];
    Step(start, SearchBase, start, plain, p0, "type", kind);
    Step(start + Field("type", kind), SearchBase, start, plain, p0["type" := kind], "order_by", sort);
  }

  /** The error a response that is not ok raises on this page: the rate-limit
      message for 429, the bad-request message for 400 with a query of one
      or two UTF-16 code units, and the generic failure otherwise. */
  function HomeFailure<T>(r: Response<T>, actual: string): string {
    if r.status == 429 then RateLimitMessage
    else if r.status == 400 && Utf16Length(actual) < 3 && Utf16Length(actual) > 0 then BadRequestMessage
    else FailureMessage(r)
  }

  /** The bad-request branch cannot be taken: a query whose trimmed form has
      one or two UTF-16 code units never reaches the request, so every failure the
      page shows is the rate-limit or the generic one. */
  lemma BadRequestUnreachable<T>(r: Response<T>, query: string)
    requires !TooShort(query)
    ensures HomeFailure(r, Trim(query)) == FailureMessage(r)
    ensures HomeFailure(r, Trim(query)) != BadRequestMessage
  {
    var m := FailureMessage(r);
    if r.status == 429 {
      assert m == RateLimitMessage;
      assert RateLimitMessage[0] == 'T' && BadRequestMessage[0] == 'B';
    } else {
      assert m[..|FailurePrefix|] == FailurePrefix;
      assert m[0] == FailurePrefix[0] == 'F' && BadRequestMessage[0] == 'B';
    }
  }

  /** The top list as the page shows it: the entries of the selected type (all
      of them for "all"), sorted by the selected order. */
  function TopList(results: seq<Anime>, kind: string, sort: string): seq<Anime> {
    SortBy(ByType(results, kind), OrderOf(sort))
  }

  /** The top list's sort is stable: entries the selected order cannot tell
      apart keep the order the response gave them. */
  lemma TopListStable(results: seq<Anime>, kind: string, sort: string, k: real)
    ensures Ties(TopList(results, kind, sort), OrderOf(sort), k) == Ties(ByType(results, kind), OrderOf(sort), k)
  {
    SortByStable(ByType(results, kind), OrderOf(sort), k);
  }

  /** The top list holds exactly the entries of the selected type, each as
      often as the response does, in the selected order. */
  lemma TopListMeans(results: seq<Anime>, kind: string, sort: string)
    ensures var r := TopList(results, kind, sort);
      && (forall a :: a in r <==> a in results && (kind != "all" ==> TypeMatches(a, kind)))
      && (forall a :: multiset(r)[a] == if kind != "all" && !TypeMatches(a, kind) then 0 else multiset(results)[a])
      && Sorted(r, OrderOf(sort))
  {
    var r := TopList(results, kind, sort);
    if kind != "all" { KeepMeans(results, a => TypeMatches(a, kind)); }
    SortByMeans(ByType(results, kind), OrderOf(sort));
    forall a ensures a in r <==> a in multiset(ByType(results, kind)) {
    }
  }

  /** What the callback makes of a good response: a list to show, or the
      error thrown while processing it. */
  datatype Outcome = Listed(list: seq<Anime>) | Thrown(message: string)

  /** `processedResults`, reassigned as the callback does. `data` is the
      body's `data` field. On the search path it is shown as it is (missing =
      []); on the top-list path a missing field makes `.filter` or `.sort`
      throw. */
  method ProcessResults(actual: string, kind: string, sort: string, data: Option<seq<Anime>>)
    returns (outcome: Outcome)
    ensures actual != "" ==> outcome == Listed(data.GetOr([]))
    ensures actual == "" && data.None? ==>
      outcome == Thrown(MissingDataMessage(if kind != "all" then "filter" else "sort"))
    ensures actual == "" && data.Some? ==> outcome == Listed(TopList(data.value, kind, sort))
  {
    if actual != "" {
      return Listed(data.GetOr([]));
    }
    if data.None? {
      return Thrown(MissingDataMessage(if kind != "all" then "filter" else "sort"));
    }
    var processedResults := data.value;
    if kind != "all" {
      processedResults := Keep(processedResults, a => TypeMatches(a, kind));
    }
    processedResults := SortBy(processedResults, OrderOf(sort));
    return Listed(processedResults);
  }

  /** What the callback leaves on screen once the answer to the request for
      the trimmed query `actual` is in, given the list and error shown
      before: the failure message of a bad status, the results of a search,
      the processed top list, or the error thrown while processing it. */
  function AfterReply(list: seq<Anime>, err: Option<string>, actual: string, kind: string, sort: string,
                      reply: Response<seq<Anime>>): (seq<Anime>, Option<string>)
  {
    if !reply.ok then (list, Some(HomeFailure(reply, actual)))
    else if actual != "" then (reply.data.GetOr([]), err)
    else if reply.data.None? then (list, Some(MissingDataMessage(if kind != "all" then "filter" else "sort")))
    else (TopList(reply.data.value, kind, sort), err)
  }

  /** For a query that passed the length check: a failed request keeps the
      list and shows the rate-limit or generic message, never the bad-request
      one; a search shows the response's entries; the top list shows exactly
      the entries of the selected type, in the selected order; a top-list
      body without `data` keeps the list and shows an error. */
  lemma AfterReplyMeans(list: seq<Anime>, err: Option<string>, query: string, kind: string, sort: string,
                        reply: Response<seq<Anime>>)
    requires !TooShort(query)
    ensures var (shown, message) := AfterReply(list, err, Trim(query), kind, sort, reply);
      && (!reply.ok ==> shown == list && message == Some(FailureMessage(reply)) && message != Some(BadRequestMessage))
      && (reply.ok && Trim(query) != "" ==> shown == reply.data.GetOr([]) && message == err)
      && (reply.ok && Trim(query) == "" && reply.data.Some? ==>
            && message == err
            && (forall a :: a in shown <==> a in reply.data.value && (kind != "all" ==> TypeMatches(a, kind)))
            && Sorted(shown, OrderOf(sort)))
      && (reply.ok && Trim(query) == "" && reply.data.None? ==> shown == list && message.Some?)
  {
    BadRequestUnreachable(reply, query);
    if reply.data.Some? {
      TopListMeans(reply.data.value, kind, sort);
    }
  }

  /** The render values a timer callback closed over. */
  datatype Snapshot = Snapshot(query: string, kind: string, sort: string)

  /** The debounce slot is sound: every live timer is the one the ref holds
      (so at most one is live), none is live once the cleanup has run or the
      first render was skipped, and timer ids are positive and below the next
      one to be handed out. */
  predicate SlotOk(pending: map<nat, Snapshot>, timeoutRef: Option<nat>, hasCleanup: bool, nextTimer: nat) {
    && (forall id :: id in pending ==> timeoutRef == Some(id) && 0 < id < nextTimer)
    && (!hasCleanup ==> pending == map[])
    && 0 < nextTimer
  }

  lemma AtMostOnePending(pending: map<nat, Snapshot>, timeoutRef: Option<nat>, hasCleanup: bool, nextTimer: nat)
    requires SlotOk(pending, timeoutRef, hasCleanup, nextTimer)
    ensures |pending.Keys| <= 1
    ensures timeoutRef.None? ==> pending == map[]
  {
    if timeoutRef.Some? {
      assert pending.Keys <= {timeoutRef.value};
      SubsetOfSingleton(pending.Keys, timeoutRef.value);
    } else {
      assert pending.Keys == {};
    }
  }

  lemma SubsetOfSingleton(s: set<nat>, x: nat)
    requires s <= {x}
    ensures |s| <= 1
  {
    if x in s {
      assert s == {x};
    } else {
      assert s == {};
    }
  }

  /** The page's state, its two refs, and the browser's timer table (the
      timers set and neither cleared nor fired, with what they closed over). */
  class HomePage {
    var animeList: seq<Anime>
    var loading: bool
    var query: string
    var kind: string
    var sort: string
    var error: Option<string>
    var initialLoad: bool
    var timeoutRef: Option<nat>
    var pending: map<nat, Snapshot>
    var nextTimer: nat
    var hasCleanup: bool
    ghost var skips: nat

    /** Between events: the slot is sound, the first-render skip has happened
        exactly once, and the live timer closed over the current values. */
    ghost predicate Valid()
      reads this
    {
      && SlotOk(pending, timeoutRef, hasCleanup, nextTimer)
      && !initialLoad && skips == 1
      && forall id :: id in pending ==> pending[id] == Snapshot(query, kind, sort)
    }

    /** Mounting: the first render and its effect, which is skipped. */
    constructor ()
      ensures Valid()
      ensures animeList == [] && !loading && query == "" && kind == "all" && sort == "score" && error == None
      ensures pending == map[]
    {
      animeList := [];
      loading := false;
      query := "";
      kind := "all";
      sort := "score";
      error := None;
      initialLoad := true;
      timeoutRef := None;
      pending := map[];
      nextTimer := 1;
      hasCleanup := false;
      skips := 0;
      new;
      Commit();
    }

    /** The cleanup of the last effect run: clear the timer the ref holds. */
    method Cleanup()
      modifies this
      requires SlotOk(pending, timeoutRef, hasCleanup, nextTimer)
      ensures pending == map[] && !hasCleanup
      ensures SlotOk(pending, timeoutRef, hasCleanup, nextTimer)
      ensures timeoutRef == old(timeoutRef) && nextTimer == old(nextTimer) && initialLoad == old(initialLoad)
      ensures skips == old(skips)
      ensures animeList == old(animeList) && loading == old(loading) && error == old(error)
      ensures query == old(query) && kind == old(kind) && sort == old(sort)
    {
      if timeoutRef.Some? {
        pending := pending - {timeoutRef.value};
      }
      AtMostOnePending(old(pending), timeoutRef, hasCleanup, nextTimer);
      hasCleanup := false;
    }

    /** A commit whose dependencies changed: the previous cleanup, then the
        effect. */
    method Commit()
      modifies this
      requires SlotOk(pending, timeoutRef, hasCleanup, nextTimer)
      ensures SlotOk(pending, timeoutRef, hasCleanup, nextTimer)
      ensures query == old(query) && kind == old(kind) && sort == old(sort) && animeList == old(animeList)
      ensures old(initialLoad) && query == "" ==>
        !initialLoad && skips == old(skips) + 1 && pending == map[] && loading == old(loading) && error == old(error)
      ensures !(old(initialLoad) && query == "") ==>
        && initialLoad == old(initialLoad) && skips == old(skips)
        && loading && error == None
        && pending == map[old(nextTimer) := Snapshot(query, kind, sort)]
        && timeoutRef == Some(old(nextTimer)) && nextTimer == old(nextTimer) + 1
    {
      if hasCleanup {
        Cleanup();
      }
      if initialLoad && query == "" {
        initialLoad := false;
        skips := skips + 1;
        return;
      }
      Schedule();
    }

    /** The effect past its first-render guard: clear the live timer, show
        the spinner, and set a new timer over the current values. */
    method Schedule()
      modifies this
      requires pending == map[] && 0 < nextTimer
      ensures SlotOk(pending, timeoutRef, hasCleanup, nextTimer)
      ensures query == old(query) && kind == old(kind) && sort == old(sort) && animeList == old(animeList)
      ensures initialLoad == old(initialLoad) && skips == old(skips)
      ensures loading && error == None
      ensures pending == map[old(nextTimer) := Snapshot(query, kind, sort)]
      ensures timeoutRef == Some(old(nextTimer)) && nextTimer == old(nextTimer) + 1
    {
      if timeoutRef.Some? {
        pending := pending - {timeoutRef.value};
      }
      loading := true;
      error := None;
      var id := nextTimer;
      nextTimer := nextTimer + 1;
      pending := pending[id := Snapshot(query, kind, sort)];
      timeoutRef := Some(id);
      hasCleanup := true;
    }

    /** Typing in the search box; React re-renders only on a new value. */
    method SetQuery(value: string)
      modifies this
      requires Valid()
      ensures Valid() && query == value && kind == old(kind) && sort == old(sort)
      ensures animeList == old(animeList)
      ensures value == old(query) ==> unchanged(this)
      ensures value != old(query) ==>
        && pending == map[old(nextTimer) := Snapshot(value, kind, sort)] && timeoutRef == Some(old(nextTimer))
        && loading && error == None
    {
      if value != query {
        query := value;
        Commit();
      }
    }

    method SetType(value: string)
      modifies this
      requires Valid()
      ensures Valid() && kind == value && query == old(query) && sort == old(sort)
      ensures animeList == old(animeList)
      ensures value == old(kind) ==> unchanged(this)
      ensures value != old(kind) ==>
        && pending == map[old(nextTimer) := Snapshot(query, value, sort)] && timeoutRef == Some(old(nextTimer))
        && loading && error == None
    {
      if value != kind {
        kind := value;
        Commit();
      }
    }

    method SetSort(value: string)
      modifies this
      requires Valid()
      ensures Valid() && sort == value && query == old(query) && kind == old(kind)
      ensures animeList == old(animeList)
      ensures value == old(sort) ==> unchanged(this)
      ensures value != old(sort) ==>
        && pending == map[old(nextTimer) := Snapshot(query, kind, value)] && timeoutRef == Some(old(nextTimer))
        && loading && error == None
    {
      if value != sort {
        sort := value;
        Commit();
      }
    }

    /** The live timer `id` fires and its callback runs to the end; `reply`
        is the answer to its request. The request made, if any, is returned. */
    method Fire(id: nat, enc: string -> string, reply: Response<seq<Anime>>) returns (request: Option<string>)
      modifies this
      requires Valid() && id in pending
      ensures Valid() && pending == map[]
      ensures query == old(query) && kind == old(kind) && sort == old(sort) && !loading
      ensures TooShort(query) ==> request == None && animeList == [] && error == Some(TooShortMessage)
      ensures !TooShort(query) ==>
        && request == Some(HomeUrl(enc, Trim(query), kind, sort))
        && (animeList, error) == AfterReply(old(animeList), old(error), Trim(query), kind, sort, reply)
    {
      var closure := pending[id];
      AtMostOnePending(pending, timeoutRef, hasCleanup, nextTimer);
      assert pending.Keys == {id};
      pending := pending - {id};
      assert pending == map[];
      request := Callback(closure, enc, reply);
    }

    /** The body of a timer callback over the values it closed over. */
    method Callback(closure: Snapshot, enc: string -> string, reply: Response<seq<Anime>>) returns (request: Option<string>)
      modifies this
      ensures pending == old(pending) && timeoutRef == old(timeoutRef) && nextTimer == old(nextTimer)
      ensures hasCleanup == old(hasCleanup) && initialLoad == old(initialLoad) && skips == old(skips)
      ensures query == old(query) && kind == old(kind) && sort == old(sort) && !loading
      ensures TooShort(closure.query) ==> request == None && animeList == [] && error == Some(TooShortMessage)
      ensures !TooShort(closure.query) ==>
        && request == Some(HomeUrl(enc, Trim(closure.query), closure.kind, closure.sort))
        && (animeList, error) == AfterReply(old(animeList), old(error), Trim(closure.query), closure.kind, closure.sort, reply)
    {
      var actualQuery := Trim(closure.query);
      if TooShort(closure.query) {
        Reject();
        request := None;
      } else {
        var apiUrl := Request(actualQuery, closure, enc, reply);
        request := Some(apiUrl);
      }
    }

    /** A query of one or two UTF-16 code units: no request, an empty list and a
        hint. */
    method Reject()
      modifies this
      ensures pending == old(pending) && timeoutRef == old(timeoutRef) && nextTimer == old(nextTimer)
      ensures hasCleanup == old(hasCleanup) && initialLoad == old(initialLoad) && skips == old(skips)
      ensures query == old(query) && kind == old(kind) && sort == old(sort) && !loading
      ensures animeList == [] && error == Some(TooShortMessage)
    {
      animeList := [];
      loading := false;
      error := Some(TooShortMessage);
    }

    /** The request for the trimmed query `actual` and its settling. */
    method Request(actual: string, closure: Snapshot, enc: string -> string, reply: Response<seq<Anime>>)
      returns (apiUrl: string)
      modifies this
      ensures pending == old(pending) && timeoutRef == old(timeoutRef) && nextTimer == old(nextTimer)
      ensures hasCleanup == old(hasCleanup) && initialLoad == old(initialLoad) && skips == old(skips)
      ensures query == old(query) && kind == old(kind) && sort == old(sort) && !loading
      ensures apiUrl == HomeUrl(enc, actual, closure.kind, closure.sort)
      ensures (animeList, error) == AfterReply(old(animeList), old(error), actual, closure.kind, closure.sort, reply)
    {
      apiUrl := ChooseUrl(enc, actual, closure.kind, closure.sort);
      Settle(actual, closure, reply);
    }

    /** The `try`/`catch`/`finally` around the answer to the request for the
        trimmed query `actual`. */
    method Settle(actual: string, closure: Snapshot, reply: Response<seq<Anime>>)
      modifies this
      ensures pending == old(pending) && timeoutRef == old(timeoutRef) && nextTimer == old(nextTimer)
      ensures hasCleanup == old(hasCleanup) && initialLoad == old(initialLoad) && skips == old(skips)
      ensures query == old(query) && kind == old(kind) && sort == old(sort) && !loading
      ensures (animeList, error) == AfterReply(old(animeList), old(error), actual, closure.kind, closure.sort, reply)
    {
      if !reply.ok {
        error := Some(HomeFailure(reply, actual));
      } else {
        Show(actual, closure, reply.data);
      }
      loading := false;
    }

    /** A good response: show the processed list, or the error thrown while
        processing it. */
    method Show(actual: string, closure: Snapshot, data: Option<seq<Anime>>)
      modifies this
      ensures pending == old(pending) && timeoutRef == old(timeoutRef) && nextTimer == old(nextTimer)
      ensures hasCleanup == old(hasCleanup) && initialLoad == old(initialLoad) && skips == old(skips)
      ensures query == old(query) && kind == old(kind) && sort == old(sort) && loading == old(loading)
      ensures actual != "" ==> animeList == data.GetOr([]) && error == old(error)
      ensures actual == "" && data.Some? ==> animeList == TopList(data.value, closure.kind, closure.sort) && error == old(error)
      ensures actual == "" && data.None? ==>
        animeList == old(animeList) && error == Some(MissingDataMessage(if closure.kind != "all" then "filter" else "sort"))
    {
      var outcome := ProcessResults(actual, closure.kind, closure.sort, data);
      match outcome
      case Listed(list) => animeList := list;
      case Thrown(message) => error := Some(message);
    }

    /** Unmounting runs the last cleanup: no timer is left live. */
    method Unmount()
      modifies this
      requires Valid()
      ensures Valid() && pending == map[]
      ensures animeList == old(animeList) && error == old(error) && loading == old(loading)
    {
      if hasCleanup {
        Cleanup();
      }
    }
  }
}
