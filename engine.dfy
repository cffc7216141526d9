/**
 * The recommendation engine (`scripts/reco/engine.mjs`): it validates the
 * preferences into a search query, searches by actor or by title, caches the
 * result list and the preferences for "Recommend another", and hands the list
 * to the shared tail (pick, details, alternate scan, card).
 */
module Engine {
  import opened Wrappers
  import opened Strings
  import opened Helpers
  import opened Pipeline

  const MissingInput := "Please enter a movie/actor or choose a genre."

  // ---------------------------------------------------------------------------
  // The search query
  // ---------------------------------------------------------------------------

  /**
   * `(favoriteMovie || favoriteGenre || "").trim()`, falling back to
   * `${favoriteGenre} movie` when that is blank and a genre is given.
   */
  function SearchQuery(p: Prefs): (r: Result<string, string>)
    ensures r.Failure? ==> r.error == MissingInput
    ensures r.Success? ==> Trimmed(r.value)
  {
    var q := Trim(if p.favoriteMovie != "" then p.favoriteMovie else p.favoriteGenre);
    if q != "" then Success(q)
    else if p.favoriteGenre == "" then Failure(MissingInput)
    else Success(Trim(p.favoriteGenre + " movie"))
  }

  /** An accepted query is never empty: the genre fallback ends in "movie". */
  lemma QueryNeverEmpty(p: Prefs)
    ensures SearchQuery(p).Success? ==> SearchQuery(p).value != ""
  {
    var s := p.favoriteGenre + " movie";
    TrimEmptyIffAllSpace(s);
    assert !IsSpace(s[|s| - 1]);
  }

  /** The preferences are refused exactly when the movie is blank and no genre is given at all. */
  lemma QueryRejectedIff(p: Prefs)
    ensures SearchQuery(p).Failure? <==> AllSpace(p.favoriteMovie) && p.favoriteGenre == ""
  {
    TrimEmptyIffAllSpace(p.favoriteMovie);
    TrimEmptyIffAllSpace(p.favoriteGenre);
  }

  /**
   * A movie with some non-blank text is the query, trimmed; a movie that is
   * blank but not empty sends the genre with " movie" appended, while an
   * empty movie sends the genre alone unless it is blank, and a blank genre
   * then leaves just "movie".
   */
  lemma QuerySources(p: Prefs)
    ensures !AllSpace(p.favoriteMovie) ==> SearchQuery(p) == Success(Trim(p.favoriteMovie))
    ensures p.favoriteMovie != "" && AllSpace(p.favoriteMovie) && p.favoriteGenre != "" ==>
      SearchQuery(p) == Success(Trim(p.favoriteGenre + " movie"))
    ensures p.favoriteMovie == "" && !AllSpace(p.favoriteGenre) ==> SearchQuery(p) == Success(Trim(p.favoriteGenre))
    ensures p.favoriteMovie == "" && p.favoriteGenre != "" && AllSpace(p.favoriteGenre) ==> SearchQuery(p) == Success("movie")
  {
    TrimEmptyIffAllSpace(p.favoriteMovie);
    TrimEmptyIffAllSpace(p.favoriteGenre);
    if p.favoriteMovie == "" && p.favoriteGenre != "" && AllSpace(p.favoriteGenre) {
      var g := p.favoriteGenre;
      assert g + " movie" == (g + " ") + "movie";
      AllSpaceConcat(g, " ");
      TrimDropsLeadingSpace(g + " ", "movie");
      TrimOfTrimmed("movie");
    }
  }

  // ---------------------------------------------------------------------------
  // The search
  // ---------------------------------------------------------------------------

  /** `people?.results?.[0]?.id`, kept only when truthy (present and not 0). */
  function PersonId(people: People): (r: Option<int>)
    ensures r.Some? ==> r.value != 0
  {
    match people.results
    case None => None
    case Some(found) =>
      if found == [] || found[0].id.None? || found[0].id.value == 0 then None else found[0].id
  }

  /** The outcome of the search and the requests it sent. */
  datatype Search = Search(data: Fetch<SearchData>, events: seq<Event>)

  /** A non-blank actor is looked up first; a person found means discovery by cast, otherwise a title search. */
  function SearchFor(p: Prefs, query: string, ans: Answers): Search {
    var actor := Trim(p.favoriteActor);
    if actor != "" then
      var lookup := [Sent(PersonSearch(actor))];
      match ans.searchPerson(actor)
      case Failure(e) => Search(Failure(e), lookup)
      case Success(people) =>
        match PersonId(people)
        case Some(id) => Search(ans.discoverByCast(id), lookup + [Sent(CastDiscovery(id))])
        case None => Search(ans.searchMovies(query), lookup + [Sent(MovieSearch(query))])
    else
      Search(ans.searchMovies(query), [Sent(MovieSearch(query))])
  }

  /** The whole of `recommendFromTMDB`: what it returns or throws, and every request and card, in order. */
  function Recommendation(p: Prefs, ans: Answers): Run {
    match SearchQuery(p)
    case Failure(e) => Run(Failure(e), [])
    case Success(query) =>
      var s := SearchFor(p, query, ans);
      match s.data
      case Failure(e) => Run(Failure(e), s.events)
      case Success(d) =>
        var tail := Finish(p, ResultsOf(d), ans);
        Run(tail.outcome, s.events + tail.events)
  }

  /** The result list the call caches, or `None` when it throws before the cache is written. */
  function CacheAfter(p: Prefs, ans: Answers): Option<seq<Movie>> {
    match SearchQuery(p)
    case Failure(_) => None
    case Success(query) =>
      match SearchFor(p, query, ans).data
      case Failure(_) => None
      case Success(d) => Some(ResultsOf(d))
  }

  /** A refused query or a failed search ends the run with that error, after the search requests only. */
  lemma BeforeTail(p: Prefs, ans: Answers)
    ensures SearchQuery(p).Failure? ==>
      Recommendation(p, ans) == Run(Failure(SearchQuery(p).error), []) && CacheAfter(p, ans).None?
    ensures SearchQuery(p).Success? && SearchFor(p, SearchQuery(p).value, ans).data.Failure? ==>
      var s := SearchFor(p, SearchQuery(p).value, ans);
      Recommendation(p, ans) == Run(Failure(s.data.error), s.events) && CacheAfter(p, ans).None?
  {
  }

  /** Once the query is valid and the search succeeded, the run is the search followed by the tail. */
  lemma AfterSearch(p: Prefs, ans: Answers, query: string, d: SearchData)
    requires SearchQuery(p) == Success(query) && SearchFor(p, query, ans).data == Success(d)
    ensures var tail := Finish(p, ResultsOf(d), ans);
      Recommendation(p, ans) == Run(tail.outcome, SearchFor(p, query, ans).events + tail.events)
    ensures CacheAfter(p, ans) == Some(ResultsOf(d))
  {
  }

  lemma AppendAssoc(a: seq<Event>, b: seq<Event>, c: seq<Event>)
    ensures (a + b) + c == a + (b + c)
  {
  }

  // ---------------------------------------------------------------------------
  // "Recommend another"
  // ---------------------------------------------------------------------------

  /** `Math.floor(u * n)` for `u = Math.random()` in [0, 1). */
  function RandomIndex(u: real, n: nat): (i: nat)
    requires 0.0 <= u < 1.0 && n > 0
    ensures i < n
  {
    assert 0.0 <= u * n as real < n as real by {
      assert (1.0 - u) * n as real > 0.0;
    }
    (u * n as real).Floor
  }

  /** `recommendAnotherFromCache`: a random cached movie, its details and its card; `null` without a cache. */
  function Another(results: seq<Movie>, prefs: Option<Prefs>, u: real, ans: Answers): Run
    requires 0.0 <= u < 1.0
  {
    if results == [] || prefs.None? then Run(Success(None), [])
    else
      var m := results[RandomIndex(u, |results|)];
      match DetailsOf(ans, m)
      case Failure(e) => Run(Failure(e), DetailRequests(m))
      case Success(_) => Run(Success(Some(m)), DetailRequests(m) + [Rendered(CardOf(ans, m))])
  }

  // ---------------------------------------------------------------------------
  // The engine and its cache
  // ---------------------------------------------------------------------------

  /** The module state of `engine.mjs`: the last result list and the preferences it was found for. */
  class Engine {
    var lastResults: seq<Movie>
    var lastPrefs: Option<Prefs>

    constructor()
      ensures lastResults == [] && lastPrefs == None
    {
      lastResults := [];
      lastPrefs := None;
    }

    /** `getLastCache()`. */
    method GetLastCache() returns (results: seq<Movie>, prefs: Option<Prefs>)
      ensures results == lastResults && prefs == lastPrefs
    {
      results, prefs := lastResults, lastPrefs;
    }

    /** The search step of `recommendFromTMDB`. */
    method SearchStep(browser: Browser, p: Prefs, query: string) returns (r: Fetch<SearchData>)
      modifies browser
      ensures r == SearchFor(p, query, browser.answers).data
      ensures browser.events == old(browser.events) + SearchFor(p, query, browser.answers).events
    {
      var actor := Trim(p.favoriteActor);
      if p.favoriteActor != "" && actor != "" {
        var people := browser.SearchPerson(actor);
        if people.Failure? {
          return Failure(people.error);
        }
        var personId := PersonId(people.value);
        if personId.Some? {
          r := browser.DiscoverByCast(personId.value);
        } else {
          r := browser.SearchMovies(query);
        }
      } else {
        r := browser.SearchMovies(query);
      }
    }

    /** `recommendFromTMDB(prefs)`. */
    method RecommendFromTMDB(browser: Browser, p: Prefs) returns (r: Fetch<Option<Movie>>)
      modifies this, browser
      ensures r == Recommendation(p, browser.answers).outcome
      ensures browser.events == old(browser.events) + Recommendation(p, browser.answers).events
      ensures CacheAfter(p, browser.answers).Some? ==>
        lastResults == CacheAfter(p, browser.answers).value && lastPrefs == Some(p)
      ensures CacheAfter(p, browser.answers).None? ==>
        lastResults == old(lastResults) && lastPrefs == old(lastPrefs)
    {
      BeforeTail(p, browser.answers);
      var query := SearchQuery(p);
      if query.Failure? {
        return Failure(query.error);
      }
      ghost var before := browser.events;
      var searchData := SearchStep(browser, p, query.value);
      if searchData.Failure? {
        return Failure(searchData.error);
      }
      lastResults := ResultsOf(searchData.value);
      lastPrefs := Some(p);
      r := FinishRecommendation(browser, p, lastResults);
      AfterSearch(p, browser.answers, query.value, searchData.value);
      AppendAssoc(before, SearchFor(p, query.value, browser.answers).events, Finish(p, lastResults, browser.answers).events);
    }

    /** `recommendAnotherFromCache()`, with `Math.random()` given as `u`. */
    method RecommendAnotherFromCache(browser: Browser, u: real) returns (r: Fetch<Option<Movie>>)
      requires 0.0 <= u < 1.0
      modifies browser
      ensures r == Another(lastResults, lastPrefs, u, browser.answers).outcome
      ensures browser.events == old(browser.events) + Another(lastResults, lastPrefs, u, browser.answers).events
    {
      if |lastResults| == 0 || lastPrefs.None? {
        return Success(None);
      }
      var random := lastResults[RandomIndex(u, |lastResults|)];
      var details := browser.GetDetails(random);
      if details.Failure? {
        return Failure(details.error);
      }
      var (credits, payload) := details.value;
      browser.Render(Card(random, LeadFromCredits(credits), ProvidersForCA(payload)));
      return Success(Some(random));
    }
  }

  // ---------------------------------------------------------------------------
  // Properties
  // ---------------------------------------------------------------------------

  /** Refused preferences throw before any request is sent, and the cache is left alone. */
  lemma RejectedBeforeAnyRequest(p: Prefs, ans: Answers)
    requires AllSpace(p.favoriteMovie) && p.favoriteGenre == ""
    ensures Recommendation(p, ans) == Run(Failure(MissingInput), [])
    ensures CacheAfter(p, ans).None?
  {
    QueryRejectedIff(p);
  }

  /** An actor alone is not enough: with no movie and no genre the call throws whatever the actor is. */
  lemma ActorAloneRejected(p: Prefs, ans: Answers)
    requires p.favoriteMovie == "" && p.favoriteGenre == ""
    ensures Recommendation(p, ans) == Run(Failure(MissingInput), [])
  {
    RejectedBeforeAnyRequest(p, ans);
  }

  /**
   * Discovery by cast happens exactly when the actor is not blank and the
   * person search finds a person with a truthy id; otherwise the query is
   * searched by title. Exactly one of the two is sent unless the person
   * search throws.
   */
  lemma SearchRoute(p: Prefs, query: string, ans: Answers, id: int)
    ensures var actor := Trim(p.favoriteActor);
      Sent(CastDiscovery(id)) in SearchFor(p, query, ans).events <==>
        actor != "" && ans.searchPerson(actor).Success? && PersonId(ans.searchPerson(actor).value) == Some(id)
    ensures var actor := Trim(p.favoriteActor);
      Sent(MovieSearch(query)) in SearchFor(p, query, ans).events <==>
        actor == "" || (ans.searchPerson(actor).Success? && PersonId(ans.searchPerson(actor).value).None?)
    ensures var actor := Trim(p.favoriteActor);
      (actor != "" <==> |SearchFor(p, query, ans).events| > 0 && SearchFor(p, query, ans).events[0] == Sent(PersonSearch(actor)))
  {
  }

  /** A successful search caches its list; the call returns `null` exactly when that list is empty. */
  lemma NullIffEmptyCache(p: Prefs, ans: Answers)
    ensures Recommendation(p, ans).outcome == Success(None) <==> CacheAfter(p, ans) == Some([])
  {
    match SearchQuery(p)
    case Failure(_) =>
    case Success(query) =>
      match SearchFor(p, query, ans).data
      case Failure(_) =>
      case Success(d) => FinishNullIffEmpty(p, ResultsOf(d), ans);
  }

  /** A recommendation sends at most two search requests and eleven more events. */
  lemma RecommendationBounded(p: Prefs, ans: Answers)
    ensures |Recommendation(p, ans).events| <= 13
  {
    BeforeTail(p, ans);
    if SearchQuery(p).Success? {
      var query := SearchQuery(p).value;
      SearchSendsAtMostTwo(p, query, ans);
      if SearchFor(p, query, ans).data.Success? {
        var d := SearchFor(p, query, ans).data.value;
        AfterSearch(p, ans, query, d);
        FinishBounded(p, ResultsOf(d), ans);
      }
    }
  }

  /** The search phase sends the person search and at most one more request. */
  lemma SearchSendsAtMostTwo(p: Prefs, query: string, ans: Answers)
    ensures |SearchFor(p, query, ans).events| <= 2
  {
    var actor := Trim(p.favoriteActor);
    if actor != "" {
      match ans.searchPerson(actor)
      case Failure(_) =>
      case Success(people) =>
        match PersonId(people)
        case Some(id) =>
        case None =>
    }
  }

  /** Every cached position is the one picked for some value of `Math.random()`. */
  lemma EveryIndexReachable(n: nat, i: nat)
    requires i < n
    ensures 0.0 <= i as real / n as real < 1.0
    ensures RandomIndex(i as real / n as real, n) == i
  {
    assert (i as real / n as real) * n as real == i as real;
  }

  /**
   * "Recommend another" returns a cached movie, or `null` exactly when the
   * cache is empty or has no preferences; it sends no search, and the cached
   * preferences (streaming service included) play no part in the pick.
   */
  lemma AnotherFromCache(results: seq<Movie>, prefs: Option<Prefs>, u: real, ans: Answers, other: Prefs)
    requires 0.0 <= u < 1.0
    ensures Another(results, prefs, u, ans).outcome == Success(None) <==> results == [] || prefs.None?
    ensures Another(results, prefs, u, ans).outcome.Success? && Another(results, prefs, u, ans).outcome.value.Some? ==>
      Another(results, prefs, u, ans).outcome.value.value in results
    ensures |Another(results, prefs, u, ans).events| <= 3
    ensures prefs.Some? ==> Another(results, prefs, u, ans) == Another(results, Some(other), u, ans)
  {
  }
}
