/**
 * The older page script (`scripts/main.js`). It carries its own copies of the
 * helpers, which are the ones in `Helpers` line for line, and its own
 * `recommendFromTMDB`: the movie, genre and actor are joined into one title
 * query, so an actor alone is a valid request here, and the search is never
 * by cast. The tail after the search is the shared one in `Pipeline`.
 */
module Legacy {
  import opened Wrappers
  import opened Strings
  import opened Helpers
  import opened Pipeline
  import opened Engine
  import Page

  const MissingPreference := "Please enter at least one preference (movie, genre, or actor)."

  // ---------------------------------------------------------------------------
  // The joined query
  // ---------------------------------------------------------------------------

  /** `parts.filter(Boolean)` on strings: the non-empty ones, in order. */
  function NonEmpty(parts: seq<string>): (r: seq<string>)
    ensures |r| <= |parts|
    ensures forall i :: 0 <= i < |r| ==> r[i] != ""
    ensures forall s :: s != "" ==> multiset(r)[s] == multiset(parts)[s]
  {
    if parts == [] then []
    else if parts[0] == "" then
      assert parts == [parts[0]] + parts[1..];
      NonEmpty(parts[1..])
    else
      assert parts == [parts[0]] + parts[1..];
      [parts[0]] + NonEmpty(parts[1..])
  }

  /** `parts.join(" ")`. */
  function JoinSpace(parts: seq<string>): string {
    if parts == [] then ""
    else if |parts| == 1 then parts[0]
    else parts[0] + " " + JoinSpace(parts[1..])
  }

  /** `[favoriteMovie, favoriteGenre, favoriteActor].filter(Boolean).join(" ").trim()`. */
  function LegacyQuery(p: Prefs): string {
    Trim(JoinSpace(NonEmpty([p.favoriteMovie, p.favoriteGenre, p.favoriteActor])))
  }

  predicate AllParts(parts: seq<string>) {
    forall i :: 0 <= i < |parts| ==> AllSpace(parts[i])
  }

  /** Joining with spaces gives white space only exactly when every part is white space only. */
  lemma {:induction false} JoinAllSpace(parts: seq<string>)
    ensures AllSpace(JoinSpace(parts)) <==> AllParts(parts)
  {
    if |parts| > 1 {
      JoinAllSpace(parts[1..]);
      AllSpaceConcat(parts[0] + " ", JoinSpace(parts[1..]));
      AllSpaceConcat(parts[0], " ");
      assert forall i :: 1 <= i < |parts| ==> parts[i] == parts[1..][i - 1];
    }
  }

  /** Dropping empty strings does not change whether every part is white space. */
  lemma {:induction false} NonEmptyAllSpace(parts: seq<string>)
    ensures AllParts(NonEmpty(parts)) <==> AllParts(parts)
  {
    if parts != [] {
      NonEmptyAllSpace(parts[1..]);
      AllPartsCons(parts);
      if parts[0] != "" {
        AllPartsCons(NonEmpty(parts));
      }
    }
  }

  lemma AllPartsCons(parts: seq<string>)
    requires parts != []
    ensures AllParts(parts) <==> AllSpace(parts[0]) && AllParts(parts[1..])
  {
    if AllSpace(parts[0]) && AllParts(parts[1..]) {
      forall i | 1 <= i < |parts| ensures AllSpace(parts[i]) {
        assert parts[i] == parts[1..][i - 1];
      }
    }
  }

  /** The query is empty, and the call refused, exactly when the movie, genre and actor are all blank. */
  lemma LegacyQueryBlankIff(p: Prefs)
    ensures LegacyQuery(p) == "" <==>
      AllSpace(p.favoriteMovie) && AllSpace(p.favoriteGenre) && AllSpace(p.favoriteActor)
  {
    var parts := [p.favoriteMovie, p.favoriteGenre, p.favoriteActor];
    TrimEmptyIffAllSpace(JoinSpace(NonEmpty(parts)));
    JoinAllSpace(NonEmpty(parts));
    NonEmptyAllSpace(parts);
    assert AllParts(parts) <==> AllSpace(parts[0]) && AllSpace(parts[1]) && AllSpace(parts[2]);
  }

  /** With only an actor given, the actor's name is the title query. */
  lemma ActorAloneIsQuery(p: Prefs)
    requires p.favoriteMovie == "" && p.favoriteGenre == ""
    ensures LegacyQuery(p) == Trim(p.favoriteActor)
  {
    var parts := [p.favoriteMovie, p.favoriteGenre, p.favoriteActor];
    assert parts[1..] == [p.favoriteGenre, p.favoriteActor];
    assert parts[1..][1..] == [p.favoriteActor];
    assert NonEmpty(parts) == NonEmpty([p.favoriteActor]);
    if p.favoriteActor == "" {
      assert NonEmpty([p.favoriteActor]) == [];
    } else {
      assert NonEmpty([p.favoriteActor]) == [p.favoriteActor];
    }
  }

  // ---------------------------------------------------------------------------
  // recommendFromTMDB, the form and "Recommend another"
  // ---------------------------------------------------------------------------

  /** The older `recommendFromTMDB`: one title search, then the shared tail. */
  function LegacyRun(p: Prefs, ans: Answers): Run {
    var q := LegacyQuery(p);
    if q == "" then Run(Failure(MissingPreference), [])
    else
      var search := [Sent(MovieSearch(q))];
      match ans.searchMovies(q)
      case Failure(e) => Run(Failure(e), search)
      case Success(d) =>
        var tail := Finish(p, ResultsOf(d), ans);
        Run(tail.outcome, search + tail.events)
  }

  /** The result list the older call caches, or `None` when it throws before the cache is written. */
  function LegacyCache(p: Prefs, ans: Answers): Option<seq<Movie>> {
    var q := LegacyQuery(p);
    if q == "" || ans.searchMovies(q).Failure? then None else Some(ResultsOf(ans.searchMovies(q).value))
  }

  /** The preferences the older form collects: four fields, untrimmed; the others are absent. */
  function FormPrefs(elements: map<string, string>): Prefs {
    Prefs(
      FieldValue(elements, "favorite-movie"), FieldValue(elements, "favorite-genre"),
      FieldValue(elements, "favorite-actor"), FieldValue(elements, "streaming-service"),
      "", "", "", "", "")
  }

  /** The click handler: nothing at all without a cache; otherwise "Finding another...", the details, and the card or an error notice. */
  function LegacyAnother(results: seq<Movie>, prefs: Option<Prefs>, u: real, ans: Answers): seq<Event>
    requires 0.0 <= u < 1.0
  {
    if results == [] || prefs.None? then []
    else
      var m := results[RandomIndex(u, |results|)];
      var head := [Shown(FindingAnother)] + DetailRequests(m);
      if DetailsOf(ans, m).Failure? then head + [Shown(CouldNotLoadAnother)]
      else head + [Rendered(CardOf(ans, m))]
  }

  /** The older page: its inputs and the module-level cache of `main.js`. */
  class LegacyPage {
    /** The form's inputs by id; the older script only reads them. */
    const elements: map<string, string>
    var lastResults: seq<Movie>
    var lastPrefs: Option<Prefs>

    constructor(elements: map<string, string>)
      ensures this.elements == elements && lastResults == [] && lastPrefs == None
    {
      this.elements := elements;
      lastResults := [];
      lastPrefs := None;
    }

    /** `recommendFromTMDB(prefs)` of `main.js`. */
    method Recommend(browser: Browser, p: Prefs) returns (r: Fetch<Option<Movie>>)
      modifies this, browser
      ensures r == LegacyRun(p, browser.answers).outcome
      ensures browser.events == old(browser.events) + LegacyRun(p, browser.answers).events
      ensures LegacyCache(p, browser.answers).Some? ==>
        lastResults == LegacyCache(p, browser.answers).value && lastPrefs == Some(p)
      ensures LegacyCache(p, browser.answers).None? ==>
        lastResults == old(lastResults) && lastPrefs == old(lastPrefs)
    {
      var query := LegacyQuery(p);
      if query == "" {
        LegacyBlank(p, browser.answers);
        return Failure(MissingPreference);
      }
      var searchData := browser.SearchMovies(query);
      if searchData.Failure? {
        LegacySearchFailed(p, browser.answers);
        return Failure(searchData.error);
      }
      ghost var before := old(browser.events);
      r := CacheAndFinish(browser, p, searchData.value);
      LegacyAfterSearch(p, browser.answers, searchData.value);
      AppendAssoc(before, [Sent(MovieSearch(query))], Finish(p, ResultsOf(searchData.value), browser.answers).events);
    }

    /** The rest of `recommendFromTMDB` once the title search has answered `d`: the cache, then the shared tail. */
    method CacheAndFinish(browser: Browser, p: Prefs, d: SearchData) returns (r: Fetch<Option<Movie>>)
      modifies this, browser
      ensures r == Finish(p, ResultsOf(d), browser.answers).outcome
      ensures browser.events == old(browser.events) + Finish(p, ResultsOf(d), browser.answers).events
      ensures lastResults == ResultsOf(d) && lastPrefs == Some(p)
    {
      lastResults := ResultsOf(d);
      lastPrefs := Some(p);
      r := FinishRecommendation(browser, p, lastResults);
    }

    /** The form's submit handler: "Finding a recommendation...", the call, then the notice. */
    method Submit(browser: Browser)
      modifies this, browser
      ensures var run := LegacyRun(FormPrefs(elements), browser.answers);
        browser.events == old(browser.events) + [Shown(Finding)] + run.events + SubmitNotice(run.outcome)
      ensures LegacyCache(FormPrefs(elements), browser.answers).Some? ==>
        lastResults == LegacyCache(FormPrefs(elements), browser.answers).value && lastPrefs == Some(FormPrefs(elements))
      ensures LegacyCache(FormPrefs(elements), browser.answers).None? ==>
        lastResults == old(lastResults) && lastPrefs == old(lastPrefs)
    {
      var p := FormPrefs(elements);
      browser.Show(Finding);
      var r := Recommend(browser, p);
      ShowOutcome(browser, r);
    }

    /** The "Recommend another" click handler of `main.js`, with `Math.random()` given as `u`. */
    method RecommendAnother(browser: Browser, u: real)
      requires 0.0 <= u < 1.0
      modifies browser
      ensures browser.events == old(browser.events) + LegacyAnother(lastResults, lastPrefs, u, browser.answers)
    {
      if |lastResults| == 0 || lastPrefs.None? {
        return;
      }
      var random := lastResults[RandomIndex(u, |lastResults|)];
      browser.Show(FindingAnother);
      var details := browser.GetDetails(random);
      if details.Failure? {
        browser.Show(CouldNotLoadAnother);
        return;
      }
      var (credits, payload) := details.value;
      browser.Render(Card(random, LeadFromCredits(credits), ProvidersForCA(payload)));
    }
  }

  // ---------------------------------------------------------------------------
  // Properties
  // ---------------------------------------------------------------------------

  /** Blank preferences throw before any request and leave the cache alone. */
  lemma LegacyBlank(p: Prefs, ans: Answers)
    requires LegacyQuery(p) == ""
    ensures LegacyRun(p, ans) == Run(Failure(MissingPreference), [])
    ensures LegacyCache(p, ans).None?
  {
  }

  /** A failed title search ends the run with its error, after that one request. */
  lemma LegacySearchFailed(p: Prefs, ans: Answers)
    requires LegacyQuery(p) != "" && ans.searchMovies(LegacyQuery(p)).Failure?
    ensures LegacyRun(p, ans) ==
      Run(Failure(ans.searchMovies(LegacyQuery(p)).error), [Sent(MovieSearch(LegacyQuery(p)))])
    ensures LegacyCache(p, ans).None?
  {
  }

  /** Otherwise the run is the one title search followed by the shared tail on its results. */
  lemma LegacyAfterSearch(p: Prefs, ans: Answers, d: SearchData)
    requires LegacyQuery(p) != "" && ans.searchMovies(LegacyQuery(p)) == Success(d)
    ensures var tail := Finish(p, ResultsOf(d), ans);
      LegacyRun(p, ans) == Run(tail.outcome, [Sent(MovieSearch(LegacyQuery(p)))] + tail.events)
    ensures LegacyCache(p, ans) == Some(ResultsOf(d))
  {
  }

  /**
   * Where the two versions part: with only an actor given, the older script
   * searches the actor's name as a title, while the engine throws.
   */
  lemma ActorAloneDiffers(p: Prefs, ans: Answers)
    requires p.favoriteMovie == "" && p.favoriteGenre == "" && !AllSpace(p.favoriteActor)
    ensures |LegacyRun(p, ans).events| > 0
    ensures LegacyRun(p, ans).events[0] == Sent(MovieSearch(Trim(p.favoriteActor)))
    ensures Recommendation(p, ans) == Run(Failure(MissingInput), [])
  {
    ActorAloneIsQuery(p);
    TrimEmptyIffAllSpace(p.favoriteActor);
    ActorAloneRejected(p, ans);
  }

  /** The older call returns `null` exactly when its title search succeeds with an empty list. */
  lemma LegacyNullIffEmpty(p: Prefs, ans: Answers)
    ensures LegacyRun(p, ans).outcome == Success(None) <==> LegacyCache(p, ans) == Some([])
  {
    var q := LegacyQuery(p);
    if q != "" && ans.searchMovies(q).Success? {
      FinishNullIffEmpty(p, ResultsOf(ans.searchMovies(q).value), ans);
    }
  }

  /** The older click handler does nothing at all without a cache, and otherwise never searches. */
  lemma LegacyAnotherGuard(results: seq<Movie>, prefs: Option<Prefs>, u: real, ans: Answers)
    requires 0.0 <= u < 1.0
    ensures results == [] || prefs.None? <==> LegacyAnother(results, prefs, u, ans) == []
    ensures LegacyAnother(results, prefs, u, ans) != [] ==>
      var evs := LegacyAnother(results, prefs, u, ans);
      |evs| == 4 && evs[0] == Shown(FindingAnother) &&
      exists i :: 0 <= i < |results| && evs[1..3] == DetailRequests(results[i])
  {
  }

  /**
   * With a cache the two click handlers show and send the same; without one
   * the older handler does nothing at all, while the newer one says it is
   * looking and then warns that nothing is cached.
   */
  lemma LegacyClickMatchesPage(results: seq<Movie>, prefs: Option<Prefs>, u: real, ans: Answers)
    requires 0.0 <= u < 1.0
    ensures results != [] && prefs.Some? ==> LegacyAnother(results, prefs, u, ans) == Page.ClickEvents(results, prefs, u, ans)
    ensures results == [] || prefs.None? ==>
      LegacyAnother(results, prefs, u, ans) == [] &&
      Page.ClickEvents(results, prefs, u, ans) == [Shown(FindingAnother), Shown(NoCachedResults)]
  {
  }
}
