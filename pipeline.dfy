/**
 * What the recommendation pipeline does to the outside world, and the part of
 * it that both versions of `recommendFromTMDB` share: pick the best movie,
 * fetch its credits and providers, and, when the wanted streaming service is
 * missing, probe the alternates one at a time until one offers it.
 *
 * The movie database is an oracle (`Answers`): for every request it gives the
 * parsed payload or the message of the error the request throws. A `Browser`
 * records, in order, every request sent, every card rendered and every status
 * message shown.
 */
module Pipeline {
  import opened Wrappers
  import opened Helpers

  // ---------------------------------------------------------------------------
  // Requests, responses and what the page shows
  // ---------------------------------------------------------------------------

  /** The five requests the widget makes through the relay. */
  datatype Request =
    | MovieSearch(query: string)
    | PersonSearch(name: string)
    | CastDiscovery(personId: int)
    | CreditsOf(movieId: int)
    | ProvidersOf(movieId: int)

  /** A search or discovery payload; `results` is `None` when absent. */
  datatype SearchData = SearchData(results: Option<seq<Movie>>)

  datatype Person = Person(id: Option<int>)

  /** A person-search payload. */
  datatype People = People(results: Option<seq<Person>>)

  /** `searchData?.results ?? []`. */
  function ResultsOf(d: SearchData): seq<Movie> {
    d.results.GetOr([])
  }

  /** A response, or the message of the error thrown for it. */
  type Fetch<T> = Result<T, string>

  /** The movie database, as seen through the relay: one answer per request. */
  datatype Answers = Answers(
    searchMovies: string -> Fetch<SearchData>,
    searchPerson: string -> Fetch<People>,
    discoverByCast: int -> Fetch<SearchData>,
    credits: int -> Fetch<Credits>,
    providers: int -> Fetch<ProvidersPayload>)

  /** The recommendation card: the movie, its lead actor and its Canadian providers. */
  datatype Card = Card(movie: Movie, lead: string, providers: ProviderInfo)

  /** The status messages the page shows in place of a card. */
  datatype Notice =
    | Finding
    | FindingAnother
    | NoResults
    | NoCachedResults
    | Failed(message: string)
    | CouldNotLoadAnother

  /** The message shown for an error whose message is empty: `err.message || "Something went wrong."`. */
  const FallbackMessage := "Something went wrong."

  /** The notice for an error with message `e`. */
  function FailureNotice(e: string): (n: Notice)
    ensures n.Failed? && n.message != ""
    ensures e != "" ==> n.message == e
  {
    Failed(if e == "" then FallbackMessage else e)
  }

  /** `document.getElementById(id)?.value ?? ""`, with the page's inputs as a map from id to value. */
  function FieldValue(elements: map<string, string>, id: string): string {
    if id in elements then elements[id] else ""
  }

  /** One observable step: a request sent, a card rendered, a message shown. */
  datatype Event = Sent(request: Request) | Rendered(card: Card) | Shown(notice: Notice)

  /** The two detail requests issued together for one movie: credits, then providers. */
  function DetailRequests(m: Movie): seq<Event> {
    [Sent(CreditsOf(m.id)), Sent(ProvidersOf(m.id))]
  }

  /** `Promise.all([getCredits(id), getWatchProviders(id)])`: both payloads, or an error of either. */
  function DetailsOf(ans: Answers, m: Movie): (r: Fetch<(Credits, ProvidersPayload)>)
    ensures r.Success? <==> ans.credits(m.id).Success? && ans.providers(m.id).Success?
    ensures r.Success? ==> r.value == (ans.credits(m.id).value, ans.providers(m.id).value)
  {
    match ans.credits(m.id)
    case Failure(e) => Failure(e)
    case Success(c) =>
      match ans.providers(m.id)
      case Failure(e) => Failure(e)
      case Success(p) => Success((c, p))
  }

  /** The page's connection to the outside world: the relay's answers and a log of what happened. */
  class Browser {
    const answers: Answers
    var events: seq<Event>

    constructor(answers: Answers)
      ensures this.answers == answers && events == []
    {
      this.answers := answers;
      events := [];
    }

    method SearchMovies(query: string) returns (r: Fetch<SearchData>)
      modifies this
      ensures events == old(events) + [Sent(MovieSearch(query))]
      ensures r == answers.searchMovies(query)
    {
      events := events + [Sent(MovieSearch(query))];
      r := answers.searchMovies(query);
    }

    method SearchPerson(name: string) returns (r: Fetch<People>)
      modifies this
      ensures events == old(events) + [Sent(PersonSearch(name))]
      ensures r == answers.searchPerson(name)
    {
      events := events + [Sent(PersonSearch(name))];
      r := answers.searchPerson(name);
    }

    method DiscoverByCast(personId: int) returns (r: Fetch<SearchData>)
      modifies this
      ensures events == old(events) + [Sent(CastDiscovery(personId))]
      ensures r == answers.discoverByCast(personId)
    {
      events := events + [Sent(CastDiscovery(personId))];
      r := answers.discoverByCast(personId);
    }

    method GetCredits(movieId: int) returns (r: Fetch<Credits>)
      modifies this
      ensures events == old(events) + [Sent(CreditsOf(movieId))]
      ensures r == answers.credits(movieId)
    {
      events := events + [Sent(CreditsOf(movieId))];
      r := answers.credits(movieId);
    }

    method GetWatchProviders(movieId: int) returns (r: Fetch<ProvidersPayload>)
      modifies this
      ensures events == old(events) + [Sent(ProvidersOf(movieId))]
      ensures r == answers.providers(movieId)
    {
      events := events + [Sent(ProvidersOf(movieId))];
      r := answers.providers(movieId);
    }

    /** Both detail requests are sent before either answer is looked at. */
    method GetDetails(m: Movie) returns (r: Fetch<(Credits, ProvidersPayload)>)
      modifies this
      ensures events == old(events) + DetailRequests(m)
      ensures r == DetailsOf(answers, m)
    {
      events := events + DetailRequests(m);
      r := DetailsOf(answers, m);
    }

    method Render(card: Card)
      modifies this
      ensures events == old(events) + [Rendered(card)]
    {
      events := events + [Rendered(card)];
    }

    method Show(notice: Notice)
      modifies this
      ensures events == old(events) + [Shown(notice)]
    {
      events := events + [Shown(notice)];
    }
  }

  /** What the submit handler shows after the call: the error, "no results", or nothing (the card is already there). */
  function SubmitNotice(outcome: Fetch<Option<Movie>>): seq<Event> {
    match outcome
    case Failure(e) => [Shown(FailureNotice(e))]
    case Success(None) => [Shown(NoResults)]
    case Success(Some(_)) => []
  }

  /** The `try`/`catch` after the call: the error message, or "no results" when the call returned `null`. */
  method ShowOutcome(browser: Browser, r: Fetch<Option<Movie>>)
    modifies browser
    ensures browser.events == old(browser.events) + SubmitNotice(r)
  {
    if r.Failure? {
      browser.Show(FailureNotice(r.error));
    } else if r.value.None? {
      browser.Show(NoResults);
    }
  }

  // ---------------------------------------------------------------------------
  // The alternate scan
  // ---------------------------------------------------------------------------

  /** `lastResults.slice(1, 8)` covers the positions 1 up to (not including) this bound. */
  function ScanEnd(results: seq<Movie>): (n: nat)
    ensures n <= |results| && n <= 8
  {
    if |results| < 8 then |results| else 8
  }

  /** The test applied to every providers payload: does its Canadian flatrate list offer `service`? */
  function OffersService(service: string): ProvidersPayload -> bool {
    payload => Offers(ProvidersForCA(payload), service)
  }

  /** The providers answer for `m` arrived and passes the test. */
  predicate Matches(ans: Answers, accept: ProvidersPayload -> bool, m: Movie) {
    ans.providers(m.id).Success? && accept(ans.providers(m.id).value)
  }

  /** The providers answer for `m` arrived and fails the test. */
  predicate Mismatches(ans: Answers, accept: ProvidersPayload -> bool, m: Movie) {
    ans.providers(m.id).Success? && !accept(ans.providers(m.id).value)
  }

  /** The providers requests for the positions `lo` up to `hi`, in order. */
  function Probes(results: seq<Movie>, lo: nat, hi: nat): (r: seq<Event>)
    requires lo <= hi <= |results|
    ensures |r| == hi - lo
    ensures forall k :: 0 <= k < hi - lo ==> r[k] == Sent(ProvidersOf(results[lo + k].id))
  {
    seq(hi - lo, k requires 0 <= k < hi - lo => Sent(ProvidersOf(results[lo + k].id)))
  }

  /** The card of a movie whose credits and providers have both arrived. */
  function CardOf(ans: Answers, m: Movie): Card
    requires ans.credits(m.id).Success? && ans.providers(m.id).Success?
  {
    Card(m, LeadFromCredits(ans.credits(m.id).value), ProvidersForCA(ans.providers(m.id).value))
  }

  /** How a scan ends: at a matching alternate, with every alternate rejected, or on an error. */
  datatype Scan =
    | Hit(index: nat, card: Card, events: seq<Event>)
    | Miss(events: seq<Event>)
    | Broke(message: string, events: seq<Event>)

  /** The scan's events with `evs` in front. */
  function Prefixed(evs: seq<Event>, s: Scan): Scan {
    s.(events := evs + s.events)
  }

  /** Putting `b` and then `a` in front is putting `a + b` in front. */
  lemma PrefixedTwice(a: seq<Event>, b: seq<Event>, s: Scan)
    ensures Prefixed(a, Prefixed(b, s)) == Prefixed(a + b, s)
  {
    assert a + (b + s.events) == (a + b) + s.events;
  }

  /**
   * The scan from position `i` on: one providers request at a time; the first
   * alternate that passes the test has its credits fetched and becomes the card.
   */
  function ScanFrom(results: seq<Movie>, accept: ProvidersPayload -> bool, ans: Answers, i: nat): Scan
    decreases |results| - i
  {
    if i >= ScanEnd(results) then Miss([])
    else
      var alt := results[i];
      var probe := Sent(ProvidersOf(alt.id));
      if ans.providers(alt.id).Failure? then Broke(ans.providers(alt.id).error, [probe])
      else if Matches(ans, accept, alt) then
        var withCredits := [probe, Sent(CreditsOf(alt.id))];
        if ans.credits(alt.id).Failure? then Broke(ans.credits(alt.id).error, withCredits)
        else Hit(i, CardOf(ans, alt), withCredits)
      else
        Prefixed([probe], ScanFrom(results, accept, ans, i + 1))
  }

  /** One step of the scan at position `i`, by the three ways a probe can go. */
  lemma ScanStep(results: seq<Movie>, accept: ProvidersPayload -> bool, ans: Answers, i: nat)
    requires i < ScanEnd(results)
    ensures var alt := results[i];
      var probe := Sent(ProvidersOf(alt.id));
      && (ans.providers(alt.id).Failure? ==>
            ScanFrom(results, accept, ans, i) == Broke(ans.providers(alt.id).error, [probe]))
      && (Matches(ans, accept, alt) && ans.credits(alt.id).Failure? ==>
            ScanFrom(results, accept, ans, i) == Broke(ans.credits(alt.id).error, [probe, Sent(CreditsOf(alt.id))]))
      && (Matches(ans, accept, alt) && ans.credits(alt.id).Success? ==>
            ScanFrom(results, accept, ans, i) == Hit(i, CardOf(ans, alt), [probe, Sent(CreditsOf(alt.id))]))
      && (Mismatches(ans, accept, alt) ==>
            ScanFrom(results, accept, ans, i) == Prefixed([probe], ScanFrom(results, accept, ans, i + 1)))
  {
  }

  /** The probes from `i` are the probe of `i` followed by the probes from `i + 1`. */
  lemma ProbesCons(results: seq<Movie>, i: nat, hi: nat)
    requires i < hi <= |results|
    ensures Probes(results, i, hi) == [Sent(ProvidersOf(results[i].id))] + Probes(results, i + 1, hi)
  {
  }

  /**
   * A scan that finds an alternate found the first one, from position `i` on,
   * whose providers pass the test; every earlier one was probed and refused,
   * and nothing past it was requested.
   */
  lemma {:induction false} ScanHit(results: seq<Movie>, accept: ProvidersPayload -> bool, ans: Answers, i: nat)
    requires i <= ScanEnd(results)
    requires ScanFrom(results, accept, ans, i).Hit?
    ensures var s := ScanFrom(results, accept, ans, i);
      && i <= s.index < ScanEnd(results)
      && (forall j :: i <= j < s.index ==> Mismatches(ans, accept, results[j]))
      && Matches(ans, accept, results[s.index])
      && ans.credits(results[s.index].id).Success?
      && s.card == CardOf(ans, results[s.index])
      && s.events == Probes(results, i, s.index + 1) + [Sent(CreditsOf(results[s.index].id))]
    decreases ScanEnd(results) - i
  {
    var alt := results[i];
    if Mismatches(ans, accept, alt) {
      ScanHit(results, accept, ans, i + 1);
      ProbesCons(results, i, ScanFrom(results, accept, ans, i + 1).index + 1);
    } else {
      assert Probes(results, i, i + 1) == [Sent(ProvidersOf(alt.id))];
    }
  }

  /** A scan that finds nothing probed every alternate from `i` to position 7, and each refused. */
  lemma {:induction false} ScanMiss(results: seq<Movie>, accept: ProvidersPayload -> bool, ans: Answers, i: nat)
    requires i <= ScanEnd(results)
    requires ScanFrom(results, accept, ans, i).Miss?
    ensures forall j :: i <= j < ScanEnd(results) ==> Mismatches(ans, accept, results[j])
    ensures ScanFrom(results, accept, ans, i).events == Probes(results, i, ScanEnd(results))
    decreases ScanEnd(results) - i
  {
    if i < ScanEnd(results) {
      ScanMiss(results, accept, ans, i + 1);
      ProbesCons(results, i, ScanEnd(results));
    }
  }

  /**
   * The scan from `i` broke at position `k`: every alternate before it was
   * probed and refused, and `evs` is those probes, the probe of `k` and
   * possibly the credits request of `k`.
   */
  predicate BrokeAt(results: seq<Movie>, accept: ProvidersPayload -> bool, ans: Answers, i: nat, k: nat, evs: seq<Event>)
    requires i <= k < |results|
  {
    && (forall j :: i <= j < k ==> Mismatches(ans, accept, results[j]))
    && (evs == Probes(results, i, k + 1) || evs == Probes(results, i, k + 1) + [Sent(CreditsOf(results[k].id))])
  }

  /** A scan that fails sent only providers requests up to the failing position, and possibly that one's credits. */
  lemma {:induction false} ScanBroke(results: seq<Movie>, accept: ProvidersPayload -> bool, ans: Answers, i: nat)
    returns (k: nat)
    requires i <= ScanEnd(results)
    requires ScanFrom(results, accept, ans, i).Broke?
    ensures i <= k < ScanEnd(results)
    ensures BrokeAt(results, accept, ans, i, k, ScanFrom(results, accept, ans, i).events)
    decreases ScanEnd(results) - i
  {
    var alt := results[i];
    assert Probes(results, i, i + 1) == [Sent(ProvidersOf(alt.id))];
    if Mismatches(ans, accept, alt) {
      k := ScanBroke(results, accept, ans, i + 1);
      ProbesCons(results, i, k + 1);
    } else {
      k := i;
    }
  }

  /** The scan from position 1 sends at most seven providers requests and one credits request. */
  lemma ScanBounded(results: seq<Movie>, accept: ProvidersPayload -> bool, ans: Answers)
    ensures |ScanFrom(results, accept, ans, 1).events| <= 8
  {
    var s := ScanFrom(results, accept, ans, 1);
    if 1 <= ScanEnd(results) {
      match s
      case Hit(_, _, _) => ScanHit(results, accept, ans, 1);
      case Miss(_) => ScanMiss(results, accept, ans, 1);
      case Broke(_, _) => var k := ScanBroke(results, accept, ans, 1);
    }
  }

  /** Leaving the scan with `sent` already done: the outcome is the rest's, and the events are `sent` and then the rest's. */
  lemma ExitAfter(before: seq<Event>, sent: seq<Event>, rest: Scan)
    ensures ScanOutcome(Prefixed(sent, rest)) == ScanOutcome(rest)
    ensures before + Prefixed(sent, rest).events == (before + sent) + rest.events
  {
  }

  /** What the scan reports to its caller: the card found, none, or the error. */
  function ScanOutcome(s: Scan): Fetch<Option<Card>> {
    match s
    case Hit(_, card, _) => Success(Some(card))
    case Miss(_) => Success(None)
    case Broke(e, _) => Failure(e)
  }

  /**
   * The `for (const alt of lastResults.slice(1, 8))` loop: probe alternates one
   * at a time and stop at the first whose providers pass `accept`.
   */
  method ScanAlternates(browser: Browser, results: seq<Movie>, accept: ProvidersPayload -> bool)
    returns (r: Fetch<Option<Card>>)
    modifies browser
    ensures r == ScanOutcome(ScanFrom(results, accept, browser.answers, 1))
    ensures browser.events == old(browser.events) + ScanFrom(results, accept, browser.answers, 1).events
  {
    ghost var ans := browser.answers;
    ghost var sent: seq<Event> := [];
    var i := 1;
    while i < ScanEnd(results)
      invariant 1 <= i
      invariant browser.answers == ans
      invariant browser.events == old(browser.events) + sent
      invariant ScanFrom(results, accept, ans, 1) == Prefixed(sent, ScanFrom(results, accept, ans, i))
      decreases ScanEnd(results) - i
    {
      var alt := results[i];
      var altPayload := browser.GetWatchProviders(alt.id);
      ghost var probe := Sent(ProvidersOf(alt.id));
      ScanStep(results, accept, ans, i);
      if altPayload.Failure? {
        ExitAfter(old(browser.events), sent, ScanFrom(results, accept, ans, i));
        return Failure(altPayload.error);
      }
      if accept(altPayload.value) {
        var altCredits := browser.GetCredits(alt.id);
        ExitAfter(old(browser.events), sent, ScanFrom(results, accept, ans, i));
        if altCredits.Failure? {
          return Failure(altCredits.error);
        }
        return Success(Some(Card(alt, LeadFromCredits(altCredits.value), ProvidersForCA(altPayload.value))));
      }
      PrefixedTwice(sent, [probe], ScanFrom(results, accept, ans, i + 1));
      sent := sent + [probe];
      i := i + 1;
    }
    return Success(None);
  }

  // ---------------------------------------------------------------------------
  // From the result list to the recommendation
  // ---------------------------------------------------------------------------

  /** A run of the pipeline: what it returns (or throws) and what it did, in order. */
  datatype Run = Run(outcome: Fetch<Option<Movie>>, events: seq<Event>)

  /**
   * What happens once the chosen movie's details have arrived: when `scan` is
   * set, look for an alternate; render the card of the movie returned.
   */
  function Present(chosen: Card, results: seq<Movie>, ans: Answers, scan: bool, accept: ProvidersPayload -> bool): Run {
    if scan then
      match ScanFrom(results, accept, ans, 1)
      case Hit(_, altCard, evs) => Run(Success(Some(altCard.movie)), evs + [Rendered(altCard)])
      case Miss(evs) => Run(Success(Some(chosen.movie)), evs + [Rendered(chosen)])
      case Broke(e, evs) => Run(Failure(e), evs)
    else
      Run(Success(Some(chosen.movie)), [Rendered(chosen)])
  }

  /**
   * What happens once the best movie is picked: fetch its details; when a
   * service is `wanted` and the chosen movie's providers fail `accept`, scan the
   * alternates; render the card of the movie returned.
   */
  function Recommend(pick: Option<Movie>, results: seq<Movie>, ans: Answers, wanted: bool, accept: ProvidersPayload -> bool): Run {
    match pick
    case None => Run(Success(None), [])
    case Some(chosen) =>
      var details := DetailRequests(chosen);
      if DetailsOf(ans, chosen).Failure? then Run(Failure(DetailsOf(ans, chosen).error), details)
      else
        var rest := Present(CardOf(ans, chosen), results, ans, wanted && !accept(ans.providers(chosen.id).value), accept);
        Run(rest.outcome, details + rest.events)
  }

  /**
   * The shared tail of `recommendFromTMDB`, once the result list is known: pick
   * the best movie, and look for an alternate when the normalized streaming
   * service is given but missing from the chosen movie's Canadian flatrate list.
   */
  function Finish(prefs: Prefs, results: seq<Movie>, ans: Answers): Run {
    var service := Normalize(prefs.streamingService);
    Recommend(PickBestMovie(results, prefs), results, ans, service != "", OffersService(service))
  }

  /** Render the chosen card, or first scan the alternates and render the one found. */
  method PresentChoice(browser: Browser, chosen: Card, results: seq<Movie>, scan: bool, accept: ProvidersPayload -> bool)
    returns (r: Fetch<Option<Movie>>)
    modifies browser
    ensures r == Present(chosen, results, browser.answers, scan, accept).outcome
    ensures browser.events == old(browser.events) + Present(chosen, results, browser.answers, scan, accept).events
  {
    if scan {
      var found := ScanAlternates(browser, results, accept);
      if found.Failure? {
        return Failure(found.error);
      }
      if found.value.Some? {
        browser.Render(found.value.value);
        return Success(Some(found.value.value.movie));
      }
    }
    browser.Render(chosen);
    return Success(Some(chosen.movie));
  }

  /** From the picked movie on, as the source runs it: the details, then the alternates one at a time, then the card. */
  method RecommendPicked(browser: Browser, pick: Option<Movie>, results: seq<Movie>, wanted: bool, accept: ProvidersPayload -> bool)
    returns (r: Fetch<Option<Movie>>)
    modifies browser
    ensures r == Recommend(pick, results, browser.answers, wanted, accept).outcome
    ensures browser.events == old(browser.events) + Recommend(pick, results, browser.answers, wanted, accept).events
  {
    if pick.None? {
      return Success(None);
    }
    var movie := pick.value;
    var details := browser.GetDetails(movie);
    if details.Failure? {
      return Failure(details.error);
    }
    var (credits, payload) := details.value;
    var card := Card(movie, LeadFromCredits(credits), ProvidersForCA(payload));
    r := PresentChoice(browser, card, results, wanted && !accept(payload), accept);
  }

  /** The tail of `recommendFromTMDB` after the result list is cached. */
  method FinishRecommendation(browser: Browser, prefs: Prefs, results: seq<Movie>)
    returns (r: Fetch<Option<Movie>>)
    modifies browser
    ensures r == Finish(prefs, results, browser.answers).outcome
    ensures browser.events == old(browser.events) + Finish(prefs, results, browser.answers).events
  {
    var chosen := PickBestMovie(results, prefs);
    var service := Normalize(prefs.streamingService);
    r := RecommendPicked(browser, chosen, results, service != "", OffersService(service));
  }

  // ---------------------------------------------------------------------------
  // Properties of the tail
  // ---------------------------------------------------------------------------

  /** An empty result list yields `null` and no request at all. */
  lemma FinishEmpty(prefs: Prefs, ans: Answers)
    ensures Finish(prefs, [], ans) == Run(Success(None), [])
  {
  }

  /** From the pick on, the result is `null` exactly when there was nothing to pick. */
  lemma RecommendNullIffNoPick(pick: Option<Movie>, results: seq<Movie>, ans: Answers, wanted: bool, accept: ProvidersPayload -> bool)
    ensures Recommend(pick, results, ans, wanted, accept).outcome == Success(None) <==> pick.None?
  {
  }

  /** The tail returns `null` exactly when the result list is empty. */
  lemma FinishNullIffEmpty(prefs: Prefs, results: seq<Movie>, ans: Answers)
    ensures Finish(prefs, results, ans).outcome == Success(None) <==> results == []
  {
    var service := Normalize(prefs.streamingService);
    RecommendNullIffNoPick(PickBestMovie(results, prefs), results, ans, service != "", OffersService(service));
  }

  /**
   * From the pick on, the movie returned is the pick itself, or the first
   * alternate at positions 1..7 that passes the test, and then only when a
   * service is wanted and the pick failed the test.
   */
  lemma RecommendReturnsPickOrFirstMatch(pick: Option<Movie>, results: seq<Movie>, ans: Answers, wanted: bool, accept: ProvidersPayload -> bool)
    requires Recommend(pick, results, ans, wanted, accept).outcome.Success?
    requires Recommend(pick, results, ans, wanted, accept).outcome.value.Some?
    ensures pick.Some?
    ensures var m := Recommend(pick, results, ans, wanted, accept).outcome.value.value;
      || m == pick.value
      || exists k :: 1 <= k < ScanEnd(results) &&
           m == results[k] &&
           wanted && !Matches(ans, accept, pick.value) &&
           Matches(ans, accept, results[k]) &&
           forall j :: 1 <= j < k ==> Mismatches(ans, accept, results[j])
  {
    var s := ScanFrom(results, accept, ans, 1);
    if 1 <= ScanEnd(results) && s.Hit? {
      ScanHit(results, accept, ans, 1);
    }
  }

  /**
   * The returned movie is the chosen one or the first alternate (positions 1..7,
   * in list order, not score order) that offers the wanted service; an alternate
   * is returned only when the service was given and the chosen movie does not
   * offer it.
   */
  lemma FinishReturnsChosenOrFirstMatch(prefs: Prefs, results: seq<Movie>, ans: Answers)
    requires Finish(prefs, results, ans).outcome.Success? && Finish(prefs, results, ans).outcome.value.Some?
    ensures results != []
    ensures var m := Finish(prefs, results, ans).outcome.value.value;
      var chosen := results[BestIndex(results, prefs)];
      var service := Normalize(prefs.streamingService);
      || m == chosen
      || exists k :: 1 <= k < ScanEnd(results) &&
           m == results[k] &&
           service != "" && !Matches(ans, OffersService(service), chosen) &&
           Matches(ans, OffersService(service), results[k]) &&
           forall j :: 1 <= j < k ==> Mismatches(ans, OffersService(service), results[j])
  {
    var service := Normalize(prefs.streamingService);
    RecommendReturnsPickOrFirstMatch(PickBestMovie(results, prefs), results, ans, service != "", OffersService(service));
  }

  /** With no service given, or one the chosen movie offers, nothing is probed: details, then the card. */
  lemma NoScanWhenServiceMet(prefs: Prefs, results: seq<Movie>, ans: Answers)
    requires results != []
    requires DetailsOf(ans, results[BestIndex(results, prefs)]).Success?
    requires var service := Normalize(prefs.streamingService);
      service == "" || Matches(ans, OffersService(service), results[BestIndex(results, prefs)])
    ensures var chosen := results[BestIndex(results, prefs)];
      Finish(prefs, results, ans) == Run(Success(Some(chosen)), DetailRequests(chosen) + [Rendered(CardOf(ans, chosen))])
  {
  }

  /** At most 2 + 7 + 1 requests and one card: the chosen movie's details, seven probes, one alternate's credits. */
  lemma FinishBounded(prefs: Prefs, results: seq<Movie>, ans: Answers)
    ensures |Finish(prefs, results, ans).events| <= 11
  {
    var service := Normalize(prefs.streamingService);
    RecommendBounded(PickBestMovie(results, prefs), results, ans, service != "", OffersService(service));
  }

  /** From the pick on: two details requests, at most eight scan requests, one card. */
  lemma RecommendBounded(pick: Option<Movie>, results: seq<Movie>, ans: Answers, wanted: bool, accept: ProvidersPayload -> bool)
    ensures |Recommend(pick, results, ans, wanted, accept).events| <= 11
  {
    ScanBounded(results, accept, ans);
  }
}
