/**
 * The page script `scripts/main.mjs`: on load it copies the saved preferences
 * back into the form, each camelCase key going to the input whose id is its
 * kebab-case form; on submit it reads and trims the nine inputs, asks the
 * engine, and saves the preferences and the movie only when a movie came
 * back; "Recommend another" asks the engine's cache. Storage is two fields of
 * the page, the inputs a map from id to value.
 */
module Page {
  import opened Wrappers
  import opened Strings
  import opened Helpers
  import opened Pipeline
  import opened Engine

  // ---------------------------------------------------------------------------
  // Keys and ids
  // ---------------------------------------------------------------------------

  /** The number of upper-case ASCII letters in `s`. */
  function Uppers(s: string): nat {
    if s == [] then 0 else (if IsUpper(s[0]) then 1 else 0) + Uppers(s[1..])
  }

  /** `key.replace(/[A-Z]/g, (m) => "-" + m.toLowerCase())`. */
  function KeyToId(key: string): (id: string)
    ensures |id| == |key| + Uppers(key)
    ensures forall i :: 0 <= i < |id| ==> !IsUpper(id[i])
  {
    if key == [] then []
    else (if IsUpper(key[0]) then ['-', LowerChar(key[0])] else [key[0]]) + KeyToId(key[1..])
  }

  predicate IsLowerLetter(c: char) {
    'a' <= c <= 'z'
  }

  /** The reverse reading of an id: a dash before a lower-case letter becomes that letter in upper case. */
  function IdToKey(id: string): string {
    if id == [] then []
    else if |id| >= 2 && id[0] == '-' && IsLowerLetter(id[1]) then [(id[1] as int - 32) as char] + IdToKey(id[2..])
    else [id[0]] + IdToKey(id[1..])
  }

  /** For a key without dashes the id determines the key: no two such keys share an input. */
  lemma {:induction false} KeyToIdRoundTrip(key: string)
    requires forall i :: 0 <= i < |key| ==> key[i] != '-'
    ensures IdToKey(KeyToId(key)) == key
  {
    if key != [] {
      KeyToIdRoundTrip(key[1..]);
      var rest := KeyToId(key[1..]);
      if IsUpper(key[0]) {
        assert KeyToId(key) == ['-', LowerChar(key[0])] + rest;
        assert (['-', LowerChar(key[0])] + rest)[2..] == rest;
      } else {
        assert KeyToId(key) == [key[0]] + rest;
        assert ([key[0]] + rest)[1..] == rest;
      }
    }
  }

  /**
   * The keys of a saved preferences object, each paired below with the id of
   * the input it was read from. A two-word key is written as its two words
   * joined, so that the lemmas below can convert each word on its own (see
   * `Camel`) instead of unfolding `KeyToId` over the whole literal.
   */
  const MovieKey := "favorite" + "Movie"
  const GenreKey := "favorite" + "Genre"
  const ActorKey := "favorite" + "Actor"
  const ServiceKey := "streaming" + "Service"
  const YearKey := "release" + "Year"
  const RatingKey := "min" + "Rating"
  const RuntimeKey := "runtime"
  const LanguageKey := "language"
  const SortKey := "sort" + "By"

  const MovieId := "favorite-movie"
  const GenreId := "favorite-genre"
  const ActorId := "favorite-actor"
  const ServiceId := "streaming-service"
  const YearId := "release-year"
  const RatingId := "min-rating"
  const RuntimeId := "runtime"
  const LanguageId := "language"
  const SortId := "sort-by"

  /** The id of a key is the ids of its pieces, joined. */
  lemma {:induction false} KeyToIdAppend(a: string, b: string)
    ensures KeyToId(a + b) == KeyToId(a) + KeyToId(b)
  {
    if a != [] {
      assert (a + b)[0] == a[0] && (a + b)[1..] == a[1..] + b;
      KeyToIdAppend(a[1..], b);
    } else {
      assert a + b == b;
    }
  }

  /** A key with no upper-case letter is its own id. */
  lemma {:induction false} KeyToIdLower(s: string)
    requires forall i :: 0 <= i < |s| ==> !IsUpper(s[i])
    ensures KeyToId(s) == s
  {
    if s != [] {
      KeyToIdLower(s[1..]);
    }
  }

  /** A two-word camelCase key becomes the two words joined by a dash, the second one lowered. */
  lemma Camel(first: string, second: string, id: string)
    requires forall i :: 0 <= i < |first| ==> !IsUpper(first[i])
    requires second != [] && IsUpper(second[0])
    requires forall i :: 1 <= i < |second| ==> !IsUpper(second[i])
    requires id == first + ['-', LowerChar(second[0])] + second[1..]
    ensures KeyToId(first + second) == id
  {
    var head := ['-', LowerChar(second[0])];
    var tail := second[1..];
    assert forall i :: 0 <= i < |tail| ==> !IsUpper(tail[i]) by {
      forall i | 0 <= i < |tail| ensures !IsUpper(tail[i]) {
        assert tail[i] == second[i + 1];
      }
    }
    KeyToIdLower(tail);
    assert KeyToId(second) == head + tail;
    KeyToIdAppend(first, second);
    KeyToIdLower(first);
    assert KeyToId(first + second) == first + (head + tail);
    StringAssoc(first, head, tail);
  }

  lemma StringAssoc(a: string, b: string, c: string)
    ensures a + (b + c) == a + b + c
  {
  }

  // Each saved key finds the input its value was read from.

  lemma MovieKeyFindsInput() ensures KeyToId(MovieKey) == MovieId {
    Camel("favorite", "Movie", MovieId);
  }

  lemma GenreKeyFindsInput() ensures KeyToId(GenreKey) == GenreId {
    Camel("favorite", "Genre", GenreId);
  }

  lemma ActorKeyFindsInput() ensures KeyToId(ActorKey) == ActorId {
    Camel("favorite", "Actor", ActorId);
  }

  lemma ServiceKeyFindsInput() ensures KeyToId(ServiceKey) == ServiceId {
    Camel("streaming", "Service", ServiceId);
  }

  lemma YearKeyFindsInput() ensures KeyToId(YearKey) == YearId {
    Camel("release", "Year", YearId);
  }

  lemma RatingKeyFindsInput() ensures KeyToId(RatingKey) == RatingId {
    Camel("min", "Rating", RatingId);
  }

  lemma RuntimeKeyFindsInput() ensures KeyToId(RuntimeKey) == RuntimeId {
    KeyToIdLower(RuntimeKey);
  }

  lemma LanguageKeyFindsInput() ensures KeyToId(LanguageKey) == LanguageId {
    KeyToIdLower(LanguageKey);
  }

  lemma SortKeyFindsInput() ensures KeyToId(SortKey) == SortId {
    Camel("sort", "By", SortId);
  }

  // ---------------------------------------------------------------------------
  // Saving and restoring
  // ---------------------------------------------------------------------------

  /** The saved object as `Object.keys` lists it: every field, in the order the form builds it. */
  function Entries(p: Prefs): seq<(string, string)> {
    [(MovieKey, p.favoriteMovie), (GenreKey, p.favoriteGenre), (ActorKey, p.favoriteActor),
     (ServiceKey, p.streamingService), (YearKey, p.releaseYear), (RatingKey, p.minRating),
     (RuntimeKey, p.runtime), (LanguageKey, p.language), (SortKey, p.sortBy)]
  }

  /** Every field is free of leading and trailing white space. */
  predicate AllTrimmed(p: Prefs) {
    && Trimmed(p.favoriteMovie) && Trimmed(p.favoriteGenre) && Trimmed(p.favoriteActor)
    && Trimmed(p.streamingService) && Trimmed(p.releaseYear) && Trimmed(p.minRating)
    && Trimmed(p.runtime) && Trimmed(p.language) && Trimmed(p.sortBy)
  }

  /** The submit handler's preferences: each of the nine inputs, in the form's order, `?? ""`, trimmed. */
  function ReadPrefs(elements: map<string, string>): (p: Prefs)
    ensures AllTrimmed(p)
  {
    Prefs(
      Trim(FieldValue(elements, FormIds[0])), Trim(FieldValue(elements, FormIds[1])),
      Trim(FieldValue(elements, FormIds[2])), Trim(FieldValue(elements, FormIds[3])),
      Trim(FieldValue(elements, FormIds[4])), Trim(FieldValue(elements, FormIds[5])),
      Trim(FieldValue(elements, FormIds[6])), Trim(FieldValue(elements, FormIds[7])),
      Trim(FieldValue(elements, FormIds[8])))
  }

  /** `if (el) el.value = v`: only an input the page has takes the value. */
  function Put(elements: map<string, string>, id: string, v: string): (r: map<string, string>)
    ensures r.Keys == elements.Keys
    ensures id in elements ==> r[id] == v
    ensures forall other :: other in elements && other != id ==> r[other] == elements[other]
  {
    if id in elements then elements[id := v] else elements
  }

  /** One step of the restore loop: the input named after the key, if the page has it, takes the value. */
  function RestoreOne(elements: map<string, string>, entry: (string, string)): map<string, string> {
    Put(elements, KeyToId(entry.0), entry.1)
  }

  /** The restore loop over `entries`, first to last. */
  function RestoreAll(elements: map<string, string>, entries: seq<(string, string)>): (r: map<string, string>)
    ensures r.Keys == elements.Keys
    decreases |entries|
  {
    if entries == [] then elements
    else RestoreOne(RestoreAll(elements, entries[..|entries| - 1]), entries[|entries| - 1])
  }

  /** A prefix of the entries one longer is restored by one more step. */
  lemma RestoreStep(elements: map<string, string>, entries: seq<(string, string)>, k: nat)
    requires k < |entries|
    ensures RestoreAll(elements, entries[..k + 1]) == RestoreOne(RestoreAll(elements, entries[..k]), entries[k])
  {
    assert entries[..k + 1][..k] == entries[..k];
  }

  /** The ids of the form's nine inputs, in the order the form lists them. */
  const FormIds: seq<string> := [MovieId, GenreId, ActorId, ServiceId, YearId, RatingId, RuntimeId, LanguageId, SortId]

  /** No two inputs of the form share an id. */
  lemma FormIdsDistinct()
    ensures forall a, b :: 0 <= a < b < |FormIds| ==> FormIds[a] != FormIds[b]
  {
  }

  /** Each of the nine saved keys finds the input its value was read from. */
  lemma KeysFindTheirInputs()
    ensures KeyToId(MovieKey) == MovieId && KeyToId(GenreKey) == GenreId && KeyToId(ActorKey) == ActorId
    ensures KeyToId(ServiceKey) == ServiceId && KeyToId(YearKey) == YearId && KeyToId(RatingKey) == RatingId
    ensures KeyToId(RuntimeKey) == RuntimeId && KeyToId(LanguageKey) == LanguageId && KeyToId(SortKey) == SortId
  {
    MovieKeyFindsInput();
    GenreKeyFindsInput();
    ActorKeyFindsInput();
    ServiceKeyFindsInput();
    YearKeyFindsInput();
    RatingKeyFindsInput();
    RuntimeKeyFindsInput();
    LanguageKeyFindsInput();
    SortKeyFindsInput();
  }

  /** The restore writes, for each entry, the input its key names, so a later entry wins over an earlier one. */
  lemma {:induction false} RestoreAllLookup(elements: map<string, string>, entries: seq<(string, string)>, ids: seq<string>, j: nat)
    requires |ids| == |entries| && j < |entries|
    requires forall k :: 0 <= k < |entries| ==> KeyToId(entries[k].0) == ids[k]
    requires forall a, b :: 0 <= a < b < |ids| ==> ids[a] != ids[b]
    requires ids[j] in elements
    ensures RestoreAll(elements, entries)[ids[j]] == entries[j].1
    decreases |entries|
  {
    var n := |entries| - 1;
    var front := entries[..n];
    var prev := RestoreAll(elements, front);
    assert RestoreAll(elements, entries) == Put(prev, ids[n], entries[n].1);
    if j < n {
      assert forall k :: 0 <= k < |front| ==> KeyToId(front[k].0) == ids[..n][k];
      RestoreAllLookup(elements, front, ids[..n], j);
      assert ids[..n][j] == ids[j] && front[j] == entries[j];
    }
  }

  /** The saved entries name the form's inputs, one each, in order. */
  lemma EntriesFindInputs(p: Prefs)
    ensures |Entries(p)| == |FormIds|
    ensures forall k :: 0 <= k < |Entries(p)| ==> KeyToId(Entries(p)[k].0) == FormIds[k]
  {
    var e := Entries(p);
    forall k | 0 <= k < |e| ensures KeyToId(e[k].0) == FormIds[k] {
      if k == 0 { MovieKeyFindsInput(); }
      else if k == 1 { GenreKeyFindsInput(); }
      else if k == 2 { ActorKeyFindsInput(); }
      else if k == 3 { ServiceKeyFindsInput(); }
      else if k == 4 { YearKeyFindsInput(); }
      else if k == 5 { RatingKeyFindsInput(); }
      else if k == 6 { RuntimeKeyFindsInput(); }
      else if k == 7 { LanguageKeyFindsInput(); }
      else { SortKeyFindsInput(); }
    }
  }

  /** The value an input reads after the restore: the saved one if the page has the input, `""` for a missing one. */
  function ShownValue(elements: map<string, string>, id: string, v: string): string {
    if id in elements then v else ""
  }

  /** After a restore each input of the form reads the trimmed value saved under its key, or `""` if the page lacks it. */
  lemma RestoreField(elements: map<string, string>, p: Prefs, j: nat)
    requires j < |FormIds|
    requires Trimmed(Entries(p)[j].1)
    ensures Trim(FieldValue(RestoreAll(elements, Entries(p)), FormIds[j])) == ShownValue(elements, FormIds[j], Entries(p)[j].1)
  {
    EntriesFindInputs(p);
    FormIdsDistinct();
    if FormIds[j] in elements {
      RestoreAllLookup(elements, Entries(p), FormIds, j);
      TrimOfTrimmed(Entries(p)[j].1);
    } else {
      TrimOfTrimmed("");
    }
  }

  /**
   * Restoring trimmed preferences and reading the form again gives them
   * back, except that an input the page lacks reads as empty.
   */
  lemma RestoreThenRead(elements: map<string, string>, p: Prefs)
    requires AllTrimmed(p)
    ensures ReadPrefs(RestoreAll(elements, Entries(p))) == Prefs(
      ShownValue(elements, FormIds[0], p.favoriteMovie), ShownValue(elements, FormIds[1], p.favoriteGenre),
      ShownValue(elements, FormIds[2], p.favoriteActor), ShownValue(elements, FormIds[3], p.streamingService),
      ShownValue(elements, FormIds[4], p.releaseYear), ShownValue(elements, FormIds[5], p.minRating),
      ShownValue(elements, FormIds[6], p.runtime), ShownValue(elements, FormIds[7], p.language),
      ShownValue(elements, FormIds[8], p.sortBy))
  {
    var r := RestoreAll(elements, Entries(p));
    assert Trimmed(Entries(p)[0].1) && Trimmed(Entries(p)[1].1) && Trimmed(Entries(p)[2].1);
    assert Trimmed(Entries(p)[3].1) && Trimmed(Entries(p)[4].1) && Trimmed(Entries(p)[5].1);
    assert Trimmed(Entries(p)[6].1) && Trimmed(Entries(p)[7].1) && Trimmed(Entries(p)[8].1);
    forall j | 0 <= j < |FormIds|
      ensures Trim(FieldValue(r, FormIds[j])) == ShownValue(elements, FormIds[j], Entries(p)[j].1)
    {
      RestoreField(elements, p, j);
    }
    ReadBack(r, elements, p);
  }

  /** A form whose inputs read, trimmed, as the shown values of `p` gives those values to the submit handler. */
  lemma ReadBack(r: map<string, string>, elements: map<string, string>, p: Prefs)
    requires forall j :: 0 <= j < |FormIds| ==>
      Trim(FieldValue(r, FormIds[j])) == ShownValue(elements, FormIds[j], Entries(p)[j].1)
    ensures ReadPrefs(r) == Prefs(
      ShownValue(elements, FormIds[0], p.favoriteMovie), ShownValue(elements, FormIds[1], p.favoriteGenre),
      ShownValue(elements, FormIds[2], p.favoriteActor), ShownValue(elements, FormIds[3], p.streamingService),
      ShownValue(elements, FormIds[4], p.releaseYear), ShownValue(elements, FormIds[5], p.minRating),
      ShownValue(elements, FormIds[6], p.runtime), ShownValue(elements, FormIds[7], p.language),
      ShownValue(elements, FormIds[8], p.sortBy))
  {
  }

  /** With every input of the form present, saving what the form reads and restoring it on the next load leaves the form reading the same. */
  lemma ReloadKeepsForm(elements: map<string, string>)
    requires forall k :: 0 <= k < |FormIds| ==> FormIds[k] in elements
    ensures ReadPrefs(RestoreAll(elements, Entries(ReadPrefs(elements)))) == ReadPrefs(elements)
  {
    RestoreThenRead(elements, ReadPrefs(elements));
    assert FormIds[0] in elements && FormIds[1] in elements && FormIds[2] in elements;
    assert FormIds[3] in elements && FormIds[4] in elements && FormIds[5] in elements;
    assert FormIds[6] in elements && FormIds[7] in elements && FormIds[8] in elements;
  }

  // ---------------------------------------------------------------------------
  // The page
  // ---------------------------------------------------------------------------

  /** What the click handler shows after the call: "could not load" on an error, the warning on `null`, nothing after a card. */
  function ClickNotice(outcome: Fetch<Option<Movie>>): seq<Event> {
    match outcome
    case Failure(_) => [Shown(CouldNotLoadAnother)]
    case Success(None) => [Shown(NoCachedResults)]
    case Success(Some(_)) => []
  }

  /** Everything one click on "Recommend another" shows and sends, given the engine's cache. */
  function ClickEvents(results: seq<Movie>, prefs: Option<Prefs>, u: real, ans: Answers): seq<Event>
    requires 0.0 <= u < 1.0
  {
    var run := Another(results, prefs, u, ans);
    [Shown(FindingAnother)] + run.events + ClickNotice(run.outcome)
  }

  /** The storage after a submit: the preferences and the movie when the call returned one, otherwise what was there. */
  function StoreAfter(p: Prefs, outcome: Fetch<Option<Movie>>, prefs: Option<Prefs>, last: Option<Movie>): (Option<Prefs>, Option<Movie>) {
    if outcome.Success? && outcome.value.Some? then (Some(p), outcome.value) else (prefs, last)
  }

  /** The engine's cache after a call: the new list and preferences once the search answered, otherwise the old ones. */
  function EngineAfter(p: Prefs, ans: Answers, results: seq<Movie>, prefs: Option<Prefs>): (seq<Movie>, Option<Prefs>) {
    match CacheAfter(p, ans)
    case Some(list) => (list, Some(p))
    case None => (results, prefs)
  }

  /** The stored preferences have all been read through the trimming form reader. */
  predicate StoredTrimmed(saved: Option<Prefs>) {
    saved.Some? ==> AllTrimmed(saved.value)
  }

  /**
   * The page of `main.mjs`: its inputs, and the two storage entries
   * "moov-prefs" and "moov-last" (`None` when absent).
   */
  class Page {
    var elements: map<string, string>
    var savedPrefs: Option<Prefs>
    var savedLast: Option<Movie>

    constructor(elements: map<string, string>, savedPrefs: Option<Prefs>, savedLast: Option<Movie>)
      ensures this.elements == elements && this.savedPrefs == savedPrefs && this.savedLast == savedLast
    {
      this.elements := elements;
      this.savedPrefs := savedPrefs;
      this.savedLast := savedLast;
    }

    /** On load: each saved key, in order, writes its value into the input named after it, when the page has one. */
    method Restore()
      modifies this
      ensures savedPrefs.Some? ==> elements == RestoreAll(old(elements), Entries(savedPrefs.value))
      ensures savedPrefs.None? ==> elements == old(elements)
      ensures savedPrefs == old(savedPrefs) && savedLast == old(savedLast)
    {
      if savedPrefs.None? {
        return;
      }
      var entries := Entries(savedPrefs.value);
      var i := 0;
      while i < |entries|
        invariant 0 <= i <= |entries|
        invariant elements == RestoreAll(old(elements), entries[..i])
        invariant savedPrefs == old(savedPrefs) && savedLast == old(savedLast)
      {
        RestoreStep(old(elements), entries, i);
        var id := KeyToId(entries[i].0);
        if id in elements {
          elements := elements[id := entries[i].1];
        }
        i := i + 1;
      }
      assert entries[..i] == entries;
    }

    /**
     * The submit handler: read and trim the form, show "Finding a
     * recommendation...", ask the engine, then store the preferences and the
     * movie when one came back, or show the warning or the error.
     */
    method Submit(engine: Engine, browser: Browser)
      modifies this, engine, browser
      ensures var run := Recommendation(ReadPrefs(old(elements)), browser.answers);
        browser.events == old(browser.events) + [Shown(Finding)] + run.events + SubmitNotice(run.outcome)
      ensures var run := Recommendation(ReadPrefs(old(elements)), browser.answers);
        (savedPrefs, savedLast) == StoreAfter(ReadPrefs(old(elements)), run.outcome, old(savedPrefs), old(savedLast))
      ensures (engine.lastResults, engine.lastPrefs) ==
        EngineAfter(ReadPrefs(old(elements)), browser.answers, old(engine.lastResults), old(engine.lastPrefs))
      ensures elements == old(elements)
    {
      SubmitPrefs(engine, browser, ReadPrefs(elements));
    }

    /** The handler once the form is read into `p`. */
    method SubmitPrefs(engine: Engine, browser: Browser, p: Prefs)
      modifies this, engine, browser
      ensures var run := Recommendation(p, browser.answers);
        browser.events == old(browser.events) + [Shown(Finding)] + run.events + SubmitNotice(run.outcome)
      ensures (savedPrefs, savedLast) == StoreAfter(p, Recommendation(p, browser.answers).outcome, old(savedPrefs), old(savedLast))
      ensures (engine.lastResults, engine.lastPrefs) ==
        EngineAfter(p, browser.answers, old(engine.lastResults), old(engine.lastPrefs))
      ensures elements == old(elements)
    {
      browser.Show(Finding);
      var r := engine.RecommendFromTMDB(browser, p);
      Store(p, r);
      ShowOutcome(browser, r);
    }

    /** The two storage writes, made only when the call returned a movie. */
    method Store(p: Prefs, r: Fetch<Option<Movie>>)
      modifies this
      ensures (savedPrefs, savedLast) == StoreAfter(p, r, old(savedPrefs), old(savedLast))
      ensures elements == old(elements)
    {
      if r.Success? && r.value.Some? {
        savedPrefs := Some(p);
        savedLast := r.value;
      }
    }

    /** The "Recommend another" click handler, with `Math.random()` given as `u`. */
    method ClickRecommendAnother(engine: Engine, browser: Browser, u: real)
      requires 0.0 <= u < 1.0
      modifies browser
      ensures browser.events == old(browser.events) + ClickEvents(engine.lastResults, engine.lastPrefs, u, browser.answers)
    {
      browser.Show(FindingAnother);
      var r := engine.RecommendAnotherFromCache(browser, u);
      if r.Failure? {
        browser.Show(CouldNotLoadAnother);
      } else if r.value.None? {
        browser.Show(NoCachedResults);
      }
    }
  }

  // ---------------------------------------------------------------------------
  // Properties of the page
  // ---------------------------------------------------------------------------

  /** The stored movie is one of the results the engine cached for those preferences. */
  lemma StoredMovieIsCached(p: Prefs, ans: Answers)
    requires Recommendation(p, ans).outcome.Success? && Recommendation(p, ans).outcome.value.Some?
    ensures CacheAfter(p, ans).Some?
    ensures Recommendation(p, ans).outcome.value.value in CacheAfter(p, ans).value
  {
    var query := SearchQuery(p).value;
    var d := SearchFor(p, query, ans).data.value;
    var results := ResultsOf(d);
    FinishReturnsChosenOrFirstMatch(p, results, ans);
  }

  /** The "no cached results" warning appears exactly when the engine has no result list or no preferences. */
  lemma ClickWarnsIffNoCache(results: seq<Movie>, prefs: Option<Prefs>, u: real, ans: Answers)
    requires 0.0 <= u < 1.0
    ensures Shown(NoCachedResults) in ClickEvents(results, prefs, u, ans) <==> results == [] || prefs.None?
  {
    var run := Another(results, prefs, u, ans);
    AnotherFromCache(results, prefs, u, ans, Prefs("", "", "", "", "", "", "", "", ""));
    if results == [] || prefs.None? {
      assert ClickEvents(results, prefs, u, ans)[1] == Shown(NoCachedResults);
    } else {
      var m := results[RandomIndex(u, |results|)];
      assert Shown(NoCachedResults) !in DetailRequests(m);
    }
  }

  /** Storage holds trimmed preferences before a submit of trimmed ones, and so after it. */
  lemma StoreKeepsTrimmed(p: Prefs, outcome: Fetch<Option<Movie>>, prefs: Option<Prefs>, last: Option<Movie>)
    requires AllTrimmed(p) && StoredTrimmed(prefs)
    ensures StoredTrimmed(StoreAfter(p, outcome, prefs, last).0)
  {
  }

  /** A search that finds nothing returns `null`, and a `null` result stores nothing. */
  lemma EmptySearchStoresNothing(p: Prefs, ans: Answers, prefs: Option<Prefs>, last: Option<Movie>)
    requires CacheAfter(p, ans) == Some([])
    ensures Recommendation(p, ans).outcome == Success(None)
    ensures StoreAfter(p, Recommendation(p, ans).outcome, prefs, last) == (prefs, last)
  {
    NullIffEmptyCache(p, ans);
  }
}
