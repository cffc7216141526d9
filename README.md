# MooV movie recommendations, modelled in Dafny

This project models the recommendation widget of the MooV site. The user fills
in a preferences form: favourite movie, genre and actor, streaming service, and
five further fields. The page asks the movie database (through a serverless
relay) for candidates. It scores them with a keyword heuristic and shows the best
one as a card. When the chosen movie is not on the wanted streaming service in
Canada, it probes up to seven alternates, one at a time. The last result list is
cached so that "Recommend another" can show a random cached movie without a new
search.

The model has these modules:

- `Strings` holds the JavaScript string operations used: `trim`, ASCII
  `toLowerCase`, `includes` and `String(n)`.
- `Helpers` holds `normalize`, the lead actor, the Canadian providers, the
  score and `pickBestMovie`. The older script `scripts/main.js` has a copy of
  each of these that is the same line for line. Both scripts use this one
  module.
- `Pipeline` holds the outside world and the tail the two scripts share:
  - A `Browser` logs every request sent, card rendered and message shown.
  - The movie database is an oracle, `Answers`, that gives each request its
    payload or the message of the error it throws.
  - The shared tail is the pick, the two detail requests, the early-exit
    alternate scan over positions 1..7, and the card.
- `Engine` (`scripts/reco/engine.mjs`) is a class holding the cache
  (`lastResults`, `lastPrefs`). Its methods are `recommendFromTMDB` and
  `recommendAnotherFromCache`. The whole call is also specified as a function
  of the preferences and the oracle.
- `Legacy` (`scripts/main.js`) is the older script. It space-joins the query,
  never searches by cast, and its click handler does nothing at all without a
  cache.
- `Page` (`scripts/main.mjs`) is a class with the form's inputs and the two
  storage entries. It converts keys to input ids and restores saved
  preferences. The submit handler trims the form and stores only on a
  non-null result. It also has the click handler.
- `SearchParams` holds `URLSearchParams.get`/`set`, as section 6.2 of the URL
  Standard defines them.
- `Proxy` (`scripts/tmdb/proxy.mjs`) builds the query string and turns a
  status that is not ok into an error.
- `Relay` (`netlify/functions/tmdb.js`) is the relay's decision tree. It
  covers CORS, the 204/405/400/500 checks in order, and parameter forwarding.
  The upstream call is a function parameter.

Scores are `real`, and `Math.random()` is a parameter `u` with `0 <= u < 1`.

## Model

| member | source | states |
|---|---|---|
| Strings.Trim | scripts/reco/helpers.mjs:2 | the trimmed string has no white space (the JavaScript `trim` set) at either end |
| Strings.TrimSlice | scripts/reco/helpers.mjs:2 | the input is white space, then its trimmed form, then white space: `trim` only removes characters from the ends |
| Strings.TrimEmptyIffAllSpace | scripts/reco/engine.mjs:20-22 | a string trims to "" exactly when it is white space only, so "blank" inputs are the all-space ones |
| Strings.TrimOfTrimmed | scripts/main.mjs:27-37 | trimming a string that is already trimmed leaves it unchanged |
| Strings.TrimDropsLeadingSpace | scripts/reco/engine.mjs:26 | white space in front is all dropped: `(w + t).trim()` equals `t.trim()` when `w` is white space only |
| Strings.LowerChar | scripts/reco/helpers.mjs:2 | one character lowered: an upper-case ASCII letter moves up by 32, any other character is kept, and white space stays white space |
| Strings.Lower | scripts/reco/helpers.mjs:2 | `toLowerCase` keeps the length, lowers each character in place and leaves no upper-case letter |
| Strings.ContainsIff | scripts/reco/helpers.mjs:30 | `includes`, checked front to back, succeeds exactly when the needle occurs at some position |
| Strings.Decimal | scripts/tmdb/proxy.mjs:14 | `String(status)` is a non-empty run of digits with no leading zero unless the status is 0 |
| Strings.DecimalValue | scripts/tmdb/proxy.mjs:14 | reading the decimal digits back gives the status number |
| Helpers.Normalize | scripts/reco/helpers.mjs:1-3 | `normalize` returns a string with no white space at either end and no upper-case letter |
| Helpers.NormalizeIdempotent | scripts/reco/helpers.mjs:1-3 | normalising twice is the same as normalising once |
| Helpers.LowerOfLower | scripts/reco/helpers.mjs:2 | lowering a string with no upper-case letter leaves it unchanged |
| Helpers.LeadIndex | scripts/reco/helpers.mjs:7-9 | the lead is the first cast entry with the least `(order ?? 999)`, which is the head of a stable ascending sort of a copy |
| Helpers.IsLead | scripts/reco/helpers.mjs:7-9 | definition: position `i` holds the least `order ?? 999` and no earlier entry ties it, so it is the head of the stable ascending sort |
| Helpers.LeadUnique | scripts/reco/helpers.mjs:7-9 | only one position can be that first least entry, so the lead is well defined |
| Helpers.LeadFromCredits | scripts/reco/helpers.mjs:5-11 | the result is "—" when the cast is missing or empty; otherwise it is the lead's name, or "—" when that name is empty |
| Helpers.Names | scripts/reco/helpers.mjs:15-17 | a missing provider list gives []; otherwise the names have the list's length and order |
| Helpers.ProvidersForCA | scripts/reco/helpers.mjs:13-20 | with no `results.CA` the result is three empty lists and link ""; otherwise it is the CA lists' provider names, in order, and the CA link or "" |
| Helpers.SomeNormalizesToIff | scripts/reco/engine.mjs:59 | `flatrate.some(p => normalize(p) === service)` holds exactly when some listed name normalises to the service |
| Helpers.PopularityBonus | scripts/reco/helpers.mjs:37 | the popularity bonus never exceeds 2 |
| Helpers.Score | scripts/reco/helpers.mjs:22-42 | definition of `scoreMovieResult`, step by step as the source accumulates it; its properties are `ScoreParts`, `ScoreAtMost` and the lemmas after them |
| Helpers.ScoreParts | scripts/reco/helpers.mjs:22-42 | the score is +2 for a genre match, −3 for the favourite itself, the popularity bonus, and +0.2 for a given service |
| Helpers.ScoreAtMost | scripts/reco/helpers.mjs:22-42 | no movie scores above 4.2 |
| Helpers.GenreMatchWorthTwo | scripts/reco/helpers.mjs:25-31 | two movies with the same title and popularity differ by exactly 2 when only one contains the non-empty normalised genre |
| Helpers.SameScoreInputs | scripts/reco/helpers.mjs:33-37 | the favourite test and the popularity bonus depend only on the title and on the popularity |
| Helpers.FavoriteCostsThree | scripts/reco/helpers.mjs:33-35 | the movie whose normalised title is the favourite scores exactly 3 less than an otherwise equal one |
| Helpers.PopularityMonotone | scripts/reco/helpers.mjs:37 | with the same title and overview, the more popular movie never scores lower (missing popularity counts as 0) |
| Helpers.ServiceBonusUniform | scripts/reco/helpers.mjs:39 | the service bonus is the same for every movie: the score is the score without a service plus that constant |
| Helpers.BestIndex | scripts/reco/helpers.mjs:44-50 | the pick is a highest-scoring position, and the first one, as a stable descending sort gives |
| Helpers.IsBest | scripts/reco/helpers.mjs:45-49 | definition: position `i` has the highest score and no earlier position ties it, so it is the head of the stable descending sort |
| Helpers.BestUnique | scripts/reco/helpers.mjs:47-49 | only one position is the first highest-scoring one |
| Helpers.PickBestMovie | scripts/reco/helpers.mjs:44-50 | `pickBestMovie` is null exactly for an empty list; otherwise it is an element of the list that scores at least as high as every other, and the first such |
| Helpers.BestIndexIgnoresService | scripts/reco/helpers.mjs:39-49 | dropping the streaming service does not move the best position |
| Helpers.PickIgnoresService | scripts/reco/helpers.mjs:39-49 | the streaming service never changes which movie is picked |
| Pipeline.FailureNotice | scripts/main.mjs:57 | the error notice carries the error's message, or "Something went wrong." when it is empty |
| Pipeline.DetailsOf | scripts/reco/engine.mjs:50-53 | the parallel credits and providers lookup succeeds exactly when both do, and then yields both payloads |
| Pipeline.Browser.SearchMovies | scripts/reco/engine.mjs:41 | a title search is logged as sent and answered by the oracle |
| Pipeline.Browser.SearchPerson | scripts/reco/engine.mjs:32 | a person search is logged as sent and answered by the oracle |
| Pipeline.Browser.DiscoverByCast | scripts/reco/engine.mjs:36 | a discover-by-cast request is logged as sent and answered by the oracle |
| Pipeline.Browser.GetCredits | scripts/reco/engine.mjs:65 | a credits request is logged as sent and answered by the oracle |
| Pipeline.Browser.GetWatchProviders | scripts/reco/engine.mjs:61 | a providers request is logged as sent and answered by the oracle |
| Pipeline.Browser.GetDetails | scripts/reco/engine.mjs:50-53 | both detail requests are sent, credits first, before either answer is used |
| Pipeline.Browser.Render | scripts/reco/engine.mjs:72 | rendering a card appends it to the log |
| Pipeline.Browser.Show | scripts/main.mjs:39 | a status message is appended to the log |
| Pipeline.ShowOutcome | scripts/main.mjs:46-57 | after the call the page shows the error message, or "no results" for null, or nothing after a card |
| Pipeline.ScanEnd | scripts/reco/engine.mjs:60 | `slice(1, 8)` never reaches past position 7 or past the list |
| Pipeline.Probes | scripts/reco/engine.mjs:60-61 | the providers requests for a run of positions are one per position, in list order |
| Pipeline.ScanFrom | scripts/reco/engine.mjs:60-69 | definition of the alternate loop from a position on: one providers request at a time, stopping at the first match (after its credits) or the first error; stated by `ScanStep`, `ScanHit`, `ScanMiss`, `ScanBroke` and `ScanBounded` |
| Pipeline.ScanStep | scripts/reco/engine.mjs:60-69 | one loop step: a failed lookup ends the scan with its error, a match fetches credits and ends it, a mismatch goes on to the next position |
| Pipeline.ScanHit | scripts/reco/engine.mjs:60-69 | a successful scan stops at the first matching alternate; every earlier one was probed and refused, and nothing after it was requested |
| Pipeline.ScanMiss | scripts/reco/engine.mjs:60-69 | a scan that finds nothing probed every position up to 7, in order, and each was refused |
| Pipeline.ScanBroke | scripts/reco/engine.mjs:60-69 | a failing scan sent only the probes up to the failing position, and possibly that position's credits request |
| Pipeline.ScanBounded | scripts/reco/engine.mjs:60-69 | the scan sends at most seven providers requests and one credits request |
| Pipeline.ScanAlternates | scripts/reco/engine.mjs:60-69 | the loop returns and logs exactly what the scan specification gives: the first matching alternate's card, none, or the first error |
| Pipeline.PresentChoice | scripts/reco/engine.mjs:58-73 | the page renders the alternate found or else the chosen card, and returns the movie rendered |
| Pipeline.Present | scripts/reco/engine.mjs:58-73 | definition of the part after the chosen movie's details: the scan when asked for, then the card of the alternate found or of the chosen movie, or the scan's error |
| Pipeline.Recommend | scripts/reco/engine.mjs:47-73 | definition of the tail after the pick: null without a pick, the two detail requests, and the scan only when a service is wanted and the pick fails the test; stated by `RecommendNullIffNoPick`, `RecommendReturnsPickOrFirstMatch` and `RecommendBounded` |
| Pipeline.Finish | scripts/reco/engine.mjs:47-73 | definition of the shared tail on a result list: `pickBestMovie`, then `Recommend` with the normalised service; stated by `FinishEmpty`, `FinishNullIffEmpty`, `FinishReturnsChosenOrFirstMatch`, `NoScanWhenServiceMet` and `FinishBounded` |
| Pipeline.RecommendPicked | scripts/reco/engine.mjs:47-73 | from the pick on, the method returns and logs what the tail specification gives |
| Pipeline.FinishRecommendation | scripts/reco/engine.mjs:47-73 | the tail picks the best movie and scans only when the normalised service is given, and its result and log match the specification |
| Pipeline.FinishEmpty | scripts/reco/engine.mjs:47-48 | an empty result list gives null and sends no request |
| Pipeline.RecommendNullIffNoPick | scripts/reco/engine.mjs:47-48 | from the pick on, the result is null exactly when nothing was picked |
| Pipeline.FinishNullIffEmpty | scripts/reco/engine.mjs:44-48 | the tail returns null exactly when the result list is empty |
| Pipeline.RecommendReturnsPickOrFirstMatch | scripts/reco/engine.mjs:58-73 | the movie returned is the pick, or the first alternate at positions 1..7 that passes the test, and then only when a service is wanted and the pick fails it |
| Pipeline.FinishReturnsChosenOrFirstMatch | scripts/reco/engine.mjs:58-73 | the movie returned is the chosen one, or the first alternate in list order (not score order) offering the service, and then only when the service is given and the chosen movie lacks it |
| Pipeline.NoScanWhenServiceMet | scripts/reco/engine.mjs:58-73 | with no service, or a service the chosen movie offers, nothing is probed: the two details, then the chosen card |
| Pipeline.RecommendBounded | scripts/reco/engine.mjs:50-73 | from the pick on, at most 11 events: 2 detail requests, 8 scan requests and 1 card |
| Pipeline.FinishBounded | scripts/reco/engine.mjs:50-73 | the tail logs at most 11 events |
| Engine.SearchQuery | scripts/reco/engine.mjs:20-27 | the query is refused only with the "Please enter a movie/actor or choose a genre." message, and an accepted query is trimmed |
| Engine.QueryNeverEmpty | scripts/reco/engine.mjs:20-27 | an accepted query is never empty, because the genre fallback ends in "movie" |
| Engine.QueryRejectedIff | scripts/reco/engine.mjs:20-25 | the call is refused exactly when the movie is blank and the genre is empty, whatever the actor |
| Engine.QuerySources | scripts/reco/engine.mjs:20-27 | a non-blank movie is the query; a blank but non-empty movie with a genre gives "genre movie"; an empty movie gives the genre, or just "movie" when the genre is white space only |
| Engine.PersonId | scripts/reco/engine.mjs:33-35 | a person id is used only when it is truthy, that is present and not 0 |
| Engine.SearchFor | scripts/reco/engine.mjs:29-42 | definition of the search phase: a person search for a non-blank actor, then discovery by cast for a truthy id, else a title search; stated by `SearchRoute` and `SearchSendsAtMostTwo` |
| Engine.Recommendation | scripts/reco/engine.mjs:19-74 | definition of the whole `recommendFromTMDB`: the query check, the search, then the shared tail; stated by `BeforeTail`, `AfterSearch`, `RejectedBeforeAnyRequest`, `NullIffEmptyCache` and `RecommendationBounded` |
| Engine.CacheAfter | scripts/reco/engine.mjs:44-45 | definition: the list the call caches, `results ?? []`, present exactly when the query was accepted and the search answered |
| Engine.BeforeTail | scripts/reco/engine.mjs:22-45 | a refused query throws with no request; a failed search throws after the search requests; in both cases the cache is not written |
| Engine.AfterSearch | scripts/reco/engine.mjs:44-73 | after a successful search the cache holds `results ?? []`, and the run is the search followed by the shared tail |
| Engine.RandomIndex | scripts/reco/engine.mjs:79 | `Math.floor(Math.random() * n)` is a valid position |
| Engine.Another | scripts/reco/engine.mjs:76-93 | definition of `recommendAnotherFromCache`: null without a list or preferences, else a random cached movie, its two detail requests and its card or the lookup's error; stated by `AnotherFromCache` |
| Engine.EveryIndexReachable | scripts/reco/engine.mjs:79 | every cached position is picked for some random value |
| Engine.Engine.constructor | scripts/reco/engine.mjs:12-13 | the cache starts as an empty list and null preferences |
| Engine.Engine.GetLastCache | scripts/reco/engine.mjs:15-17 | `getLastCache` returns the cached list and preferences |
| Engine.Engine.SearchStep | scripts/reco/engine.mjs:29-42 | the search step sends and returns what the search specification gives: a person search first for a non-blank actor, then discovery or a title search |
| Engine.Engine.RecommendFromTMDB | scripts/reco/engine.mjs:19-74 | the method returns and logs the whole-call specification; after a successful search the cache is the new list and the given preferences, otherwise it is untouched |
| Engine.Engine.RecommendAnotherFromCache | scripts/reco/engine.mjs:76-93 | the method returns and logs the "another" specification for the current cache and random value |
| Engine.RejectedBeforeAnyRequest | scripts/reco/engine.mjs:20-27 | refused preferences throw before any request is sent, and the cache is left alone |
| Engine.ActorAloneRejected | scripts/reco/engine.mjs:20-27 | an actor alone is not enough: with no movie and no genre the call throws |
| Engine.SearchRoute | scripts/reco/engine.mjs:31-42 | discover-by-cast is sent exactly when the actor is not blank and the first person has a truthy id; the title search is sent exactly when the actor is blank or no such id exists; a non-blank actor is looked up first |
| Engine.SearchSendsAtMostTwo | scripts/reco/engine.mjs:31-42 | the search phase sends at most two requests |
| Engine.NullIffEmptyCache | scripts/reco/engine.mjs:44-48 | the call returns null exactly when the search succeeded and cached an empty list |
| Engine.RecommendationBounded | scripts/reco/engine.mjs:19-74 | a whole call logs at most 13 events |
| Engine.AnotherFromCache | scripts/reco/engine.mjs:76-93 | "another" is null exactly when the list is empty or there are no preferences; otherwise it is a cached movie; it logs at most three events, and the cached preferences play no part in the pick |
| Legacy.NonEmpty | scripts/main.js:173 | `filter(Boolean)` keeps every non-empty part exactly as often as it occurs and no empty string, and is never longer than the input |
| Legacy.JoinAllSpace | scripts/main.js:173-174 | the space-joined query is white space only exactly when every part is |
| Legacy.NonEmptyAllSpace | scripts/main.js:173 | dropping empty parts does not change whether all parts are white space |
| Legacy.AllPartsCons | scripts/main.js:173 | all parts are white space exactly when the first is and the rest are |
| Legacy.LegacyQuery | scripts/main.js:173-174 | definition of the older query: movie, genre and actor with empty ones dropped, joined by spaces, trimmed; stated by `LegacyQueryBlankIff` and `ActorAloneIsQuery` |
| Legacy.LegacyQueryBlankIff | scripts/main.js:173-178 | the older call is refused exactly when movie, genre and actor are all blank |
| Legacy.ActorAloneIsQuery | scripts/main.js:173-174 | with only an actor given, the trimmed actor is the title query |
| Legacy.LegacyRun | scripts/main.js:172-213 | definition of the older `recommendFromTMDB`: a blank query throws, otherwise one title search and the shared tail; stated by `LegacyBlank`, `LegacySearchFailed`, `LegacyAfterSearch` and `LegacyNullIffEmpty` |
| Legacy.LegacyCache | scripts/main.js:181-182 | definition: the list the older call caches, present exactly when the query is not blank and the title search answered |
| Legacy.FormPrefs | scripts/main.js:221-226 | definition: the older form reads only movie, genre, actor and service, untrimmed, with `?? ""` for a missing input |
| Legacy.LegacyAnother | scripts/main.js:248-271 | definition of the older click handler: nothing without a cache, else "Finding another...", the details, and the card or the "could not load" notice; stated by `LegacyAnotherGuard` and `LegacyClickMatchesPage` |
| Legacy.LegacyPage.constructor | scripts/main.js:169-170 | the older cache starts empty with null preferences |
| Legacy.LegacyPage.Recommend | scripts/main.js:172-213 | the older call returns and logs its specification; after a successful search the cache is the new list and preferences, otherwise it is untouched |
| Legacy.LegacyPage.CacheAndFinish | scripts/main.js:181-213 | the cache is overwritten with `results ?? []` and the preferences before the shared tail runs |
| Legacy.LegacyPage.Submit | scripts/main.js:216-246 | the older form shows "Finding...", runs the call on the four untrimmed fields, then shows the error or "no results"; the cache becomes the new list and those preferences exactly when the search answered, and the inputs are never written |
| Legacy.LegacyPage.RecommendAnother | scripts/main.js:248-271 | the older click handler logs exactly what its specification gives for the current cache |
| Legacy.LegacyBlank | scripts/main.js:176-178 | a blank query throws before any request and leaves the cache alone |
| Legacy.LegacySearchFailed | scripts/main.js:180 | a failed title search throws after that one request and leaves the cache alone |
| Legacy.LegacyAfterSearch | scripts/main.js:180-213 | otherwise the run is exactly one title search followed by the shared tail, and the cache holds its results |
| Legacy.ActorAloneDiffers | scripts/main.js:173-180 | with only an actor, the older script searches the actor's name as a title while the engine throws |
| Legacy.LegacyNullIffEmpty | scripts/main.js:181-185 | the older call returns null exactly when its search succeeds with an empty list |
| Legacy.LegacyAnotherGuard | scripts/main.js:253-266 | the older click does nothing exactly when the cache is empty or has no preferences; otherwise it shows "Finding another..." and requests one cached movie's details |
| Legacy.LegacyClickMatchesPage | scripts/main.js:248-271 | with a cache both click handlers show and send the same; without one the older does nothing and the newer warns |
| Page.KeyToId | scripts/main.mjs:14 | the id is longer than the key by its number of upper-case letters, and has no upper-case letter |
| Page.KeyToIdRoundTrip | scripts/main.mjs:14 | for a key without dashes, the id gives the key back, so distinct keys never share an input |
| Page.KeyToIdAppend | scripts/main.mjs:14 | the replacement works character by character: the id of a concatenation is the concatenation of the ids |
| Page.KeyToIdLower | scripts/main.mjs:14 | a key with no upper-case letter is its own id |
| Page.Camel | scripts/main.mjs:14 | a two-word camelCase key becomes the words joined by "-", with the second word lowered |
| Page.MovieKeyFindsInput | scripts/main.mjs:28 | `favoriteMovie` becomes `favorite-movie` |
| Page.GenreKeyFindsInput | scripts/main.mjs:29 | `favoriteGenre` becomes `favorite-genre` |
| Page.ActorKeyFindsInput | scripts/main.mjs:30 | `favoriteActor` becomes `favorite-actor` |
| Page.ServiceKeyFindsInput | scripts/main.mjs:31 | `streamingService` becomes `streaming-service` |
| Page.YearKeyFindsInput | scripts/main.mjs:32 | `releaseYear` becomes `release-year` |
| Page.RatingKeyFindsInput | scripts/main.mjs:33 | `minRating` becomes `min-rating` |
| Page.RuntimeKeyFindsInput | scripts/main.mjs:34 | `runtime` stays `runtime` |
| Page.LanguageKeyFindsInput | scripts/main.mjs:35 | `language` stays `language` |
| Page.SortKeyFindsInput | scripts/main.mjs:36 | `sortBy` becomes `sort-by` |
| Page.KeysFindTheirInputs | scripts/main.mjs:12-17 | each of the nine saved keys converts to the id of the input its value was read from |
| Page.FormIdsDistinct | scripts/main.mjs:28-36 | the nine inputs have distinct ids |
| Page.EntriesFindInputs | scripts/main.mjs:12-17 | the saved object's keys, in order, name the form's inputs, one each |
| Page.ReadPrefs | scripts/main.mjs:27-37 | every preference field is trimmed |
| Page.Put | scripts/main.mjs:16 | a value is assigned only to an input the page has; no input is added and no other changes |
| Page.RestoreAll | scripts/main.mjs:12-17 | restoring never adds or removes an input |
| Page.RestoreStep | scripts/main.mjs:12-17 | restoring one more key is one more assignment step |
| Page.RestoreAllLookup | scripts/main.mjs:12-17 | after the restore, the input named by each key (if present) holds that key's value |
| Page.RestoreField | scripts/main.mjs:12-37 | after a restore each input reads, trimmed, the value saved under its key, or "" when the page lacks it |
| Page.RestoreThenRead | scripts/main.mjs:8-37 | restoring trimmed preferences and reading the form gives them back, except that missing inputs read "" |
| Page.ReadBack | scripts/main.mjs:27-37 | a form whose nine inputs read, trimmed, as given values yields exactly those preferences |
| Page.ReloadKeepsForm | scripts/main.mjs:8-37 | with every input present, saving what the form reads and restoring it on reload leaves the form reading the same |
| Page.Page.constructor | scripts/main.mjs:8 | the page starts with the given inputs and storage |
| Page.Page.Restore | scripts/main.mjs:8-18 | on load, with saved preferences, the keys are applied in order and only to inputs that exist; without them nothing changes; storage is never written |
| Page.Page.Submit | scripts/main.mjs:24-61 | the handler reads the trimmed form, shows "Finding...", runs the engine and shows the outcome; storage is written only for a non-null movie; the engine cache follows its specification; inputs are unchanged |
| Page.Page.SubmitPrefs | scripts/main.mjs:39-61 | the same, once the form has been read |
| Page.Page.Store | scripts/main.mjs:46-52 | preferences and result are written only when the result is a movie; otherwise storage is unchanged |
| Page.Page.ClickRecommendAnother | scripts/main.mjs:64-80 | a click shows "Finding another...", runs "another", and then shows the warning for null or the error message on failure |
| Page.ClickEvents | scripts/main.mjs:64-80 | definition of what one click shows and sends: "Finding another...", the engine's events, then the warning for null or the error notice; stated by `ClickWarnsIffNoCache` and `LegacyClickMatchesPage` |
| Page.StoreAfter | scripts/main.mjs:44-52 | definition: storage gets the preferences and the movie only when the call returned a movie, otherwise it keeps what it had; stated by `StoredMovieIsCached`, `StoreKeepsTrimmed` and `EmptySearchStoresNothing` |
| Page.StoredMovieIsCached | scripts/main.mjs:44-52 | the stored movie is one of the results the engine cached for those preferences |
| Page.ClickWarnsIffNoCache | scripts/main.mjs:71-75 | the "No cached results" warning appears exactly when the engine has no list or no preferences |
| Page.StoreKeepsTrimmed | scripts/main.mjs:27-52 | storage holds only trimmed preferences, before and after a submit |
| Page.EmptySearchStoresNothing | scripts/main.mjs:44-52 | a search that finds nothing returns null, and then nothing is stored |
| SearchParams.Lookup | scripts/tmdb/proxy.mjs:5-9 | `get` finds nothing exactly when the name is absent; otherwise it returns the first pair with that name |
| SearchParams.Without | scripts/tmdb/proxy.mjs:9 | removing a name leaves no pair with that name |
| SearchParams.Set | scripts/tmdb/proxy.mjs:9 | definition of `URLSearchParams.set`: replace the first pair named `k` and drop the later ones, or append when there is none; stated by the `Set...` lemmas below |
| SearchParams.SetThenLookup | scripts/tmdb/proxy.mjs:9 | after `set(k, v)`, `get(k)` is `v` |
| SearchParams.SetKeepsOthers | scripts/tmdb/proxy.mjs:9 | `set(k, v)` does not change `get` for any other name |
| SearchParams.SetLeavesOne | scripts/tmdb/proxy.mjs:9 | after `set(k, v)` exactly one pair is named `k` |
| SearchParams.SetKeepsOrder | scripts/tmdb/proxy.mjs:9 | pairs with other names keep their values and their order |
| SearchParams.SetAppendsNew | scripts/tmdb/proxy.mjs:9 | a new name is appended after every existing pair |
| SearchParams.SetKeepsPlace | scripts/tmdb/proxy.mjs:9 | an existing name keeps the place of its first pair, and everything before it is untouched |
| SearchParams.SetKeepsUnique | scripts/tmdb/proxy.mjs:9 | `set` keeps the names distinct |
| SearchParams.LookupWithout | scripts/tmdb/proxy.mjs:9 | removing one name does not change `get` for another |
| Proxy.Kept | scripts/tmdb/proxy.mjs:8 | an entry is copied exactly when its value is a string that is not empty (not `undefined`, `null` or "") |
| Proxy.QueryFor | scripts/tmdb/proxy.mjs:5-11 | definition of the query string: `set("path", path)`, then `set(k, v)` for each kept entry in order; stated by `QueryLookup` and `QueryShape` |
| Proxy.BuildQuery | scripts/tmdb/proxy.mjs:5-11 | the loop builds the query-string specification: `path` set first, then each kept entry set in order |
| Proxy.QueryLookup | scripts/tmdb/proxy.mjs:5-11 | each name reads back its last kept value; `path` reads back the route unless an entry named `path` overrides it; dropped entries leave no trace |
| Proxy.QueryShape | scripts/tmdb/proxy.mjs:5-11 | each name occurs once in the query string, and `path` comes first |
| Proxy.ProxyTMDB | scripts/tmdb/proxy.mjs:3-16 | the call sends the query-string specification and returns the body for an ok status, or throws the error naming the status |
| Proxy.OutcomeNamesStatus | scripts/tmdb/proxy.mjs:14-15 | the call fails exactly for a status outside 200..299, and the message is "Proxy/TMDB error: " followed by the status's digits |
| Relay.AllowOriginCases | netlify/functions/tmdb.js:4-8 | Allow-Origin is "*" when no origin is configured; otherwise it is the request origin exactly when that is the configured one, and "null" otherwise |
| Relay.AllowOrigin | netlify/functions/tmdb.js:4-8 | definition of the `Access-Control-Allow-Origin` value; stated by `AllowOriginCases` |
| Relay.PathParam | netlify/functions/tmdb.js:23 | definition: `queryStringParameters?.path`, read as the last entry of that name (the one an object keeps), `undefined` without parameters |
| Relay.ForwardParams | netlify/functions/tmdb.js:35-40 | the loop builds the forwarded-parameters specification |
| Relay.ForwardedShape | netlify/functions/tmdb.js:35-40 | `path` is never forwarded and no name repeats |
| Relay.ForwardedLookup | netlify/functions/tmdb.js:35-40 | every other name forwards its last string value, "" included; `undefined` and `null` are skipped |
| Relay.Forwarded | netlify/functions/tmdb.js:35-40 | definition of the forwarded query string: every entry but `path` whose value is a string, set in order; stated by `ForwardedShape` and `ForwardedLookup` |
| Relay.Handler | netlify/functions/tmdb.js:2-68 | the handler returns the response its specification gives, and calls upstream exactly when the checks pass, with the route and forwarded parameters |
| Relay.Decide | netlify/functions/tmdb.js:14-47 | definition of the handler's checks in source order, answering at once or naming the upstream call; stated by `EarlyAnswers` and `UpstreamCalledWhen` |
| Relay.Handled | netlify/functions/tmdb.js:2-68 | definition of the whole handler as a function of the environment, the event and upstream; stated by `ResponseShape` |
| Relay.EarlyAnswers | netlify/functions/tmdb.js:14-31 | OPTIONS gets 204 with an empty body before any check; other non-GET methods get 405; a bad path gets 400 before the token check; a missing token gets 500 |
| Relay.UpstreamCalledWhen | netlify/functions/tmdb.js:22-42 | upstream is called exactly for a GET with a valid path and a token; the route starts with "/" and the forwarded parameters hold no `path` |
| Relay.ResponseShape | netlify/functions/tmdb.js:49-66 | every response starts with the four CORS headers; an upstream reply keeps its status and body verbatim; a thrown error becomes a 500 "Proxy error: ..." |

## Left out

- I/O is not modelled:
  - fetch, URL objects and `res.json()` are replaced by the `Answers` oracle and the relay function.
  - `localStorage` is two fields of `Page`, and JSON (de)serialisation is not modelled.
  - DOM events are the handlers' method calls.
  - `scrollIntoView` and the `is-loading` class toggle are not modelled.
  - `console.error` is not modelled.
  - Template loading (`loadHeaderFooter`) and `scripts/tmdb/api.mjs` are not modelled; the API wrappers are the five oracle requests.
- HTML rendering is not modelled. A card is a `Rendered` event holding the movie, the lead name and the provider info. A status message is a `Shown` event.
- `Promise.all` is modelled as two requests logged in order, credits then providers. When both fail, the credits error is reported. In the real program, which error wins depends on timing.
- Floating point is replaced by `real`, so there is no rounding and no NaN.
- `Math.random()` is a parameter `u` with `0 <= u < 1`.
- The relay's upstream URL, the Authorization header and the `fetch` options are left out. Only the route and the forwarded parameters reach the upstream function.
- `toLowerCase` is modelled on ASCII letters only.
- `Helpers.Normalize`: `null`/`undefined` inputs are not modelled (`?? ""`). Every caller passes a string: the form fields, titles and provider names.
- The copies of the helpers in `scripts/main.js` (lines 31-33 and 69-116) are the same as `scripts/reco/helpers.mjs`. Both scripts use the one `Helpers` module. The older `proxyTMDB` copy (lines 35-48) is `Proxy`.
- `Page.Page.Restore` restores a saved object with exactly the nine form keys, in the form's order. A hand-edited storage entry with other keys, a different order or non-string values is not modelled, and neither is the JSON parse error it could raise.
- `Legacy.LegacyPage.Submit`: the older handler writes its status messages only when the card container exists. The model assumes that it does.
- `Page.Page.Submit`: a submit that throws before the call (there is none in the source) is not distinguished from the `finally` block, which only clears the loading class.
- Movies, people and payloads keep only the fields the code reads.
- Engine.Engine.RecommendFromTMDB: each call runs as one uninterrupted step. In `scripts/reco/engine.mjs` the alternate scan reads the shared `lastResults` again (line 60) after awaiting the details (line 50). The loading class on the form does not block a second submit, so a second call can overwrite the cache in between, and the first call then scans the second call's list. Overlapping submits are not modelled: the model hands the list it just cached to the tail as a fixed value.
- Legacy.LegacyPage.Recommend: the same holds for `scripts/main.js`, whose scan re-reads `lastResults` (line 200) after the details (line 188). Overlapping submits are not modelled.
