/**
 * The pure helpers of the recommendation pipeline: text normalisation, the
 * lead actor, the Canadian ("CA") streaming providers, the scoring heuristic
 * and the choice of the best-scoring movie.
 */
module Helpers {
  import opened Wrappers
  import opened Strings

  // ---------------------------------------------------------------------------
  // Data returned by the movie database
  // ---------------------------------------------------------------------------

  /** A candidate movie. A missing overview or popularity is `None`. */
  datatype Movie = Movie(id: int, title: string, overview: Option<string>, popularity: Option<real>)

  /** One cast entry: its name and its billing order (`None` when absent). */
  datatype CastMember = CastMember(name: string, order: Option<int>)

  /** A credits payload; `cast` is `None` when the field is absent. */
  datatype Credits = Credits(cast: Option<seq<CastMember>>)

  datatype ProviderEntry = ProviderEntry(providerName: string)

  /** The watch-provider entry of one region; each list and the link may be absent. */
  datatype Region = Region(
    flatrate: Option<seq<ProviderEntry>>,
    rent: Option<seq<ProviderEntry>>,
    buy: Option<seq<ProviderEntry>>,
    link: Option<string>)

  /** A watch-providers payload: regions by country code, or no `results` at all. */
  datatype ProvidersPayload = ProvidersPayload(results: Option<map<string, Region>>)

  /** What the widget keeps of the Canadian providers: three name lists and a link. */
  datatype ProviderInfo = ProviderInfo(flatrate: seq<string>, rent: seq<string>, buy: seq<string>, link: string)

  /** The user's preferences, one string per form field. */
  datatype Prefs = Prefs(
    favoriteMovie: string,
    favoriteGenre: string,
    favoriteActor: string,
    streamingService: string,
    releaseYear: string,
    minRating: string,
    runtime: string,
    language: string,
    sortBy: string)

  // ---------------------------------------------------------------------------
  // normalize
  // ---------------------------------------------------------------------------

  /** `(s ?? "").trim().toLowerCase()`: no space at either end and no upper-case letter. */
  function Normalize(s: string): (r: string)
    ensures Trimmed(r)
    ensures forall i :: 0 <= i < |r| ==> !IsUpper(r[i])
  {
    var t := Trim(s);
    var r := Lower(t);
    assert r != [] ==> r[0] == LowerChar(t[0]) && r[|r| - 1] == LowerChar(t[|t| - 1]);
    r
  }

  /** Normalising twice is normalising once. */
  lemma NormalizeIdempotent(s: string)
    ensures Normalize(Normalize(s)) == Normalize(s)
  {
    var n := Normalize(s);
    TrimOfTrimmed(n);
    LowerOfLower(n);
  }

  /** Lowering a string that has no upper-case letter leaves it unchanged. */
  lemma LowerOfLower(s: string)
    requires forall i :: 0 <= i < |s| ==> !IsUpper(s[i])
    ensures Lower(s) == s
  {
  }

  // ---------------------------------------------------------------------------
  // getLeadFromCredits
  // ---------------------------------------------------------------------------

  /** The sort key `(order ?? 999)`. */
  function BillingKey(m: CastMember): int {
    m.order.GetOr(999)
  }

  /** `i` is the first entry of `cast` with the least billing key: the head of a stable ascending sort. */
  predicate IsLead(cast: seq<CastMember>, i: int) {
    && 0 <= i < |cast|
    && (forall j :: 0 <= j < |cast| ==> BillingKey(cast[i]) <= BillingKey(cast[j]))
    && (forall j :: 0 <= j < i ==> BillingKey(cast[j]) > BillingKey(cast[i]))
  }

  /** The position of the lead: the first entry with the least billing key. */
  function LeadIndex(cast: seq<CastMember>): (i: nat)
    requires cast != []
    ensures IsLead(cast, i)
  {
    if |cast| == 1 then 0
    else
      var k := LeadIndex(cast[1..]) + 1;
      assert forall j :: 1 <= j < |cast| ==> cast[1..][j - 1] == cast[j];
      if BillingKey(cast[0]) <= BillingKey(cast[k]) then 0 else k
  }

  /** At most one position is the lead. */
  lemma LeadUnique(cast: seq<CastMember>, i: int, j: int)
    requires IsLead(cast, i) && IsLead(cast, j)
    ensures i == j
  {
    assert BillingKey(cast[i]) == BillingKey(cast[j]);
  }

  /** The placeholder shown when no lead name is known. */
  const NoLead: string := "\U{2014}"

  /**
   * `getLeadFromCredits`: the name of the lead, or the placeholder when the cast
   * is absent or empty or the lead's name is empty.
   */
  function LeadFromCredits(credits: Credits): (r: string)
    ensures credits.cast.None? || credits.cast.value == [] ==> r == NoLead
    ensures credits.cast.Some? && credits.cast.value != [] ==>
      exists i :: IsLead(credits.cast.value, i) &&
        r == (if credits.cast.value[i].name == "" then NoLead else credits.cast.value[i].name)
  {
    var cast := credits.cast.GetOr([]);
    if cast == [] then NoLead
    else
      var lead := cast[LeadIndex(cast)];
      if lead.name == "" then NoLead else lead.name
  }

  // ---------------------------------------------------------------------------
  // providersForCA
  // ---------------------------------------------------------------------------

  /** `list?.map(p => p.provider_name) ?? []`. */
  function Names(list: Option<seq<ProviderEntry>>): (r: seq<string>)
    ensures list.None? ==> r == []
    ensures list.Some? ==> |r| == |list.value| && forall i :: 0 <= i < |r| ==> r[i] == list.value[i].providerName
  {
    match list
    case None => []
    case Some(ps) => seq(|ps|, i requires 0 <= i < |ps| => ps[i].providerName)
  }

  /** The region whose providers the widget shows. */
  const RegionCode: string := "CA"

  /** `providersPayload?.results?.CA`. */
  function CanadianRegion(p: ProvidersPayload): Option<Region> {
    if p.results.Some? && RegionCode in p.results.value then Some(p.results.value[RegionCode]) else None
  }

  /**
   * `providersForCA`: without a Canadian entry three empty lists and link "";
   * otherwise each list holds the provider names of the matching list, in order.
   */
  function ProvidersForCA(p: ProvidersPayload): (r: ProviderInfo)
    ensures CanadianRegion(p).None? ==> r == ProviderInfo([], [], [], "")
    ensures CanadianRegion(p).Some? ==>
      var ca := CanadianRegion(p).value;
      && r.flatrate == Names(ca.flatrate) && r.rent == Names(ca.rent) && r.buy == Names(ca.buy)
      && r.link == ca.link.GetOr("")
  {
    match CanadianRegion(p)
    case None => ProviderInfo([], [], [], "")
    case Some(ca) => ProviderInfo(Names(ca.flatrate), Names(ca.rent), Names(ca.buy), ca.link.GetOr(""))
  }

  /** `names.some(n => normalize(n) === service)`, checked front to back. */
  predicate SomeNormalizesTo(names: seq<string>, service: string) {
    if names == [] then false else Normalize(names[0]) == service || SomeNormalizesTo(names[1..], service)
  }

  /** The flatrate list offers `service`. */
  predicate Offers(info: ProviderInfo, service: string) {
    SomeNormalizesTo(info.flatrate, service)
  }

  /** The front-to-back search succeeds exactly when some name normalizes to `service`. */
  lemma {:induction false} SomeNormalizesToIff(names: seq<string>, service: string)
    ensures SomeNormalizesTo(names, service) <==> exists i :: 0 <= i < |names| && Normalize(names[i]) == service
  {
    if names != [] {
      SomeNormalizesToIff(names[1..], service);
      if SomeNormalizesTo(names[1..], service) {
        var i :| 0 <= i < |names[1..]| && Normalize(names[1..][i]) == service;
        assert Normalize(names[i + 1]) == service;
      }
      if exists i :: 0 <= i < |names| && Normalize(names[i]) == service {
        var i :| 0 <= i < |names| && Normalize(names[i]) == service;
        if i > 0 {
          assert names[1..][i - 1] == names[i];
        }
      }
    }
  }

  // ---------------------------------------------------------------------------
  // scoreMovieResult
  // ---------------------------------------------------------------------------

  /** The text the genre keyword is looked for in: `normalize(title + " " + (overview ?? ""))`. */
  function Haystack(m: Movie): string {
    Normalize(m.title + " " + m.overview.GetOr(""))
  }

  /** The genre keyword is non-empty and occurs in the movie's title or overview. */
  predicate GenreMatches(m: Movie, p: Prefs) {
    var genre := Normalize(p.favoriteGenre);
    genre != "" && Contains(Haystack(m), genre)
  }

  /** The movie is the user's own stated favourite. */
  predicate IsFavorite(m: Movie, p: Prefs) {
    p.favoriteMovie != "" && Normalize(m.title) == Normalize(p.favoriteMovie)
  }

  /** `Math.min(2, (popularity ?? 0) / 50)`. */
  function PopularityBonus(m: Movie): (r: real)
    ensures r <= 2.0
  {
    var x := m.popularity.GetOr(0.0) / 50.0;
    if 2.0 <= x then 2.0 else x
  }

  /** `scoreMovieResult`: the score accumulated step by step as the source does. */
  function Score(m: Movie, p: Prefs): real {
    var score := 0.0;
    var score := if GenreMatches(m, p) then score + 2.0 else score;
    var score := if IsFavorite(m, p) then score - 3.0 else score;
    var score := score + PopularityBonus(m);
    if HasService(p) then score + 0.2 else score
  }

  /** A streaming service is given: it normalises to a non-empty name. */
  predicate HasService(p: Prefs) {
    Normalize(p.streamingService) != ""
  }

  /** The +0.2 that every movie gets when a streaming service is given. */
  function ServiceBonus(p: Prefs): real {
    if HasService(p) then 0.2 else 0.0
  }

  /** The score is the sum of its four parts. */
  lemma ScoreParts(m: Movie, p: Prefs)
    ensures Score(m, p) ==
      (if GenreMatches(m, p) then 2.0 else 0.0) - (if IsFavorite(m, p) then 3.0 else 0.0) + PopularityBonus(m) + ServiceBonus(p)
  {
  }

  /** The score never exceeds 2 + 2 + 0.2: the popularity part is capped at 2. */
  lemma ScoreAtMost(m: Movie, p: Prefs)
    ensures Score(m, p) <= 4.2
  {
    ScoreParts(m, p);
    assert PopularityBonus(m) <= 2.0;
  }

  /** The genre bonus is worth exactly 2: between two movies with the same title and popularity. */
  lemma GenreMatchWorthTwo(m: Movie, n: Movie, p: Prefs)
    requires m.title == n.title && m.popularity == n.popularity
    requires GenreMatches(m, p) && !GenreMatches(n, p)
    ensures Score(m, p) == Score(n, p) + 2.0
  {
    ScoreParts(m, p);
    ScoreParts(n, p);
    SameScoreInputs(m, n, p);
  }

  /** Movies with equal titles and popularity agree on the favourite test and the popularity bonus. */
  lemma SameScoreInputs(m: Movie, n: Movie, p: Prefs)
    requires m.title == n.title && m.popularity == n.popularity
    ensures IsFavorite(m, p) == IsFavorite(n, p) && PopularityBonus(m) == PopularityBonus(n)
  {
  }

  /** A movie whose title is the favourite scores exactly 3 less than one that is not, all else equal. */
  lemma FavoriteCostsThree(m: Movie, n: Movie, p: Prefs)
    requires m.popularity == n.popularity && GenreMatches(m, p) == GenreMatches(n, p)
    requires IsFavorite(m, p) && !IsFavorite(n, p)
    ensures Score(m, p) == Score(n, p) - 3.0
  {
    ScoreParts(m, p);
    ScoreParts(n, p);
    assert PopularityBonus(m) == PopularityBonus(n);
  }

  /** A more popular movie never scores lower than one with the same title and overview. */
  lemma PopularityMonotone(m: Movie, n: Movie, p: Prefs)
    requires m.title == n.title && m.overview == n.overview
    requires m.popularity.GetOr(0.0) <= n.popularity.GetOr(0.0)
    ensures Score(m, p) <= Score(n, p)
  {
    ScoreParts(m, p);
    ScoreParts(n, p);
    assert GenreMatches(m, p) == GenreMatches(n, p);
    assert IsFavorite(m, p) == IsFavorite(n, p);
    assert PopularityBonus(m) <= PopularityBonus(n);
  }

  /** The streaming-service bonus is the same for every movie. */
  lemma ServiceBonusUniform(m: Movie, p: Prefs)
    ensures Score(m, p) == Score(m, p.(streamingService := "")) + ServiceBonus(p)
  {
    var q := p.(streamingService := "");
    assert q.favoriteGenre == p.favoriteGenre && q.favoriteMovie == p.favoriteMovie;
    assert GenreMatches(m, q) == GenreMatches(m, p);
    assert IsFavorite(m, q) == IsFavorite(m, p);
    assert !HasService(q);
    ScoreParts(m, p);
    ScoreParts(m, q);
  }

  // ---------------------------------------------------------------------------
  // pickBestMovie
  // ---------------------------------------------------------------------------

  /** `i` is the first position of a highest score: the head of a stable descending sort. */
  predicate IsBest(results: seq<Movie>, p: Prefs, i: int) {
    && 0 <= i < |results|
    && (forall j :: 0 <= j < |results| ==> Score(results[j], p) <= Score(results[i], p))
    && (forall j :: 0 <= j < i ==> Score(results[j], p) < Score(results[i], p))
  }

  /** The position of the first highest-scoring movie. */
  function BestIndex(results: seq<Movie>, p: Prefs): (i: nat)
    requires results != []
    ensures IsBest(results, p, i)
  {
    if |results| == 1 then 0
    else
      var k := BestIndex(results[1..], p) + 1;
      assert forall j :: 1 <= j < |results| ==> results[1..][j - 1] == results[j];
      if Score(results[k], p) <= Score(results[0], p) then 0 else k
  }

  /** At most one position is the first highest-scoring one. */
  lemma BestUnique(results: seq<Movie>, p: Prefs, i: int, j: int)
    requires IsBest(results, p, i) && IsBest(results, p, j)
    ensures i == j
  {
    assert Score(results[i], p) == Score(results[j], p);
  }

  /**
   * `pickBestMovie`: `None` for an empty list; otherwise an element of the list
   * scoring at least as high as every other, and the first such.
   */
  function PickBestMovie(results: seq<Movie>, p: Prefs): (r: Option<Movie>)
    ensures r.None? <==> results == []
    ensures r.Some? ==> exists i :: IsBest(results, p, i) && r.value == results[i]
  {
    if results == [] then None else Some(results[BestIndex(results, p)])
  }

  /** Dropping the streaming service (and so its uniform bonus) never changes the pick. */
  lemma {:induction false} BestIndexIgnoresService(results: seq<Movie>, p: Prefs)
    requires results != []
    ensures BestIndex(results, p) == BestIndex(results, p.(streamingService := ""))
  {
    if |results| > 1 {
      BestIndexIgnoresService(results[1..], p);
      var k := BestIndex(results[1..], p) + 1;
      ServiceBonusUniform(results[k], p);
      ServiceBonusUniform(results[0], p);
    }
  }

  /** The streaming service never changes which movie `pickBestMovie` returns. */
  lemma PickIgnoresService(results: seq<Movie>, p: Prefs)
    ensures PickBestMovie(results, p) == PickBestMovie(results, p.(streamingService := ""))
  {
    if results != [] {
      BestIndexIgnoresService(results, p);
    }
  }
}
