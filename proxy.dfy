/**
 * The browser side of the relay, `proxyTMDB(path, params)`: build the query
 * string of the relay URL (`path` first, then every parameter with a
 * non-empty value), ask the relay, and turn a response whose status is not
 * in 200..299 into an error that names the status.
 */
module Proxy {
  import opened Wrappers
  import opened Strings
  import opened SearchParams

  /** A parameter is copied when it is neither `undefined` nor `null` and its text is not empty. */
  function Kept(v: JsValue): (r: Option<string>)
    ensures r.Some? <==> v.Str? && v.s != ""
    ensures r.Some? ==> r.value == v.s
  {
    if v.Str? && v.s != "" then Some(v.s) else None
  }

  /** The query string after `set("path", path)` and the loop over `params`, in order. */
  function QueryFor(path: string, params: seq<(string, JsValue)>): Params
    decreases |params|
  {
    if params == [] then Set([], "path", path)
    else
      var q := QueryFor(path, params[..|params| - 1]);
      var (k, v) := params[|params| - 1];
      if Kept(v).Some? then Set(q, k, Kept(v).value) else q
  }

  /** The value of the last parameter named `k` that is copied, if any. */
  function LastKept(params: seq<(string, JsValue)>, k: string): Option<string>
    decreases |params|
  {
    if params == [] then None
    else
      var (k', v) := params[|params| - 1];
      if k' == k && Kept(v).Some? then Kept(v) else LastKept(params[..|params| - 1], k)
  }

  /** The loop of `proxyTMDB` that fills the query string. */
  method BuildQuery(path: string, params: seq<(string, JsValue)>) returns (q: Params)
    ensures q == QueryFor(path, params)
  {
    q := Set([], "path", path);
    for i := 0 to |params|
      invariant q == QueryFor(path, params[..i])
    {
      assert params[..i + 1][..i] == params[..i];
      var (k, v) := params[i];
      if v.Str? && v.s != "" {
        q := Set(q, k, v.s);
      }
    }
    assert params[..|params|] == params;
  }

  /**
   * Every name reads back the last copied value given for it; `path` reads
   * back the route unless a parameter of that name overrides it; a parameter
   * that is `undefined`, `null` or empty leaves no trace.
   */
  lemma {:induction false} QueryLookup(path: string, params: seq<(string, JsValue)>, k: string)
    ensures Lookup(QueryFor(path, params), k) == if k == "path" then Some(LastKept(params, k).GetOr(path)) else LastKept(params, k)
    decreases |params|
  {
    if params == [] {
      SetThenLookup([], "path", path);
    } else {
      var init := params[..|params| - 1];
      QueryLookup(path, init, k);
      var (k', v) := params[|params| - 1];
      if Kept(v).Some? {
        if k' == k {
          SetThenLookup(QueryFor(path, init), k, Kept(v).value);
        } else {
          SetKeepsOthers(QueryFor(path, init), k', Kept(v).value, k);
        }
      }
    }
  }

  /** The query string names each parameter once, and `path` comes first. */
  lemma {:induction false} QueryShape(path: string, params: seq<(string, JsValue)>)
    ensures UniqueKeys(QueryFor(path, params))
    ensures |QueryFor(path, params)| > 0 && QueryFor(path, params)[0].0 == "path"
    decreases |params|
  {
    if params == [] {
    } else {
      var init := params[..|params| - 1];
      QueryShape(path, init);
      var (k, v) := params[|params| - 1];
      if Kept(v).Some? {
        SetKeepsUnique(QueryFor(path, init), k, Kept(v).value);
      }
    }
  }

  /** What the relay answers: an HTTP status and the parsed JSON body. */
  datatype Response<T> = Response(status: nat, body: T)

  /** `res.ok`. */
  predicate Ok(status: nat) {
    200 <= status <= 299
  }

  const ErrorPrefix := "Proxy/TMDB error: "

  /** The body of an ok response, otherwise the error naming the status. */
  function Outcome<T>(res: Response<T>): Result<T, string> {
    if Ok(res.status) then Success(res.body) else Failure(ErrorPrefix + Decimal(res.status))
  }

  /**
   * `proxyTMDB`: the query string actually sent and what the call returns or
   * throws. The relay is the function `relay`, from query string to response.
   */
  method ProxyTMDB<T>(path: string, params: seq<(string, JsValue)>, relay: Params -> Response<T>)
    returns (sent: Params, r: Result<T, string>)
    ensures sent == QueryFor(path, params)
    ensures r == Outcome(relay(sent))
  {
    sent := BuildQuery(path, params);
    var res := relay(sent);
    if !Ok(res.status) {
      return sent, Failure(ErrorPrefix + Decimal(res.status));
    }
    r := Success(res.body);
  }

  /** A call fails exactly on a status outside 200..299, and the status can be read back from the message. */
  lemma OutcomeNamesStatus<T>(res: Response<T>)
    ensures Outcome(res).Failure? <==> !(200 <= res.status <= 299)
    ensures Outcome(res).Failure? ==>
      var e := Outcome(res).error;
      && |e| > |ErrorPrefix| && e[..|ErrorPrefix|] == ErrorPrefix
      && AllDigits(e[|ErrorPrefix|..]) && DigitsValue(e[|ErrorPrefix|..]) == res.status
  {
    if !Ok(res.status) {
      var e := Outcome(res).error;
      assert e[|ErrorPrefix|..] == Decimal(res.status);
      DecimalValue(res.status);
    }
  }
}
