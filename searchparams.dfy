/**
 * The query string of a URL as `URLSearchParams` keeps it: an ordered list of
 * name/value pairs in which a name may repeat. `get` reads the first value of
 * a name; `set` follows the URL Standard (section 6.2, "URLSearchParams
 * class"): the first pair with that name gets the new value and every later
 * pair with that name is removed; a name not present is appended at the end.
 */
module SearchParams {
  import opened Wrappers

  type Params = seq<(string, string)>

  /** A JavaScript parameter value as the callers pass it: `undefined`, `null` or a string. */
  datatype JsValue = Undefined | Null | Str(s: string)

  predicate HasKey(ps: Params, k: string) {
    exists i :: 0 <= i < |ps| && ps[i].0 == k
  }

  /** No name occurs twice. */
  predicate UniqueKeys(ps: Params) {
    forall i, j :: 0 <= i < j < |ps| ==> ps[i].0 != ps[j].0
  }

  /** The number of pairs named `k`. */
  function Count(ps: Params, k: string): nat {
    if ps == [] then 0 else (if ps[0].0 == k then 1 else 0) + Count(ps[1..], k)
  }

  /** `params.get(k)`: the value of the first pair named `k`, if any. */
  function Lookup(ps: Params, k: string): (r: Option<string>)
    ensures r.None? <==> !HasKey(ps, k)
    ensures r.Some? ==> exists i :: 0 <= i < |ps| && ps[i] == (k, r.value) && forall j :: 0 <= j < i ==> ps[j].0 != k
  {
    if ps == [] then None
    else if ps[0].0 == k then Some(ps[0].1)
    else
      var r := Lookup(ps[1..], k);
      if r.Some? then
        var i :| 0 <= i < |ps[1..]| && ps[1..][i] == (k, r.value) && forall j :: 0 <= j < i ==> ps[1..][j].0 != k;
        assert ps[i + 1] == (k, r.value);
        assert forall j :: 0 < j < i + 1 ==> ps[j].0 == ps[1..][j - 1].0;
        r
      else
        assert forall i :: 0 < i < |ps| ==> ps[i] == ps[1..][i - 1];
        r
  }

  /** The pairs not named `k`, in their order. */
  function Without(ps: Params, k: string): (r: Params)
    ensures |r| <= |ps|
    ensures !HasKey(r, k)
  {
    if ps == [] then []
    else if ps[0].0 == k then Without(ps[1..], k)
    else [ps[0]] + Without(ps[1..], k)
  }

  /** `params.set(k, v)`. */
  function Set(ps: Params, k: string, v: string): Params {
    if ps == [] then [(k, v)]
    else if ps[0].0 == k then [(k, v)] + Without(ps[1..], k)
    else [ps[0]] + Set(ps[1..], k, v)
  }

  /** Removing `k` leaves the pairs with any other name where they were. */
  lemma {:induction false} LookupWithout(ps: Params, k: string, other: string)
    requires other != k
    ensures Lookup(Without(ps, k), other) == Lookup(ps, other)
  {
    if ps != [] {
      LookupWithout(ps[1..], k, other);
    }
  }

  lemma {:induction false} CountWithout(ps: Params, k: string)
    ensures Count(Without(ps, k), k) == 0
  {
    if ps != [] {
      CountWithout(ps[1..], k);
    }
  }

  lemma {:induction false} WithoutTwice(ps: Params, k: string)
    ensures Without(Without(ps, k), k) == Without(ps, k)
  {
    if ps != [] {
      WithoutTwice(ps[1..], k);
    }
  }

  /** After `set(k, v)`, `get(k)` is `v`. */
  lemma {:induction false} SetThenLookup(ps: Params, k: string, v: string)
    ensures Lookup(Set(ps, k, v), k) == Some(v)
  {
    if ps != [] && ps[0].0 != k {
      SetThenLookup(ps[1..], k, v);
    }
  }

  /** `set(k, v)` does not change what `get` answers for any other name. */
  lemma {:induction false} SetKeepsOthers(ps: Params, k: string, v: string, other: string)
    requires other != k
    ensures Lookup(Set(ps, k, v), other) == Lookup(ps, other)
  {
    if ps == [] {
    } else if ps[0].0 == k {
      LookupWithout(ps[1..], k, other);
    } else {
      SetKeepsOthers(ps[1..], k, v, other);
    }
  }

  /** After `set(k, v)` exactly one pair is named `k`. */
  lemma {:induction false} SetLeavesOne(ps: Params, k: string, v: string)
    ensures Count(Set(ps, k, v), k) == 1
  {
    if ps == [] {
    } else if ps[0].0 == k {
      CountWithout(ps[1..], k);
    } else {
      SetLeavesOne(ps[1..], k, v);
    }
  }

  /** The pairs with other names, and their order, are exactly as before `set(k, v)`. */
  lemma {:induction false} SetKeepsOrder(ps: Params, k: string, v: string)
    ensures Without(Set(ps, k, v), k) == Without(ps, k)
  {
    if ps == [] {
    } else if ps[0].0 == k {
      WithoutTwice(ps[1..], k);
    } else {
      SetKeepsOrder(ps[1..], k, v);
    }
  }

  /** A name not present is appended after every existing pair. */
  lemma {:induction false} SetAppendsNew(ps: Params, k: string, v: string)
    requires !HasKey(ps, k)
    ensures Set(ps, k, v) == ps + [(k, v)]
  {
    if ps != [] {
      assert !HasKey(ps[1..], k) by {
        forall i | 0 <= i < |ps[1..]| ensures ps[1..][i].0 != k {
          assert ps[1..][i] == ps[i + 1];
        }
      }
      SetAppendsNew(ps[1..], k, v);
    }
  }

  /** A name already present keeps the place of its first pair, with everything before it untouched. */
  lemma {:induction false} SetKeepsPlace(ps: Params, k: string, v: string) returns (i: nat)
    requires HasKey(ps, k)
    ensures i < |ps| && ps[i].0 == k && forall j :: 0 <= j < i ==> ps[j].0 != k
    ensures i < |Set(ps, k, v)| && Set(ps, k, v)[..i] == ps[..i] && Set(ps, k, v)[i] == (k, v)
  {
    if ps[0].0 == k {
      i := 0;
    } else {
      assert HasKey(ps[1..], k) by {
        var n :| 0 <= n < |ps| && ps[n].0 == k;
        assert ps[1..][n - 1] == ps[n];
      }
      var i' := SetKeepsPlace(ps[1..], k, v);
      i := i' + 1;
      assert forall j :: 0 < j < i ==> ps[j] == ps[1..][j - 1];
      assert Set(ps, k, v)[..i] == [ps[0]] + Set(ps[1..], k, v)[..i'];
    }
  }

  /** `set` keeps a list of distinct names distinct. */
  lemma SetKeepsUnique(ps: Params, k: string, v: string)
    requires UniqueKeys(ps)
    ensures UniqueKeys(Set(ps, k, v))
  {
    var r := Set(ps, k, v);
    forall i, j | 0 <= i < j < |r| ensures r[i].0 != r[j].0 {
      UniqueCount(r, i, j);
      SetLeavesOneOrFewer(ps, k, v, r[i].0);
    }
  }

  // The helpers below exist for SetKeepsUnique.

  /** Two pairs with the same name make that name's count at least two. */
  lemma {:induction false} UniqueCount(ps: Params, i: nat, j: nat)
    requires i < j < |ps|
    ensures ps[i].0 == ps[j].0 ==> Count(ps, ps[i].0) >= 2
  {
    if i > 0 {
      UniqueCount(ps[1..], i - 1, j - 1);
    } else if ps[0].0 == ps[j].0 {
      CountAtLeastOne(ps[1..], j - 1);
    }
  }

  lemma {:induction false} CountAtLeastOne(ps: Params, j: nat)
    requires j < |ps|
    ensures Count(ps, ps[j].0) >= 1
  {
    if j > 0 {
      CountAtLeastOne(ps[1..], j - 1);
    }
  }

  /** Distinct names occur at most once each. */
  lemma {:induction false} UniqueCountAtMostOne(ps: Params, name: string)
    requires UniqueKeys(ps)
    ensures Count(ps, name) <= 1
  {
    if ps != [] {
      assert UniqueKeys(ps[1..]) by {
        forall i, j | 0 <= i < j < |ps[1..]| ensures ps[1..][i].0 != ps[1..][j].0 {
          assert ps[1..][i] == ps[i + 1] && ps[1..][j] == ps[j + 1];
        }
      }
      UniqueCountAtMostOne(ps[1..], name);
      if ps[0].0 == name && Count(ps[1..], name) == 1 {
        CountPositive(ps[1..], name);
      }
    }
  }

  lemma {:induction false} CountPositive(ps: Params, name: string)
    requires Count(ps, name) >= 1
    ensures exists i :: 0 <= i < |ps| && ps[i].0 == name
  {
    if ps[0].0 != name {
      CountPositive(ps[1..], name);
      var i :| 0 <= i < |ps[1..]| && ps[1..][i].0 == name;
      assert ps[i + 1] == ps[1..][i];
    }
  }

  lemma {:induction false} CountWithoutOther(ps: Params, k: string, name: string)
    requires name != k
    ensures Count(Without(ps, k), name) == Count(ps, name)
  {
    if ps != [] {
      CountWithoutOther(ps[1..], k, name);
    }
  }

  /** After `set(k, v)` on distinct names, every name occurs at most once. */
  lemma {:induction false} SetLeavesOneOrFewer(ps: Params, k: string, v: string, name: string)
    requires UniqueKeys(ps)
    ensures Count(Set(ps, k, v), name) <= 1
  {
    if name == k {
      SetLeavesOne(ps, k, v);
    } else {
      SetCountOther(ps, k, v, name);
      UniqueCountAtMostOne(ps, name);
    }
  }

  lemma {:induction false} SetCountOther(ps: Params, k: string, v: string, name: string)
    requires name != k
    ensures Count(Set(ps, k, v), name) == Count(ps, name)
  {
    if ps == [] {
    } else if ps[0].0 == k {
      CountWithoutOther(ps[1..], k, name);
    } else {
      SetCountOther(ps[1..], k, v, name);
    }
  }
}
