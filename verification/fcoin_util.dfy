/** FCoin's canonical query strings: `sortedBody` renders a `url.Values` as
    `k=v&k=v` with the keys in ascending order and each key's first value, and
    `sortedURI` puts that same string in place of a URL's query. */
module FcoinUtil {
  import opened Wrappers
  import opened Text

  /** Go's `url.Values`: each key maps to the list of values added under it. */
  type Values = map<string, seq<string>>

  /** `url.Values.Get`: the first value of `key`, or "" when it has none. */
  function Get(v: Values, key: string): string {
    if key in v && |v[key]| > 0 then v[key][0] else ""
  }

  // ---------------------------------------------------------------------------
  // Sorted sequences of keys
  // ---------------------------------------------------------------------------

  /** Ascending, possibly with repeats. */
  ghost predicate Sorted(s: seq<string>) {
    forall i, j :: 0 <= i < j < |s| ==> Below(s[i], s[j])
  }

  /** Ascending without repeats. */
  ghost predicate StrictlySorted(s: seq<string>) {
    forall i, j :: 0 <= i < j < |s| ==> Before(s[i], s[j])
  }

  ghost predicate IsLeast(m: string, s: set<string>) {
    m in s && forall x :: x in s ==> Below(m, x)
  }

  lemma {:induction false} LeastExists(s: set<string>)
    requires s != {}
    ensures exists m :: IsLeast(m, s)
    decreases |s|
  {
    var x :| x in s;
    if s - {x} == {} {
      forall y | y in s ensures Below(x, y) {
        assert y !in s - {x};
        BelowReflexive(x);
      }
      assert IsLeast(x, s);
    } else {
      LeastExists(s - {x});
      var m :| IsLeast(m, s - {x});
      BelowTotal(x, m);
      if Below(x, m) {
        forall y | y in s ensures Below(x, y) {
          if y == x { BelowReflexive(x); } else { BelowTransitive(x, m, y); }
        }
        assert IsLeast(x, s);
      } else {
        assert IsLeast(m, s);
      }
    }
  }

  /** The least key of a non-empty set. */
  function Least(s: set<string>): (m: string)
    requires s != {}
    ensures IsLeast(m, s)
  {
    LeastExists(s);
    BelowIsTotalOrder();
    var m :| m in s && forall x :: x in s ==> Below(m, x);
    m
  }

  /** The keys of `s` in ascending order, each once. */
  function SortedKeys(s: set<string>): (r: seq<string>)
    ensures |r| == |s|
    ensures forall x :: x in r <==> x in s
    ensures StrictlySorted(r)
    decreases |s|
  {
    if s == {} then []
    else
      var m := Least(s);
      [m] + SortedKeys(s - {m})
  }

  /** Two strictly ascending sequences with the same elements are the same
      sequence: there is only one sorted order of a set of keys. */
  lemma {:induction false} SortedUnique(a: seq<string>, b: seq<string>)
    requires StrictlySorted(a) && StrictlySorted(b)
    requires forall x :: x in a <==> x in b
    ensures a == b
    decreases |a|
  {
    if |a| == 0 {
      forall x ensures x !in multiset(b) {
        assert x !in a;
      }
      assert multiset(b) == multiset{};
      assert |b| == |multiset(b)|;
    } else {
      assert a[0] in b;
      assert |b| > 0;
      assert b[0] in a;
      if a[0] != b[0] {
        var i :| 0 <= i < |a| && a[i] == b[0];
        var j :| 0 <= j < |b| && b[j] == a[0];
        assert i > 0 && j > 0;
        assert Before(a[0], a[i]) && Before(b[0], b[j]);
        BelowAntisymmetric(a[0], b[0]);
      }
      forall x ensures x in a[1..] <==> x in b[1..] {
        if x in a[1..] {
          var i :| 1 <= i < |a| && a[i] == x;
          assert Before(a[0], a[i]);
          assert x in b;
        }
        if x in b[1..] {
          var j :| 1 <= j < |b| && b[j] == x;
          assert Before(b[0], b[j]);
          assert x in a;
        }
      }
      SortedUnique(a[1..], b[1..]);
      assert a == [a[0]] + a[1..] && b == [b[0]] + b[1..];
    }
  }

  // ---------------------------------------------------------------------------
  // sort.Strings over the keys in map iteration order
  // ---------------------------------------------------------------------------

  lemma ConsSorted(h: string, rest: seq<string>)
    requires Sorted(rest)
    requires forall y :: y in multiset(rest) ==> Below(h, y)
    ensures Sorted([h] + rest)
  {
    forall i, j | 0 <= i < j < |[h] + rest| ensures Below(([h] + rest)[i], ([h] + rest)[j]) {
      if i == 0 {
        assert rest[j - 1] in multiset(rest);
      }
    }
  }

  lemma HeadBelowRest(s: seq<string>)
    requires Sorted(s) && |s| > 0
    ensures forall y :: y in multiset(s[1..]) ==> Below(s[0], y)
  {
    forall y | y in multiset(s[1..]) ensures Below(s[0], y) {
      var k :| 0 <= k < |s[1..]| && s[1..][k] == y;
      assert s[k + 1] == y;
    }
  }

  function Insert(x: string, s: seq<string>): (r: seq<string>)
    requires Sorted(s)
    ensures Sorted(r)
    ensures multiset(r) == multiset(s) + multiset{x}
    decreases |s|
  {
    if |s| == 0 then [x]
    else if Below(x, s[0]) then
      HeadBelowRest(s);
      assert forall y :: y in multiset(s) ==> Below(x, y) by {
        forall y | y in multiset(s) ensures Below(x, y) {
          assert s == [s[0]] + s[1..];
          if y != s[0] {
            BelowTransitive(x, s[0], y);
          }
        }
      }
      ConsSorted(x, s);
      [x] + s
    else
      var rest := Insert(x, s[1..]);
      BelowTotal(x, s[0]);
      HeadBelowRest(s);
      ConsSorted(s[0], rest);
      assert s == [s[0]] + s[1..];
      [s[0]] + rest
  }

  /** Insertion sort, standing for Go's `sort.Strings`. */
  function SortStrings(s: seq<string>): (r: seq<string>)
    ensures Sorted(r)
    ensures multiset(r) == multiset(s)
    decreases |s|
  {
    if |s| == 0 then []
    else
      assert s == [s[0]] + s[1..];
      Insert(s[0], SortStrings(s[1..]))
  }

  /** The keys of `v`, each once, in some order: what ranging over a Go map yields. */
  ghost predicate IterationOrder(order: seq<string>, v: Values) {
    && (forall i, j :: 0 <= i < j < |order| ==> order[i] != order[j])
    && (forall k :: k in order <==> k in v)
  }

  /** Whatever order the map hands out its keys in, sorting them gives the one
      sorted order of the key set. */
  lemma SortIgnoresIterationOrder(order: seq<string>, v: Values)
    requires IterationOrder(order, v)
    ensures SortStrings(order) == SortedKeys(v.Keys)
  {
    var s := SortStrings(order);
    forall x ensures x in s <==> x in v {
      assert x in s <==> x in multiset(s);
      assert x in order <==> x in multiset(order);
    }
    assert StrictlySorted(s) by {
      forall i, j | 0 <= i < j < |s| ensures Before(s[i], s[j]) {
        if s[i] == s[j] {
          var x := s[i];
          assert multiset(order)[x] >= 2 by {
            assert multiset(s)[x] >= 2 by {
              var pre := s[..j];
              assert s == pre + s[j..];
              assert x in multiset(pre) by { assert pre[i] == x; }
              assert x in multiset(s[j..]) by { assert s[j..][0] == x; }
            }
          }
          NoRepeatsCountOne(order, x);
        }
      }
    }
    SortedUnique(s, SortedKeys(v.Keys));
  }

  lemma {:induction false} NoRepeatsCountOne(order: seq<string>, x: string)
    requires forall i, j :: 0 <= i < j < |order| ==> order[i] != order[j]
    ensures multiset(order)[x] <= 1
    decreases |order|
  {
    if |order| > 0 {
      var rest := order[1..];
      assert order == [order[0]] + rest;
      NoRepeatsCountOne(rest, x);
      if order[0] == x {
        assert x !in rest by {
          forall k | 0 <= k < |rest| ensures rest[k] != x {
            assert order[k + 1] == rest[k];
          }
        }
      }
    }
  }

  // ---------------------------------------------------------------------------
  // sortedBody and sortedURI
  // ---------------------------------------------------------------------------

  /** The `k=v` strings of `keys`, in the order given, each key with its
      first value and without any escaping. */
  function KeyValueParts(keys: seq<string>, v: Values): (parts: seq<string>)
    ensures |parts| == |keys|
  {
    seq(|keys|, i requires 0 <= i < |keys| => keys[i] + "=" + Get(v, keys[i]))
  }

  /** `sortedBody`: the canonical `k=v&k=v` string of `v`. */
  function SortedBody(v: Values): (r: string)
    ensures r == "" <==> |v| == 0
  {
    var parts := KeyValueParts(SortedKeys(v.Keys), v);
    assert |parts| > 0 ==> |Join(parts, "&")| > 0 by {
      if |parts| > 0 {
        assert |parts[0]| > 0;
      }
    }
    Join(parts, "&")
  }

  /** `sortedBody` as Go computes it: the keys collected in map iteration
      order, sorted, rendered and joined. */
  function SortedBodyFrom(order: seq<string>, v: Values): string {
    Join(KeyValueParts(SortStrings(order), v), "&")
  }

  /** The canonical string does not depend on the order in which the map
      iterates, and so not on the order in which keys were added. */
  lemma SortedBodyFromAnyOrder(order: seq<string>, v: Values)
    requires IterationOrder(order, v)
    ensures SortedBodyFrom(order, v) == SortedBody(v)
  {
    SortIgnoresIterationOrder(order, v);
  }

  /** The pairs the canonical string lists: every key of `v` once, ascending,
      each with its first value. */
  function Pairs(v: Values): (ps: seq<(string, string)>)
    ensures |ps| == |v|
    ensures forall i :: 0 <= i < |ps| ==> ps[i].0 in v && ps[i].1 == Get(v, ps[i].0)
    ensures forall k :: k in v ==> exists i :: 0 <= i < |ps| && ps[i].0 == k
    ensures forall i, j :: 0 <= i < j < |ps| ==> Before(ps[i].0, ps[j].0)
  {
    var keys := SortedKeys(v.Keys);
    var ps := seq(|keys|, i requires 0 <= i < |keys| => (keys[i], Get(v, keys[i])));
    PairsOfKeys(keys, ps, v);
    ps
  }

  lemma PairsOfKeys(keys: seq<string>, ps: seq<(string, string)>, v: Values)
    requires keys == SortedKeys(v.Keys)
    requires |ps| == |keys|
    requires forall i :: 0 <= i < |ps| ==> ps[i] == (keys[i], Get(v, keys[i]))
    ensures |ps| == |v|
    ensures forall i :: 0 <= i < |ps| ==> ps[i].0 in v && ps[i].1 == Get(v, ps[i].0)
    ensures forall k :: k in v ==> exists i :: 0 <= i < |ps| && ps[i].0 == k
    ensures forall i, j :: 0 <= i < j < |ps| ==> Before(ps[i].0, ps[j].0)
  {
    assert |v.Keys| == |v|;
    forall i | 0 <= i < |ps| ensures ps[i].0 in v && ps[i].1 == Get(v, ps[i].0) {
      assert keys[i] in keys;
    }
    forall k | k in v ensures exists i :: 0 <= i < |ps| && ps[i].0 == k {
      var i :| 0 <= i < |keys| && keys[i] == k;
      assert ps[i].0 == k;
    }
    forall i, j | 0 <= i < j < |ps| ensures Before(ps[i].0, ps[j].0) {
      assert ps[i].0 == keys[i] && ps[j].0 == keys[j];
    }
  }

  /** Reads a canonical string back into its pairs. */
  function ParsePairs(s: string): seq<(string, string)> {
    var parts := if s == "" then [] else Split(s, '&');
    seq(|parts|, i requires 0 <= i < |parts| => ParsePair(parts[i]))
  }

  /** Cuts `k=v` at its first '='. */
  function ParsePair(p: string): (string, string) {
    if |p| == 0 then ("", "")
    else if p[0] == '=' then ("", p[1..])
    else var rest := ParsePair(p[1..]); ([p[0]] + rest.0, rest.1)
  }

  lemma {:induction false} ParsePairRender(k: string, val: string)
    requires '=' !in k
    ensures ParsePair(k + "=" + val) == (k, val)
    decreases |k|
  {
    if |k| > 0 {
      ParsePairRender(k[1..], val);
      assert (k + "=" + val)[1..] == k[1..] + "=" + val;
      assert k == [k[0]] + k[1..];
    } else {
      assert k + "=" + val == "=" + val;
    }
  }

  /** No character of any key or value needs escaping. */
  ghost predicate Plain(v: Values) {
    forall k :: k in v ==> '&' !in k && '=' !in k && '&' !in Get(v, k)
  }

  /** Without escaping the canonical string is unambiguous only when no key
      holds '&' or '=' and no first value holds '&'; then it gives back exactly
      the sorted first-value pairs. */
  lemma SortedBodyParses(v: Values)
    requires Plain(v)
    ensures ParsePairs(SortedBody(v)) == Pairs(v)
  {
    var keys := SortedKeys(v.Keys);
    var parts := KeyValueParts(keys, v);
    var body := SortedBody(v);
    if |v| > 0 {
      assert body == Join(parts, "&") && body != "";
      PartsParse(keys, v);
      SplitJoin(parts, '&');
      var ps := Pairs(v);
      var qs := ParsePairs(body);
      assert |qs| == |parts| == |ps|;
      forall i | 0 <= i < |qs| ensures qs[i] == ps[i] {
        assert qs[i] == ParsePair(parts[i]);
      }
    }
  }

  lemma PartParses(k: string, val: string)
    requires '&' !in k && '=' !in k && '&' !in val
    ensures '&' !in k + "=" + val
    ensures ParsePair(k + "=" + val) == (k, val)
  {
    ParsePairRender(k, val);
  }

  /** Each rendered part of a plain map is free of '&' and cuts back into its pair. */
  lemma PartsParse(keys: seq<string>, v: Values)
    requires Plain(v)
    requires keys == SortedKeys(v.Keys)
    ensures forall i :: 0 <= i < |keys| ==> '&' !in KeyValueParts(keys, v)[i]
    ensures forall i :: 0 <= i < |keys| ==> ParsePair(KeyValueParts(keys, v)[i]) == Pairs(v)[i]
  {
    var parts := KeyValueParts(keys, v);
    var ps := Pairs(v);
    forall i | 0 <= i < |parts| ensures '&' !in parts[i] && ParsePair(parts[i]) == ps[i] {
      assert keys[i] in v;
      assert ps[i] == (keys[i], Get(v, keys[i]));
      PartParses(keys[i], Get(v, keys[i]));
    }
  }

  /** A URL split into everything before the query and the raw query.
      `forceQuery` is Go's `URL.ForceQuery`: the URL ended in a '?' with
      nothing after it, and `String` writes that '?' back. */
  datatype Uri = Uri(base: string, forceQuery: bool, rawQuery: string)

  /** Splits a URL at its first '?' into what comes before and the raw query. */
  function ParseUri(s: string): (u: Uri)
    ensures '?' !in u.base
    ensures '?' !in s ==> u == Uri(s, false, "")
    ensures '?' in s ==> s == u.base + "?" + u.rawQuery
    ensures u.forceQuery <==> '?' in s && u.rawQuery == ""
    decreases |s|
  {
    if |s| == 0 then Uri("", false, "")
    else if s[0] == '?' then
      assert s == "" + "?" + s[1..];
      Uri("", s[1..] == "", s[1..])
    else
      var rest := ParseUri(s[1..]);
      assert '?' in s <==> '?' in s[1..] by {
        assert s == [s[0]] + s[1..];
      }
      assert '?' in s ==> s == ([s[0]] + rest.base) + "?" + rest.rawQuery by {
        if '?' in s {
          calc {
            s;
            [s[0]] + s[1..];
            [s[0]] + (rest.base + "?" + rest.rawQuery);
            ([s[0]] + rest.base) + "?" + rest.rawQuery;
          }
        }
      }
      Uri([s[0]] + rest.base, rest.forceQuery, rest.rawQuery)
  }

  /** `url.URL.String`: the '?' is written when there is a query or when it is forced. */
  function UriString(u: Uri): string {
    if u.forceQuery || u.rawQuery != "" then u.base + "?" + u.rawQuery else u.base
  }

  /** Writing a parsed URL back gives the URL it was parsed from. */
  lemma ParseUriRoundTrip(s: string)
    ensures UriString(ParseUri(s)) == s
  {
  }

  /** `sortedURI`: the URL with its query replaced by the canonical string of
      `params`; with no parameters only a forced '?' is kept. */
  function SortedUri(u: Uri, params: Values): (r: string)
    ensures |params| == 0 ==> r == (if u.forceQuery then u.base + "?" else u.base)
    ensures |params| > 0 ==> r == u.base + "?" + SortedBody(params)
  {
    assert u.base + "?" + "" == u.base + "?";
    UriString(u.(rawQuery := SortedBody(params)))
  }

  /** Whatever query the URL had is dropped, not merged. */
  lemma SortedUriIgnoresOldQuery(u: Uri, q: string, params: Values)
    ensures SortedUri(u, params) == SortedUri(u.(rawQuery := q), params)
  {
  }
}
