/** The request-building part of `makeGetRequest`: flattening a parameter
    object into query pairs, the query string, the full URL and the
    `Authorization` header. The `fetch` itself is not modelled. */
module BaseApi {
  import opened Wrappers
  import opened Params
  import opened Strings
  import LocalStorage

  /** `value === null || value === undefined` */
  predicate IsNullish(v: Value) {
    v.Null? || v.Undefined?
  }

  /** The `[key, value]` pairs that one object entry contributes: none for a
      nullish value, one per element for an array, the entry itself otherwise. */
  function EntryPairs<K>(e: Entry<K>): (pairs: seq<Entry<K>>)
    ensures IsNullish(e.1) ==> pairs == []
    ensures e.1.Arr? ==> |pairs| == |e.1.items|
    ensures e.1.Arr? ==> forall i :: 0 <= i < |pairs| ==> pairs[i] == (e.0, e.1.items[i])
    ensures !IsNullish(e.1) && !e.1.Arr? ==> pairs == [e]
  {
    if IsNullish(e.1) then []
    else if e.1.Arr? then seq(|e.1.items|, i requires 0 <= i < |e.1.items| => (e.0, e.1.items[i]))
    else [e]
  }

  /** `normalizedParams`: the entries of the object, nullish values dropped,
      arrays spread into one pair per element. */
  function NormalizedParams<K>(p: Params<K>): seq<Entry<K>> {
    if p == [] then [] else EntryPairs(p[0]) + NormalizedParams(p[1..])
  }

  /** The pairs carrying key `k`, in order. */
  function PairsWithKey<K(==)>(pairs: seq<Entry<K>>, k: K): (r: seq<Entry<K>>)
    ensures |r| <= |pairs|
    ensures forall i :: 0 <= i < |r| ==> r[i].0 == k
  {
    if pairs == [] then []
    else (if pairs[0].0 == k then [pairs[0]] else []) + PairsWithKey(pairs[1..], k)
  }

  /** Flattening works entry by entry: the pairs of earlier entries come
      before those of later ones, so key order is kept. */
  lemma {:induction false} NormalizedParamsAppend<K>(a: Params<K>, b: Params<K>)
    ensures NormalizedParams(a + b) == NormalizedParams(a) + NormalizedParams(b)
  {
    if a == [] {
      assert a + b == b;
    } else {
      assert (a + b)[1..] == a[1..] + b;
      NormalizedParamsAppend(a[1..], b);
      assert (a + b)[0] == a[0];
    }
  }

  lemma {:induction false} PairsWithKeyAppend<K>(a: seq<Entry<K>>, b: seq<Entry<K>>, k: K)
    ensures PairsWithKey(a + b, k) == PairsWithKey(a, k) + PairsWithKey(b, k)
  {
    if a == [] {
      assert a + b == b;
    } else {
      assert (a + b)[1..] == a[1..] + b;
      PairsWithKeyAppend(a[1..], b, k);
      assert (a + b)[0] == a[0];
    }
  }

  lemma {:induction false} PairsWithKeyUniform<K>(pairs: seq<Entry<K>>, key: K, k: K)
    requires forall i :: 0 <= i < |pairs| ==> pairs[i].0 == key
    ensures PairsWithKey(pairs, k) == if key == k then pairs else []
  {
    if pairs != [] {
      PairsWithKeyUniform(pairs[1..], key, k);
      assert [pairs[0]] + pairs[1..] == pairs;
    }
  }

  /** The query pairs under one key of an object are exactly what its value
      asks for: none when the key is absent, `null` or `undefined`; one per
      element, in order, for an array (none for an empty one); the value
      itself for a scalar. */
  lemma {:induction false} PairsForKey<K>(p: Params<K>, k: K)
    requires DistinctKeys(p)
    ensures Get(p, k).None? ==> PairsWithKey(NormalizedParams(p), k) == []
    ensures Get(p, k).Some? ==> PairsWithKey(NormalizedParams(p), k) == EntryPairs((k, Get(p, k).value))
  {
    if p != [] {
      PairsWithKeyAppend(EntryPairs(p[0]), NormalizedParams(p[1..]), k);
      PairsForKey(p[1..], k);
      PairsWithKeyUniform(EntryPairs(p[0]), p[0].0, k);
      if p[0].0 == k {
        assert Get(p[1..], k).None?;
      }
    }
  }

  /** The query is empty exactly when every value is nullish or an empty array. */
  lemma {:induction false} NormalizedParamsEmpty<K>(p: Params<K>)
    ensures NormalizedParams(p) == [] <==>
            forall i :: 0 <= i < |p| ==> IsNullish(p[i].1) || p[i].1 == Arr([])
  {
    if p != [] {
      NormalizedParamsEmpty(p[1..]);
      assert forall i :: 1 <= i < |p| ==> p[i] == p[1..][i - 1];
    }
  }

  /** One `key=value` item of the query string: `keyText` is the
      form-urlencoded property name and `valueText` the form-urlencoded
      `String(v)`. */
  function PairText<K>(e: Entry<K>, keyText: K -> string, valueText: Value -> string): string {
    keyText(e.0) + "=" + valueText(e.1)
  }

  /** `new URLSearchParams(pairs).toString()` */
  function QueryString<K>(pairs: seq<Entry<K>>, keyText: K -> string, valueText: Value -> string): (q: string)
    ensures q == [] <==> pairs == []
  {
    if pairs == [] then []
    else
      PairText(pairs[0], keyText, valueText)
      + (if |pairs| == 1 then [] else "&" + QueryString(pairs[1..], keyText, valueText))
  }

  /** `fullUrl`: the bare URL without a query, and otherwise the URL, a
      `?` and the query after it. */
  function FullUrl(url: string, query: string): (r: string)
    ensures query == [] ==> r == url
    ensures query != [] ==> |r| == |url| + 1 + |query| && r[..|url|] == url && r[|url|] == '?' && r[|url| + 1..] == query
  {
    if query == [] then url else url + "?" + query
  }

  /** The URL `makeGetRequest(url, params)` fetches. */
  function RequestUrl<K>(url: string, p: Params<K>, keyText: K -> string, valueText: Value -> string): (r: string)
    ensures r == url <==> NormalizedParams(p) == []
    ensures NormalizedParams(p) != [] ==>
              |r| > |url| && r[..|url|] == url && r[|url|] == '?'
    ensures NormalizedParams(p) != [] ==>
              r == url + "?" + QueryString(NormalizedParams(p), keyText, valueText)
  {
    FullUrl(url, QueryString(NormalizedParams(p), keyText, valueText))
  }

  predicate HasHeader(headers: seq<(string, string)>, name: string) {
    exists i :: 0 <= i < |headers| && headers[i].0 == name
  }

  /** The headers of every request: the content type, and the bearer token
      when the stored token is truthy (present and non-empty). */
  function Headers(storage: LocalStorage.Storage): (h: seq<(string, string)>)
    ensures ("Content-Type", "application/json") in h
    ensures HasHeader(h, "Authorization") <==>
              LocalStorage.AuthTokenKey in storage && storage[LocalStorage.AuthTokenKey] != ""
    ensures HasHeader(h, "Authorization") ==>
              ("Authorization", "Bearer " + storage[LocalStorage.AuthTokenKey]) in h
  {
    var token := LocalStorage.GetItem(storage, LocalStorage.AuthTokenKey);
    var h := [("Content-Type", "application/json")]
      + (if token.Some? && token.value != "" then [("Authorization", "Bearer " + token.value)] else []);
    assert |h| == 2 ==> h[1].0 == "Authorization";
    h
  }
}
