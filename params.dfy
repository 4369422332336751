/** The query-parameter objects that the list views build (`newParams`) and
    hand to `makeGetRequest`: a JavaScript object seen through
    `Object.entries`, i.e. its own keys with their values in insertion order. */
module Params {
  import opened Wrappers

  /** A JavaScript value as it can sit in a parameter object. Amounts are
      integer cents; arrays may hold any value, `null` included. */
  datatype Value = Null | Undefined | Num(n: int) | Str(s: string) | Bool(b: bool) | Arr(items: seq<Value>)

  /** An own property of an object. The key type is left open: the filter
      views write a fixed set of property names, and an enumeration of those
      names stands for them. */
  type Entry<K> = (K, Value)

  /** The entries of an object, in insertion order. */
  type Params<K> = seq<Entry<K>>

  /** No key occurs twice, as in any JavaScript object. */
  predicate DistinctKeys<K(==)>(p: Params<K>) {
    p == [] || (p[0].0 !in Keys(p[1..]) && DistinctKeys(p[1..]))
  }

  function Keys<K>(p: Params<K>): (ks: seq<K>)
    ensures |ks| == |p|
    ensures forall i :: 0 <= i < |p| ==> ks[i] == p[i].0
  {
    if p == [] then [] else [p[0].0] + Keys(p[1..])
  }

  /** `obj[k]`, with `None` for a key the object does not have. */
  function Get<K(==)>(p: Params<K>, k: K): (r: Option<Value>)
    ensures r.None? <==> k !in Keys(p)
  {
    if p == [] then None
    else if p[0].0 == k then Some(p[0].1)
    else Get(p[1..], k)
  }

  /** `obj[k] = v`: an existing key keeps its place and takes the new value,
      a new key is added at the end. */
  function Assign<K(==,!new)>(p: Params<K>, k: K, v: Value): (r: Params<K>)
    ensures Get(r, k) == Some(v)
    ensures forall k' :: k' != k ==> Get(r, k') == Get(p, k')
  {
    if p == [] then [(k, v)]
    else if p[0].0 == k then [(k, v)] + p[1..]
    else [p[0]] + Assign(p[1..], k, v)
  }

  /** Assigning a key the object does not have appends one entry. */
  lemma {:induction false} AssignFresh<K(!new)>(p: Params<K>, k: K, v: Value)
    requires k !in Keys(p)
    ensures Assign(p, k, v) == p + [(k, v)]
  {
    if p != [] {
      var rest := p[1..];
      assert p[0].0 != k && k !in Keys(rest) by {
        assert Keys(p) == [p[0].0] + Keys(rest);
      }
      AssignFresh(rest, k, v);
      assert Assign(p, k, v) == [p[0]] + (rest + [(k, v)]);
      assert [p[0]] + (rest + [(k, v)]) == p + [(k, v)] by {
        assert p == [p[0]] + rest;
      }
    }
  }

  lemma {:induction false} AssignKeys<K(!new)>(p: Params<K>, k: K, v: Value)
    ensures forall k' :: k' in Keys(Assign(p, k, v)) <==> k' in Keys(p) || k' == k
  {
    if p != [] && p[0].0 != k {
      AssignKeys(p[1..], k, v);
    }
  }

  /** Assignment keeps the keys of an object distinct. */
  lemma {:induction false} AssignDistinct<K(!new)>(p: Params<K>, k: K, v: Value)
    requires DistinctKeys(p)
    ensures DistinctKeys(Assign(p, k, v))
  {
    if p != [] && p[0].0 != k {
      AssignDistinct(p[1..], k, v);
      AssignKeys(p[1..], k, v);
    }
  }

  /** Looking a key up in two objects laid end to end finds it in the first
      one when it is there. */
  lemma {:induction false} GetAppend<K>(a: Params<K>, b: Params<K>, k: K)
    ensures Get(a + b, k) == if Get(a, k).Some? then Get(a, k) else Get(b, k)
  {
    if a == [] {
      assert a + b == b;
    } else {
      assert (a + b)[0] == a[0];
      assert (a + b)[1..] == a[1..] + b;
      GetAppend(a[1..], b, k);
    }
  }

  // ------------------------------------------------- objects built in order

  /** `if (v) obj[k] = v;` on a key the object does not have yet: one entry
      when there is a value, none otherwise. */
  function Field<K>(k: K, v: Option<Value>): Params<K> {
    if v.None? then [] else [(k, v.value)]
  }

  /** The object that a run of such conditional assignments builds from
      `{}`, the candidate fields taken in order. */
  function Fields<K>(fs: seq<(K, Option<Value>)>): Params<K> {
    if fs == [] then [] else Fields(fs[..|fs| - 1]) + Field(fs[|fs| - 1].0, fs[|fs| - 1].1)
  }

  /** One more conditional assignment appends (at most) one entry. */
  lemma FieldsSnoc<K>(fs: seq<(K, Option<Value>)>, n: int)
    requires 0 <= n < |fs|
    ensures Fields(fs[..n + 1]) == Fields(fs[..n]) + Field(fs[n].0, fs[n].1)
  {
    assert fs[..n + 1][..n] == fs[..n];
  }

  /** Eight candidate fields laid end to end. */
  lemma FieldsEight<K>(fs: seq<(K, Option<Value>)>)
    requires |fs| == 8
    ensures Fields(fs)
            == Field(fs[0].0, fs[0].1) + Field(fs[1].0, fs[1].1) + Field(fs[2].0, fs[2].1)
             + Field(fs[3].0, fs[3].1) + Field(fs[4].0, fs[4].1) + Field(fs[5].0, fs[5].1)
             + Field(fs[6].0, fs[6].1) + Field(fs[7].0, fs[7].1)
  {
    calc {
      Fields(fs);
      { assert fs[..8] == fs; }
      Fields(fs[..8]);
      { FieldsSnoc(fs, 7); }
      Fields(fs[..7]) + Field(fs[7].0, fs[7].1);
      { FieldsSnoc(fs, 6); }
      Fields(fs[..6]) + Field(fs[6].0, fs[6].1) + Field(fs[7].0, fs[7].1);
      { FieldsSnoc(fs, 5); }
      Fields(fs[..5]) + Field(fs[5].0, fs[5].1) + Field(fs[6].0, fs[6].1) + Field(fs[7].0, fs[7].1);
      { FieldsSnoc(fs, 4); }
      Fields(fs[..4]) + Field(fs[4].0, fs[4].1) + Field(fs[5].0, fs[5].1) + Field(fs[6].0, fs[6].1)
        + Field(fs[7].0, fs[7].1);
      { FieldsSnoc(fs, 3); }
      Fields(fs[..3]) + Field(fs[3].0, fs[3].1) + Field(fs[4].0, fs[4].1) + Field(fs[5].0, fs[5].1)
        + Field(fs[6].0, fs[6].1) + Field(fs[7].0, fs[7].1);
      { FieldsSnoc(fs, 2); }
      Fields(fs[..2]) + Field(fs[2].0, fs[2].1) + Field(fs[3].0, fs[3].1) + Field(fs[4].0, fs[4].1)
        + Field(fs[5].0, fs[5].1) + Field(fs[6].0, fs[6].1) + Field(fs[7].0, fs[7].1);
      { FieldsSnoc(fs, 1); }
      Fields(fs[..1]) + Field(fs[1].0, fs[1].1) + Field(fs[2].0, fs[2].1) + Field(fs[3].0, fs[3].1)
        + Field(fs[4].0, fs[4].1) + Field(fs[5].0, fs[5].1) + Field(fs[6].0, fs[6].1) + Field(fs[7].0, fs[7].1);
      { FieldsSnoc(fs, 0); assert fs[..0] == []; }
      Field(fs[0].0, fs[0].1) + Field(fs[1].0, fs[1].1) + Field(fs[2].0, fs[2].1) + Field(fs[3].0, fs[3].1)
        + Field(fs[4].0, fs[4].1) + Field(fs[5].0, fs[5].1) + Field(fs[6].0, fs[6].1) + Field(fs[7].0, fs[7].1);
    }
  }

  /** A key none of the candidate fields names is absent. */
  lemma {:induction false} FieldsGetAbsent<K>(fs: seq<(K, Option<Value>)>, k: K)
    requires forall j :: 0 <= j < |fs| ==> fs[j].0 != k
    ensures Get(Fields(fs), k) == None
  {
    if fs != [] {
      var n := |fs| - 1;
      FieldsGetAbsent(fs[..n], k);
      GetAppend(Fields(fs[..n]), Field(fs[n].0, fs[n].1), k);
    }
  }

  /** When the candidate fields name distinct keys, each key holds exactly
      its candidate value (absent when there is none). */
  lemma {:induction false} FieldsGet<K>(fs: seq<(K, Option<Value>)>, i: int)
    requires 0 <= i < |fs|
    requires forall j :: 0 <= j < |fs| && j != i ==> fs[j].0 != fs[i].0
    ensures Get(Fields(fs), fs[i].0) == fs[i].1
  {
    var n := |fs| - 1;
    GetAppend(Fields(fs[..n]), Field(fs[n].0, fs[n].1), fs[i].0);
    if i == n {
      FieldsGetAbsent(fs[..n], fs[i].0);
    } else {
      FieldsGet(fs[..n], i);
    }
  }

  /** `FieldsGet` for a list whose keys are all distinct. */
  lemma FieldsGetDistinct<K>(fs: seq<(K, Option<Value>)>, i: int)
    requires forall a, b :: 0 <= a < b < |fs| ==> fs[a].0 != fs[b].0
    requires 0 <= i < |fs|
    ensures Get(Fields(fs), fs[i].0) == fs[i].1
  {
    forall j | 0 <= j < |fs| && j != i
      ensures fs[j].0 != fs[i].0
    {
      if j < i {
        assert fs[j].0 != fs[i].0;
      } else {
        assert fs[i].0 != fs[j].0;
      }
    }
    FieldsGet(fs, i);
  }

  /** Candidate fields with distinct keys build an object with distinct keys. */
  lemma {:induction false} FieldsDistinct<K(!new)>(fs: seq<(K, Option<Value>)>)
    requires forall i, j :: 0 <= i < j < |fs| ==> fs[i].0 != fs[j].0
    ensures DistinctKeys(Fields(fs))
  {
    if fs != [] {
      var n := |fs| - 1;
      var init := fs[..n];
      assert forall i, j :: 0 <= i < j < |init| ==> init[i].0 != init[j].0 by {
        forall i, j | 0 <= i < j < |init| ensures init[i].0 != init[j].0 {
          assert init[i] == fs[i] && init[j] == fs[j];
        }
      }
      FieldsDistinct(init);
      var p := Fields(init);
      if fs[n].1.Some? {
        var k, v := fs[n].0, fs[n].1.value;
        assert forall j :: 0 <= j < |init| ==> init[j].0 != k by {
          forall j | 0 <= j < |init| ensures init[j].0 != k {
            assert init[j] == fs[j];
          }
        }
        FieldsGetAbsent(init, k);
        assert k !in Keys(p);
        AssignFresh(p, k, v);
        AssignDistinct(p, k, v);
        assert Fields(fs) == p + [(k, v)];
      } else {
        assert Fields(fs) == p + [];
        assert p + [] == p;
      }
    }
  }

  /** `index` numbers the candidate fields by their keys: the key of field
      `j` has number `j`, so no two fields share a key. */
  predicate IndexedBy<K>(fs: seq<(K, Option<Value>)>, index: K -> int) {
    forall j :: 0 <= j < |fs| ==> index(fs[j].0) == j
  }

  /** Candidate fields numbered by their keys build an object with distinct
      keys, holding each field's value under its key and no other key. */
  lemma IndexedFields<K(!new)>(fs: seq<(K, Option<Value>)>, index: K -> int)
    requires IndexedBy(fs, index)
    ensures DistinctKeys(Fields(fs))
    ensures forall i :: 0 <= i < |fs| ==> Get(Fields(fs), fs[i].0) == fs[i].1
    ensures forall k :: !(0 <= index(k) < |fs|) ==> Get(Fields(fs), k).None?
  {
    assert forall a, b :: 0 <= a < b < |fs| ==> fs[a].0 != fs[b].0 by {
      forall a, b | 0 <= a < b < |fs| ensures fs[a].0 != fs[b].0 {
        assert index(fs[a].0) != index(fs[b].0);
      }
    }
    FieldsDistinct(fs);
    forall i | 0 <= i < |fs| ensures Get(Fields(fs), fs[i].0) == fs[i].1 {
      FieldsGetDistinct(fs, i);
    }
    forall k | !(0 <= index(k) < |fs|) ensures Get(Fields(fs), k).None? {
      FieldsGetAbsent(fs, k);
    }
  }

  /** The object stays empty exactly when no candidate field has a value. */
  lemma {:induction false} FieldsEmpty<K>(fs: seq<(K, Option<Value>)>)
    ensures Fields(fs) == [] <==> forall j :: 0 <= j < |fs| ==> fs[j].1.None?
  {
    if fs != [] {
      var n := |fs| - 1;
      FieldsEmpty(fs[..n]);
      var init, last := Fields(fs[..n]), Field(fs[n].0, fs[n].1);
      assert Fields(fs) == init + last;
      assert |init + last| == |init| + |last|;
      assert last == [] <==> fs[n].1.None?;
      assert forall j :: 0 <= j < n ==> fs[..n][j] == fs[j];
    }
  }
}
