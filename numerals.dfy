/** Decimal numerals: the digits of a natural number, reading them back,
    and the grouping of an integer part with `.` every three digits from the
    right that the replace `/\B(?=(\d{3})+(?!\d))/g` performs. */
module Numerals {
  import opened Strings

  function DigitChar(d: nat): (c: char)
    requires d < 10
    ensures IsDigit(c)
  {
    ['0', '1', '2', '3', '4', '5', '6', '7', '8', '9'][d]
  }

  function DigitValue(c: char): (d: nat)
    requires IsDigit(c)
    ensures d < 10
  {
    (c as int - '0' as int) as nat
  }

  lemma DigitValueChar(d: nat)
    requires d < 10
    ensures DigitValue(DigitChar(d)) == d
  {
  }

  /** The decimal numeral of `n`, without leading zeros. */
  function Digits(n: nat): (s: string)
    ensures |s| >= 1 && AllDigits(s)
    ensures s[0] == '0' ==> n == 0
  {
    if n < 10 then [DigitChar(n)] else Digits(n / 10) + [DigitChar(n % 10)]
  }

  /** The value of a string of digits. */
  function ParseDigits(s: string): nat
    requires AllDigits(s)
  {
    if s == [] then 0 else ParseDigits(s[..|s| - 1]) * 10 + DigitValue(s[|s| - 1])
  }

  /** Reading a numeral gives back the number. */
  lemma {:induction false} DigitsRoundTrip(n: nat)
    ensures ParseDigits(Digits(n)) == n
  {
    var s := Digits(n);
    if n < 10 {
      DigitValueChar(n);
      assert s[..|s| - 1] == [];
    } else {
      DigitsRoundTrip(n / 10);
      assert s[..|s| - 1] == Digits(n / 10);
      DigitValueChar(n % 10);
    }
  }

  /** Exactly two digits: what `toFixed(2)` writes after the point. */
  function TwoDigits(n: nat): (s: string)
    requires n < 100
    ensures |s| == 2 && AllDigits(s)
  {
    [DigitChar(n / 10), DigitChar(n % 10)]
  }

  lemma TwoDigitsRoundTrip(n: nat)
    requires n < 100
    ensures ParseDigits(TwoDigits(n)) == n
  {
    var s := TwoDigits(n);
    assert s[..1][..0] == [];
    DigitValueChar(n / 10);
    DigitValueChar(n % 10);
  }

  // ----------------------------------------------------------- grouping

  /** The digit groups of an integer part, from the left: a first group of
      one to three digits, then groups of exactly three. */
  function Chunks(ds: string): (r: seq<string>)
    ensures |r| >= 1
    decreases |ds|
  {
    if |ds| <= 3 then [ds]
    else
      var h := if |ds| % 3 == 0 then 3 else |ds| % 3;
      [ds[..h]] + Chunks(ds[h..])
  }

  /** The first group holds one to three digits and leaves a multiple of
      three behind it; every later group holds exactly three. */
  lemma {:induction false} ChunksSizes(ds: string)
    ensures var r := Chunks(ds);
            && (|ds| > 0 ==> 1 <= |r[0]| <= 3)
            && |r[0]| <= |ds| && (|ds| - |r[0]|) % 3 == 0
            && forall k :: 1 <= k < |r| ==> |r[k]| == 3
    decreases |ds|
  {
    if |ds| > 3 {
      var h := if |ds| % 3 == 0 then 3 else |ds| % 3;
      var r, rest := Chunks(ds), Chunks(ds[h..]);
      ChunksSizes(ds[h..]);
      assert r == [ds[..h]] + rest;
      assert |ds[h..]| == |ds| - h;
      forall k | 1 <= k < |r| ensures |r[k]| == 3 {
        assert r[k] == rest[k - 1];
        if k > 1 {
          assert |rest[k - 1]| == 3;
        } else {
          assert |ds[h..]| > 0;
        }
      }
    }
  }

  /** The groups of a numeral are numerals. */
  lemma {:induction false} ChunksDigits(ds: string)
    requires AllDigits(ds)
    ensures forall k :: 0 <= k < |Chunks(ds)| ==> AllDigits(Chunks(ds)[k])
    decreases |ds|
  {
    if |ds| > 3 {
      var h := if |ds| % 3 == 0 then 3 else |ds| % 3;
      var r, rest := Chunks(ds), Chunks(ds[h..]);
      ChunksDigits(ds[h..]);
      assert r == [ds[..h]] + rest;
      forall k | 0 <= k < |r| ensures AllDigits(r[k]) {
        if k > 0 {
          assert r[k] == rest[k - 1];
        }
      }
    }
  }

  function Concat(parts: seq<string>): string {
    if parts == [] then [] else parts[0] + Concat(parts[1..])
  }

  /** The groups, put back together, are the digits. */
  lemma {:induction false} ChunksConcat(ds: string)
    ensures Concat(Chunks(ds)) == ds
    decreases |ds|
  {
    if |ds| > 3 {
      var h := if |ds| % 3 == 0 then 3 else |ds| % 3;
      ChunksConcat(ds[h..]);
      assert Chunks(ds)[1..] == Chunks(ds[h..]);
      assert ds[..h] + ds[h..] == ds;
    } else {
      assert Chunks(ds)[1..] == [];
    }
  }

  /** The integer part with a `.` before every run of three digits that
      ends the numeral, the first position excepted. */
  function Group(ds: string): string {
    Join(Chunks(ds), '.')
  }

  lemma DigitsHaveNoDot(s: string)
    requires AllDigits(s)
    ensures '.' !in s && ',' !in s
  {
  }

  /** Splitting a grouped numeral on `.` gives its groups: a first group of
      one to three digits and then groups of three, which put together are
      the digits. */
  lemma GroupParts(ds: string)
    requires AllDigits(ds)
    ensures Split(Group(ds), '.') == Chunks(ds)
    ensures Concat(Split(Group(ds), '.')) == ds
  {
    var parts := Chunks(ds);
    ChunksDigits(ds);
    forall k | 0 <= k < |parts|
      ensures '.' !in parts[k]
    {
      DigitsHaveNoDot(parts[k]);
    }
    SplitJoin(parts, '.');
    ChunksConcat(ds);
  }

  /** Dropping the separators of a join of separator-free parts leaves
      the parts put together. */
  lemma {:induction false} RemoveSeparators(parts: seq<string>, sep: char)
    requires |parts| >= 1
    requires forall k :: 0 <= k < |parts| ==> sep !in parts[k]
    ensures RemoveAll(Join(parts, sep), sep) == Concat(parts)
  {
    var head := parts[0];
    RemoveAllAbsent(head, sep);
    if |parts| == 1 {
      assert Concat(parts[1..]) == [];
    } else {
      var tail := Join(parts[1..], sep);
      RemoveSeparators(parts[1..], sep);
      assert RemoveAll([sep], sep) == [] by {
        assert [sep][1..] == [];
      }
      RemoveAllAppend(head + [sep], tail, sep);
      RemoveAllAppend(head, [sep], sep);
      assert RemoveAll(head + [sep], sep) == head;
      assert Join(parts, sep) == head + [sep] + tail;
    }
  }

  /** Removing every `.` from a grouped numeral gives back its digits. */
  lemma GroupStripsBack(ds: string)
    requires AllDigits(ds)
    ensures RemoveAll(Group(ds), '.') == ds
    ensures ',' !in Group(ds)
  {
    GroupParts(ds);
    var parts := Chunks(ds);
    RemoveSeparators(parts, '.');
    ChunksConcat(ds);
    ChunksDigits(ds);
    GroupHasNoComma(parts);
  }

  lemma {:induction false} GroupHasNoComma(parts: seq<string>)
    requires |parts| >= 1
    requires forall k :: 0 <= k < |parts| ==> AllDigits(parts[k])
    ensures ',' !in Join(parts, '.')
  {
    DigitsHaveNoDot(parts[0]);
    if |parts| > 1 {
      GroupHasNoComma(parts[1..]);
    }
  }
}
