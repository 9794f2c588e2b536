/** Small models of the PHP and helper-library behaviour that the Commerce-sync code relies on:
    optional values, truthiness of strings, `strtolower`, integer/decimal-string conversion,
    `array_unique`, `array_chunk` and flattening. */
module Php {

  datatype Option<+T> = None | Some(value: T)

  datatype Result<+T, +E> = Success(value: T) | Failure(error: E)

  /** PHP truthiness of a string: every string except "" and "0". */
  predicate Truthy(s: string) {
    s != "" && s != "0"
  }

  /** PHP truthiness of a possibly-null string. */
  predicate TruthyOpt(s: Option<string>) {
    s.Some? && Truthy(s.value)
  }

  // ---------------------------------------------------------------------------
  // strtolower (ASCII, as in PHP 8.2 and later)

  function LowerChar(c: char): char {
    if 'A' <= c <= 'Z' then (c as int + 32) as char else c
  }

  function Lower(s: string): (r: string)
    ensures |r| == |s|
    ensures forall i :: 0 <= i < |s| ==> r[i] == LowerChar(s[i])
  {
    if s == [] then [] else [LowerChar(s[0])] + Lower(s[1..])
  }

  /** Lowercasing twice is lowercasing once. */
  lemma LowerIdempotent(s: string)
    ensures Lower(Lower(s)) == Lower(s)
  {
    assert forall i :: 0 <= i < |s| ==> LowerChar(LowerChar(s[i])) == LowerChar(s[i]);
  }

  // ---------------------------------------------------------------------------
  // Decimal strings: sprintf('%s', $int) and TypeHelper::int on numeric strings

  predicate IsDigit(c: char) {
    '0' <= c <= '9'
  }

  predicate IsDigits(s: string) {
    |s| > 0 && forall i :: 0 <= i < |s| ==> IsDigit(s[i])
  }

  function DigitChar(d: nat): char
    requires d < 10
  {
    ('0' as int + d) as char
  }

  /** Decimal representation of a natural number, without leading zeros. */
  function NatToString(n: nat): (r: string)
    ensures IsDigits(r)
    decreases n
  {
    if n < 10 then [DigitChar(n)] else NatToString(n / 10) + [DigitChar(n % 10)]
  }

  /** Decimal representation of an integer, as `sprintf('%s', $i)` renders it. */
  function IntToString(i: int): string {
    if i < 0 then "-" + NatToString(-i) else NatToString(i)
  }

  /** Value of a non-empty string of decimal digits. */
  function DigitsValue(s: string): nat
    requires IsDigits(s)
    decreases |s|
  {
    var last := (s[|s| - 1] as int - '0' as int) as nat;
    if |s| == 1 then last else DigitsValue(s[..|s| - 1]) * 10 + last
  }

  /** The integer a decimal string denotes, or 0 for anything that is not an optionally
      signed run of digits (TypeHelper::int with default 0, on the strings this model uses). */
  function StringToInt(s: string): int {
    if IsDigits(s) then DigitsValue(s)
    else if |s| > 1 && s[0] == '-' && IsDigits(s[1..]) then -(DigitsValue(s[1..]) as int)
    else 0
  }

  lemma {:induction false} DigitsValueOfNatToString(n: nat)
    ensures DigitsValue(NatToString(n)) == n
    decreases n
  {
    if n >= 10 {
      var s := NatToString(n);
      DigitsValueOfNatToString(n / 10);
      assert s[..|s| - 1] == NatToString(n / 10);
      assert s[|s| - 1] == DigitChar(n % 10);
    }
  }

  /** Reading back the decimal rendering of an integer gives the integer. */
  lemma StringToIntOfIntToString(i: int)
    ensures StringToInt(IntToString(i)) == i
  {
    if i < 0 {
      var s := IntToString(i);
      assert s[1..] == NatToString(-i);
      assert !IsDigits(s) by { assert !IsDigit(s[0]); }
      DigitsValueOfNatToString(-i);
    } else {
      DigitsValueOfNatToString(i);
    }
  }

  /** Lowercasing leaves a digit string untouched. */
  lemma LowerOfDigits(s: string)
    requires IsDigits(s)
    ensures Lower(s) == s
  {
  }

  // ---------------------------------------------------------------------------
  // Sequences: array_unique, array_chunk, flattening

  predicate NoDuplicates<T(==)>(s: seq<T>) {
    forall i, j :: 0 <= i < j < |s| ==> s[i] != s[j]
  }

  /** `TypeHelper::arrayOfStrings($value, false)` on a list of strings: the empty strings are
      dropped and the order is kept. */
  function NonEmptyStrings(s: seq<string>): (r: seq<string>)
    ensures forall x :: x in r <==> x in s && x != ""
    ensures r == [] <==> forall x :: x in s ==> x == ""
    ensures |r| <= |s|
    decreases |s|
  {
    if s == [] then []
    else
      var init := NonEmptyStrings(s[..|s| - 1]);
      assert s == s[..|s| - 1] + [s[|s| - 1]];
      assert s[|s| - 1] in s;
      if s[|s| - 1] == "" then init else init + [s[|s| - 1]]
  }

  /** `array_unique` on a list: keeps the first occurrence of every value, in order. */
  function Dedup<T(==)>(s: seq<T>): seq<T>
    decreases |s|
  {
    if s == [] then []
    else
      var d := Dedup(s[..|s| - 1]);
      if s[|s| - 1] in d then d else d + [s[|s| - 1]]
  }

  /** `array_unique` removes every repetition, keeps every value, and changes nothing in a
      list that had no repetition. */
  lemma {:induction false} DedupProperties<T>(s: seq<T>)
    ensures NoDuplicates(Dedup(s))
    ensures forall x :: x in Dedup(s) <==> x in s
    ensures NoDuplicates(s) ==> Dedup(s) == s
    decreases |s|
  {
    if s != [] {
      var init := s[..|s| - 1];
      DedupProperties(init);
      assert forall x :: x in s <==> x in init || x == s[|s| - 1];
      if NoDuplicates(s) {
        assert NoDuplicates(init);
        assert s[|s| - 1] !in init;
        assert s == init + [s[|s| - 1]];
      }
    }
  }

  /** Concatenation of a list of lists (ArrayHelper::flatten on one level). */
  function Flatten<T>(ss: seq<seq<T>>): seq<T>
    decreases |ss|
  {
    if ss == [] then [] else Flatten(ss[..|ss| - 1]) + ss[|ss| - 1]
  }

  lemma {:induction false} FlattenAppend<T>(a: seq<seq<T>>, b: seq<seq<T>>)
    ensures Flatten(a + b) == Flatten(a) + Flatten(b)
    decreases |b|
  {
    if b != [] {
      assert (a + b)[..|a + b| - 1] == a + b[..|b| - 1];
      assert (a + b)[|a + b| - 1] == b[|b| - 1];
      FlattenAppend(a, b[..|b| - 1]);
    } else {
      assert a + b == a;
    }
  }

  lemma FlattenEmpty<T>(ss: seq<seq<T>>)
    requires forall i :: 0 <= i < |ss| ==> ss[i] == []
    ensures Flatten(ss) == []
    decreases |ss|
  {
    if ss != [] {
      FlattenEmpty(ss[..|ss| - 1]);
    }
  }

  /** `array_chunk($s, $size)`: consecutive pieces of `size` elements, the last possibly shorter. */
  function Chunk<T>(s: seq<T>, size: nat): seq<seq<T>>
    requires size > 0
    decreases |s|
  {
    if s == [] then []
    else if |s| <= size then [s]
    else [s[..size]] + Chunk(s[size..], size)
  }

  /** The chunks put back together give the list; every chunk is non-empty and holds exactly
      `size` elements except the last, which holds at most `size`. */
  lemma {:induction false} ChunkProperties<T>(s: seq<T>, size: nat)
    requires size > 0
    ensures var c := Chunk(s, size);
      && Flatten(c) == s
      && (s == [] <==> c == [])
      && (forall i :: 0 <= i < |c| ==> 0 < |c[i]| <= size)
      && (forall i :: 0 <= i < |c| - 1 ==> |c[i]| == size)
    decreases |s|
  {
    if s != [] && |s| > size {
      ChunkProperties(s[size..], size);
      FlattenAppend([s[..size]], Chunk(s[size..], size));
      assert Flatten([s[..size]]) == s[..size] by {
        assert [s[..size]][..0] == [];
      }
      assert s == s[..size] + s[size..];
    } else if s != [] {
      assert Flatten([s]) == s by {
        assert [s][..0] == [];
      }
    }
  }

  /** `a` is `b` with some elements left out, order kept. */
  predicate IsSubsequence<T(==)>(a: seq<T>, b: seq<T>)
    decreases |b|
  {
    if a == [] then true
    else if b == [] then false
    else
      || (a[|a| - 1] == b[|b| - 1] && IsSubsequence(a[..|a| - 1], b[..|b| - 1]))
      || IsSubsequence(a, b[..|b| - 1])
  }

  lemma {:induction false} SubsequenceLength<T>(a: seq<T>, b: seq<T>)
    requires IsSubsequence(a, b)
    ensures |a| <= |b|
    decreases |b|
  {
    if a != [] && b != [] {
      if a[|a| - 1] == b[|b| - 1] && IsSubsequence(a[..|a| - 1], b[..|b| - 1]) {
        SubsequenceLength(a[..|a| - 1], b[..|b| - 1]);
      } else {
        SubsequenceLength(a, b[..|b| - 1]);
      }
    }
  }
}
