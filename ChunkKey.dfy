/**
  The cache key of a chunk (src/lib/utils.ts): the three integer chunk
  coordinates rendered in decimal and joined by commas, "x,y,z".
  Besides the key itself this module defines the inverse direction
  (splitting on ',' and parsing each field), which is how the key is shown
  to be injective.
 */
module ChunkKey {
  import opened Options

  predicate IsDigit(c: char) {
    '0' <= c <= '9'
  }

  function DigitChar(d: nat): (c: char)
    requires d < 10
    ensures IsDigit(c) && c as int - '0' as int == d
  {
    ['0', '1', '2', '3', '4', '5', '6', '7', '8', '9'][d]
  }

  /** Number of occurrences of `c` in `s`. */
  function Count(s: string, c: char): nat {
    if s == [] then 0 else Count(s[..|s| - 1], c) + (if s[|s| - 1] == c then 1 else 0)
  }

  /** Value of a non-empty string of decimal digits; None for anything else. */
  function ParseNat(s: string): Option<nat> {
    if s == [] || !IsDigit(s[|s| - 1]) then None
    else
      var d := s[|s| - 1] as int - '0' as int;
      if |s| == 1 then Some(d)
      else match ParseNat(s[..|s| - 1])
        case None => None
        case Some(n) => Some(n * 10 + d)
  }

  /** Value of an optionally '-'-prefixed decimal integer; None for anything else. */
  function ParseInt(s: string): Option<int> {
    if |s| > 0 && s[0] == '-' then
      match ParseNat(s[1..])
      case None => None
      case Some(n) => var v: int := n; Some(-v)
    else
      match ParseNat(s)
      case None => None
      case Some(n) => Some(n)
  }

  /** Decimal rendering of a natural number, most significant digit first. */
  function NatToDecimal(n: nat): string {
    if n < 10 then [DigitChar(n)] else NatToDecimal(n / 10) + [DigitChar(n % 10)]
  }

  /** Decimal rendering of an integer as a JavaScript template literal prints it. */
  function IntToDecimal(i: int): string {
    if i < 0 then "-" + NatToDecimal(-i) else NatToDecimal(i)
  }

  /** The rendering of a natural number is all digits, has no leading zero, and parses back to the number. */
  lemma {:induction false} NatToDecimalCanonical(n: nat)
    ensures var r := NatToDecimal(n);
      && |r| > 0
      && (forall i :: 0 <= i < |r| ==> IsDigit(r[i]))
      && ParseNat(r) == Some(n)
      && (r[0] == '0' <==> n == 0)
      && (|r| == 1 <==> n < 10)
  {
    if n >= 10 {
      NatToDecimalCanonical(n / 10);
      var prefix := NatToDecimal(n / 10);
      var r := NatToDecimal(n);
      assert r == prefix + [DigitChar(n % 10)];
      assert r[..|r| - 1] == prefix;
    }
  }

  /**
   * The rendering of an integer is the canonical one: digits, with a leading '-' exactly when the
   * integer is negative, no leading zero except in "0", no "-0", and it parses back to the integer.
   */
  lemma IntToDecimalCanonical(i: int)
    ensures var r := IntToDecimal(i);
      && |r| > 0
      && (forall k :: 0 <= k < |r| ==> IsDigit(r[k]) || (k == 0 && r[k] == '-'))
      && ParseInt(r) == Some(i)
      && (r[0] == '-' <==> i < 0)
      && (r[0] == '0' ==> r == "0")
      && (r[0] == '-' ==> |r| > 1 && r[1] != '0')
  {
    if i < 0 {
      var digits := NatToDecimal(-i);
      NatToDecimalCanonical(-i);
      var r := "-" + digits;
      assert r[1..] == digits;
      assert forall k :: 1 <= k < |r| ==> r[k] == digits[k - 1];
    } else {
      NatToDecimalCanonical(i);
    }
  }

  /** `s` split at every ',' (as JavaScript's String.prototype.split(",") does). */
  function Split(s: string): (parts: seq<string>)
    ensures |parts| > 0
  {
    if s == [] then [""]
    else
      var rest := Split(s[1..]);
      if s[0] == ',' then [""] + rest
      else [[s[0]] + rest[0]] + rest[1..]
  }

  lemma {:induction false} SplitNoComma(a: string)
    requires forall k :: 0 <= k < |a| ==> a[k] != ','
    ensures Split(a) == [a]
  {
    if a != [] {
      SplitNoComma(a[1..]);
      assert [a[0]] + a[1..] == a;
    }
  }

  lemma {:induction false} SplitAtComma(a: string, b: string)
    requires forall k :: 0 <= k < |a| ==> a[k] != ','
    ensures Split(a + "," + b) == [a] + Split(b)
  {
    if a == [] {
      assert a + "," + b == [','] + b;
      assert (a + "," + b)[1..] == b;
    } else {
      var s := a + "," + b;
      assert s[1..] == a[1..] + "," + b;
      SplitAtComma(a[1..], b);
      assert [a[0]] + a[1..] == a;
    }
  }

  lemma {:induction false} CountConcat(a: string, b: string, c: char)
    ensures Count(a + b, c) == Count(a, c) + Count(b, c)
  {
    if b != [] {
      assert (a + b)[..|a + b| - 1] == a + b[..|b| - 1];
      CountConcat(a, b[..|b| - 1], c);
    } else {
      assert a + b == a;
    }
  }

  lemma {:induction false} CountAbsent(s: string, c: char)
    requires forall k :: 0 <= k < |s| ==> s[k] != c
    ensures Count(s, c) == 0
  {
    if s != [] {
      CountAbsent(s[..|s| - 1], c);
    }
  }

  /** Joining three comma-free fields with ',' and splitting again gives the fields back. */
  lemma SplitJoined(a: string, b: string, c: string)
    requires forall k :: 0 <= k < |a| ==> a[k] != ','
    requires forall k :: 0 <= k < |b| ==> b[k] != ','
    requires forall k :: 0 <= k < |c| ==> c[k] != ','
    ensures Split(a + "," + b + "," + c) == [a, b, c]
  {
    SplitNoComma(c);
    SplitAtComma(b, c);
    SplitAtComma(a, b + "," + c);
    assert a + "," + b + "," + c == a + "," + (b + "," + c);
  }

  /** getChunkKey: the key of the chunk at integer coordinates (x, y, z). */
  function Key(x: int, y: int, z: int): string {
    IntToDecimal(x) + "," + IntToDecimal(y) + "," + IntToDecimal(z)
  }

  /** A key splits on ',' into exactly its three decimal fields. */
  lemma KeySplit(x: int, y: int, z: int)
    ensures Split(Key(x, y, z)) == [IntToDecimal(x), IntToDecimal(y), IntToDecimal(z)]
  {
    IntToDecimalCanonical(x);
    IntToDecimalCanonical(y);
    IntToDecimalCanonical(z);
    SplitJoined(IntToDecimal(x), IntToDecimal(y), IntToDecimal(z));
  }

  /** The inverse of Key: split on ',' and parse exactly three integer fields. */
  function ParseKey(key: string): Option<(int, int, int)> {
    var parts := Split(key);
    if |parts| != 3 then None
    else match (ParseInt(parts[0]), ParseInt(parts[1]), ParseInt(parts[2]))
      case (Some(x), Some(y), Some(z)) => Some((x, y, z))
      case _ => None
  }

  /** Splitting a key on ',' and parsing the fields gives back the coordinates. */
  lemma KeyRoundTrip(x: int, y: int, z: int)
    ensures ParseKey(Key(x, y, z)) == Some((x, y, z))
  {
    KeySplit(x, y, z);
    IntToDecimalCanonical(x);
    IntToDecimalCanonical(y);
    IntToDecimalCanonical(z);
  }

  /** Two chunks share a key exactly when they are the same chunk. */
  lemma KeyInjective(x1: int, y1: int, z1: int, x2: int, y2: int, z2: int)
    ensures Key(x1, y1, z1) == Key(x2, y2, z2) <==> (x1, y1, z1) == (x2, y2, z2)
  {
    KeyRoundTrip(x1, y1, z1);
    KeyRoundTrip(x2, y2, z2);
  }

  /** A key holds exactly two commas, since a decimal integer holds none. */
  lemma KeyCommaCount(x: int, y: int, z: int)
    ensures Count(Key(x, y, z), ',') == 2
  {
    var dx, dy, dz := IntToDecimal(x), IntToDecimal(y), IntToDecimal(z);
    IntToDecimalCanonical(x);
    IntToDecimalCanonical(y);
    IntToDecimalCanonical(z);
    CountAbsent(dx, ',');
    CountAbsent(dy, ',');
    CountAbsent(dz, ',');
    CountConcat(dx, ",", ',');
    CountConcat(dx + ",", dy, ',');
    CountConcat(dx + "," + dy, ",", ',');
    CountConcat(dx + "," + dy + ",", dz, ',');
  }
}
