/** Hexadecimal hash keys and recipe names
    (include/Util.h `convert_array_hash_to_string`, src/server/ClientConn.cc recipe key). */
module Keys {
  import opened Defs

  // ---- base16, lower case ----

  function HexDigit(n: nat): Byte
    requires n < 16
  {
    if n <= 9 then (n + 48) as Byte else (n - 10 + 97) as Byte
  }

  function Hex(hash: Bytes): Bytes {
    if hash == [] then []
    else
      var last := hash[|hash| - 1] as nat;
      Hex(hash[..|hash| - 1]) + [HexDigit(last / 16), HexDigit(last % 16)]
  }

  /** The decoder of section 8 of RFC 4648, restricted to lower-case digits. */
  function HexValue(c: Byte): (v: nat)
    ensures v < 16
  {
    if 48 <= c <= 57 then c as nat - 48 else if 97 <= c <= 102 then c as nat - 87 else 0
  }

  function HexByte(high: Byte, low: Byte): Byte {
    (16 * HexValue(high) + HexValue(low)) as Byte
  }

  function Unhex(text: Bytes): Bytes {
    if |text| < 2 then []
    else Unhex(text[..|text| - 2]) + [HexByte(text[|text| - 2], text[|text| - 1])]
  }

  lemma HexByteInverse(b: Byte)
    ensures HexByte(HexDigit(b as nat / 16), HexDigit(b as nat % 16)) == b
    ensures HexDigit(b as nat / 16) != 0 && HexDigit(b as nat % 16) != 0
  {}

  lemma UnhexSnoc(text: Bytes, high: Byte, low: Byte)
    ensures Unhex(text + [high, low]) == Unhex(text) + [HexByte(high, low)]
  {
    assert (text + [high, low])[..|text|] == text;
  }

  lemma {:induction false} UnhexOfHex(hash: Bytes)
    ensures Unhex(Hex(hash)) == hash
  {
    if hash != [] {
      var front, last := hash[..|hash| - 1], hash[|hash| - 1];
      var high, low := HexDigit(last as nat / 16), HexDigit(last as nat % 16);
      UnhexOfHex(front);
      UnhexSnoc(Hex(front), high, low);
      assert HexByte(high, low) == last by { HexByteInverse(last); }
      assert hash == front + [last];
    }
  }

  lemma {:induction false} HexShape(hash: Bytes)
    ensures |Hex(hash)| == 2 * |hash|
    ensures forall i :: 0 <= i < |Hex(hash)| ==> Hex(hash)[i] != 0
  {
    if hash != [] {
      HexShape(hash[..|hash| - 1]);
      HexByteInverse(hash[|hash| - 1]);
    }
  }

  const DIGITS: string := "0123456789abcdef"

  /** Character by character: the high half of each byte first, in lower-case digits. */
  lemma {:induction false} HexAt(hash: Bytes, i: nat)
    requires i < |hash|
    ensures |Hex(hash)| == 2 * |hash|
    ensures Hex(hash)[2 * i] as int == DIGITS[hash[i] as nat / 16] as int
    ensures Hex(hash)[2 * i + 1] as int == DIGITS[hash[i] as nat % 16] as int
  {
    var n := |hash| - 1;
    HexShape(hash);
    HexShape(hash[..n]);
    if i < n {
      HexAt(hash[..n], i);
    } else {
      DigitAt(hash[n] as nat / 16);
      DigitAt(hash[n] as nat % 16);
    }
  }

  lemma DigitAt(n: nat)
    requires n < 16
    ensures HexDigit(n) as int == DIGITS[n] as int
  {}

  lemma HexInjective(a: Bytes, b: Bytes)
    requires Hex(a) == Hex(b)
    ensures a == b
  {
    UnhexOfHex(a);
    UnhexOfHex(b);
  }

  /** What `std::string(char*)` makes of a buffer: the bytes before the first NUL. */
  function CString(buffer: Bytes): Bytes {
    if buffer == [] || buffer[0] == 0 then [] else [buffer[0]] + CString(buffer[1..])
  }

  lemma {:induction false} CStringOfTerminated(text: Bytes, rest: Bytes)
    requires forall i :: 0 <= i < |text| ==> text[i] != 0
    ensures CString(text + [0] + rest) == text
  {
    if text != [] {
      assert (text + [0] + rest)[1..] == text[1..] + [0] + rest;
      CStringOfTerminated(text[1..], rest);
    }
  }

  /** The loop of `convert_array_hash_to_string` on the 32 bytes at an offset: fills a 65-byte
      buffer with a running index, terminates it, and reads it back as a C string. */
  method ConvertArrayHashToString(hash: array<Byte>, off: nat) returns (text: Bytes)
    requires off + HASHSIZE <= hash.Length
    ensures text == Hex(hash[off..off + HASHSIZE])
    ensures |text| == 64 && Unhex(text) == hash[off..off + HASHSIZE]
  {
    hide Hex, HexDigit, Unhex;
    ghost var bytes := hash[off..off + HASHSIZE];
    HexEmpty();
    var buffer := new Byte[65];
    var i := 0;
    for j := 0 to 32
      invariant i == 2 * j
      invariant buffer[..i] == Hex(bytes[..j])
    {
      var tmp := hash[off + j] as nat / 16;
      buffer[i] := HexDigit(tmp);
      i := i + 1;
      tmp := hash[off + j] as nat % 16;
      buffer[i] := HexDigit(tmp);
      i := i + 1;
      HexSnoc(bytes[..j], hash[off + j]);
      assert bytes[..j + 1] == bytes[..j] + [hash[off + j]];
      assert buffer[..i] == buffer[..2 * j] + [buffer[2 * j], buffer[2 * j + 1]];
    }
    assert bytes[..32] == bytes;
    UnhexOfHex(bytes);
    HexShape(bytes);
    buffer[i] := 0;
    assert buffer[..] == Hex(bytes) + [0] + [];
    CStringOfTerminated(Hex(bytes), []);
    text := CString(buffer[..]);
  }

  lemma HexEmpty()
    ensures Hex([]) == []
  {}

  lemma HexSnoc(front: Bytes, last: Byte)
    ensures Hex(front + [last]) == Hex(front) + [HexDigit(last as nat / 16), HexDigit(last as nat % 16)]
  {
    assert (front + [last])[..|front|] == front;
  }

  // ---- decimal client ids and recipe names ----

  predicate IsDigit(c: Byte) { 48 <= c <= 57 }

  predicate AllDigits(s: Bytes) {
    forall i :: 0 <= i < |s| ==> IsDigit(s[i])
  }

  function DecNat(n: nat): (s: Bytes)
    ensures s != [] && AllDigits(s)
  {
    if n < 10 then [(48 + n) as Byte] else DecNat(n / 10) + [(48 + n % 10) as Byte]
  }

  /** `std::to_string(int)` */
  function Dec(id: int): Bytes {
    if id < 0 then [45] + DecNat(-id) else DecNat(id)
  }

  /** `std::to_string(client_id) + fileName` */
  function RecipeName(id: int, name: Bytes): Bytes {
    Dec(id) + name
  }

  function Value(s: Bytes): nat
    requires AllDigits(s)
  {
    if s == [] then 0 else 10 * Value(s[..|s| - 1]) + (s[|s| - 1] as nat - 48)
  }

  function Pow10(n: nat): nat {
    if n == 0 then 1 else 10 * Pow10(n - 1)
  }

  predicate IsInt32(id: int) { -0x8000_0000 <= id < 0x8000_0000 }

  lemma {:induction false} ValueOfDec(n: nat)
    ensures Value(DecNat(n)) == n
  {
    if n >= 10 {
      ValueOfDec(n / 10);
      assert DecNat(n)[..|DecNat(n)| - 1] == DecNat(n / 10);
    }
  }

  lemma {:induction false} DecOfValue(s: Bytes)
    requires s != [] && AllDigits(s) && s[0] != 48
    ensures Value(s) > 0 && DecNat(Value(s)) == s
  {
    var front := s[..|s| - 1];
    assert s == front + [s[|s| - 1]];
    if front != [] {
      DecOfValue(front);
    }
  }

  lemma DecInjective(i: int, j: int)
    requires Dec(i) == Dec(j)
    ensures i == j
  {
    ValueOfDec(if i < 0 then -i else i);
    ValueOfDec(if j < 0 then -j else j);
    assert DecNat(if i < 0 then -i else i)[0] != 45;
    assert DecNat(if j < 0 then -j else j)[0] != 45;
    if i < 0 { assert Dec(i)[1..] == DecNat(-i); }
    if j < 0 { assert Dec(j)[1..] == DecNat(-j); }
  }

  lemma {:induction false} ValueBound(d: Bytes)
    requires AllDigits(d)
    ensures AllDigits([49] + d) && Value([49] + d) < 2 * Pow10(|d|)
  {
    var s := [49] + d;
    if d == [] {
      assert s[..0] == [];
      assert Value(s) == 10 * Value(s[..0]) + 1;
    } else {
      ValueBound(d[..|d| - 1]);
      assert s[..|s| - 1] == [49] + d[..|d| - 1];
    }
  }

  lemma {:induction false} DecLengthBound(n: nat, k: nat)
    requires n < Pow10(k + 1)
    ensures |DecNat(n)| <= k + 1
  {
    if n >= 10 {
      DecLengthBound(n / 10, k - 1);
    }
  }

  lemma Pow10Table()
    ensures Pow10(9) == 1_000_000_000 && Pow10(10) == 10_000_000_000
  {
    assert Pow10(3) == 1000;
    assert Pow10(6) == 1_000_000;
    assert Pow10(9) == 1_000_000_000;
  }

  /** `long` is `short` with 1 to 9 decimal digits in front: the digits some client id can absorb. */
  predicate DigitsBefore(long: Bytes, short: Bytes) {
    var k := |long| - |short|;
    1 <= k <= 9 && AllDigits(long[..k]) && long[k..] == short
  }

  /** A sign, if any, then one to ten digits. */
  lemma DecShape(i: int)
    requires IsInt32(i)
    ensures var sign := if i < 0 then 1 else 0;
      sign < |Dec(i)| <= sign + 10 && AllDigits(Dec(i)[sign..]) && (Dec(i)[0] == 45 <==> i < 0)
  {
    Pow10Table();
    DecLengthBound(if i < 0 then -i else i, 9);
    if i < 0 { assert Dec(i)[1..] == DecNat(-i); }
  }

  lemma CollisionSplits(i: int, n: Bytes, j: int, m: Bytes)
    requires IsInt32(i) && IsInt32(j) && i != j
    requires |Dec(i)| <= |Dec(j)|
    requires RecipeName(i, n) == RecipeName(j, m)
    ensures DigitsBefore(n, m)
  {
    DecShape(i);
    DecShape(j);
    if Dec(i) == Dec(j) { DecInjective(i, j); }
    hide Dec, DigitsBefore, AllDigits;
    assert (Dec(i) + n)[0] == Dec(i)[0] && (Dec(j) + m)[0] == Dec(j)[0];
    Absorbs(Dec(i), n, Dec(j), m, if j < 0 then 1 else 0);
  }

  lemma Absorbs(a: Bytes, n: Bytes, b: Bytes, m: Bytes, sign: nat)
    requires a + n == b + m && a != b && sign < |a| <= |b| <= sign + 10 && AllDigits(b[sign..])
    ensures DigitsBefore(n, m)
  {
    var k, all := |b| - |a|, a + n;
    assert a == all[..|a|] && b == all[..|b|];
    assert n == all[|a|..] && m == all[|b|..];
    assert n[..k] == b[|a|..] == b[sign..][|a| - sign..];
  }

  lemma CollisionBuilt(n: Bytes, m: Bytes) returns (j: int)
    requires DigitsBefore(n, m)
    ensures IsInt32(j) && j != 1 && RecipeName(1, n) == RecipeName(j, m)
  {
    var d := n[..|n| - |m|];
    ValueBound(d);
    DecOfValue([49] + d);
    j := Value([49] + d);
    Pow10Table();
    PowMonotone(|d|, 9);
    assert DecNat(1) == [49];
    assert Dec(1) + n == ([49] + d) + m;
    assert |Dec(j)| != |Dec(1)|;
  }

  lemma {:induction false} PowMonotone(a: nat, b: nat)
    requires a <= b
    ensures Pow10(a) <= Pow10(b)
    decreases b
  {
    if a < b { PowMonotone(a, b - 1); }
  }

  ghost predicate Collide(i: int, n: Bytes, j: int, m: Bytes) {
    IsInt32(i) && IsInt32(j) && i != j && RecipeName(i, n) == RecipeName(j, m)
  }

  /** The recipe name is not injective.  Two file names can be confused across clients exactly
      when one of them is the other with one to nine decimal digits in front. */
  lemma RecipeNamesCollideIff(n: Bytes, m: Bytes)
    ensures (exists i, j :: Collide(i, n, j, m)) <==> DigitsBefore(n, m) || DigitsBefore(m, n)
  {
    if i, j :| Collide(i, n, j, m) {
      if |Dec(i)| <= |Dec(j)| { CollisionSplits(i, n, j, m); } else { CollisionSplits(j, m, i, n); }
    }
    if DigitsBefore(n, m) {
      var j := CollisionBuilt(n, m);
      assert Collide(1, n, j, m);
    }
    if DigitsBefore(m, n) {
      var i := CollisionBuilt(m, n);
      assert Collide(i, n, 1, m);
    }
  }

  /** Client 1 storing "2a" and client 12 storing "a" share one recipe file. */
  lemma RecipeNameCollisionExample()
    ensures RecipeName(1, [50, 97]) == RecipeName(12, [97])
  {
    assert DecNat(12) == DecNat(1) + [50];
  }

  /** When no file name starts with a decimal digit, recipe names are injective. */
  lemma RecipeNameInjective(i: int, n: Bytes, j: int, m: Bytes)
    requires IsInt32(i) && IsInt32(j)
    requires n == [] || !IsDigit(n[0])
    requires m == [] || !IsDigit(m[0])
    requires RecipeName(i, n) == RecipeName(j, m)
    ensures i == j && n == m
  {
    if i != j {
      if |Dec(i)| <= |Dec(j)| { CollisionSplits(i, n, j, m); } else { CollisionSplits(j, m, i, n); }
      assert false;
    }
    assert n == RecipeName(i, n)[|Dec(i)|..];
  }
}
