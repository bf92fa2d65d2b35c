/**
 Record IDs (internal/board/ids.go): a site name, a hyphen, and 128 bits (48 of
 milliseconds, 80 random) written as 26 Crockford base-32 digits by a streaming
 loop over a 64-bit accumulator that wraps.
 */
module Ids {

  type Byte = n: nat | n < 256

  const CROCKFORD: string := "0123456789ABCDEFGHJKMNPQRSTVWXYZ"

  /** v >> bits */
  function Shr(v: nat, bits: nat): nat
    decreases bits
  {
    if bits == 0 then v else Shr(v / 2, bits - 1)
  }

  /** v << bits, unbounded */
  function Shl(v: nat, bits: nat): nat {
    if bits == 0 then v else 2 * Shl(v, bits - 1)
  }

  const TWO64: nat := 0x1_0000_0000_0000_0000

  /** The unsigned number a byte string spells, most significant byte first. */
  function BytesValue(b: seq<Byte>): nat {
    if b == [] then 0 else 256 * BytesValue(b[..|b| - 1]) + b[|b| - 1]
  }

  /** The number a string of Crockford digits spells, most significant first. */
  function DigitsValue(s: string): nat {
    if s == [] then 0 else 32 * DigitsValue(s[..|s| - 1]) + DigitOf(s[|s| - 1])
  }

  predicate IsDigit(c: char) {
    || '0' <= c <= '9' || 'A' <= c <= 'H' || c == 'J' || c == 'K' || c == 'M' || c == 'N'
    || 'P' <= c <= 'T' || 'V' <= c <= 'Z'
  }

  predicate AllDigits(s: string) {
    forall i :: 0 <= i < |s| ==> IsDigit(s[i])
  }

  /** A digit's value; characters outside the alphabet count as 0. */
  function DigitOf(c: char): (d: nat)
    ensures d < 32
  {
    if '0' <= c <= '9' then c as int - '0' as int
    else if 'A' <= c <= 'H' then c as int - 'A' as int + 10
    else if 'J' <= c <= 'K' then c as int - 'J' as int + 18
    else if 'M' <= c <= 'N' then c as int - 'M' as int + 20
    else if 'P' <= c <= 'T' then c as int - 'P' as int + 22
    else if 'V' <= c <= 'Z' then c as int - 'V' as int + 27
    else 0
  }

  lemma AlphabetRoundTrip(d: nat)
    requires d < 32
    ensures IsDigit(CROCKFORD[d]) && DigitOf(CROCKFORD[d]) == d
  {
    if d < 10 {
    } else if d < 18 {
    } else if d < 22 {
    } else if d < 27 {
    } else {
    }
  }

  // Digits are told apart, and ordered, as their characters are.
  lemma DigitOrder(c: char, d: char)
    requires IsDigit(c) && IsDigit(d)
    ensures DigitOf(c) == DigitOf(d) <==> c == d
    ensures DigitOf(c) < DigitOf(d) <==> c < d
  {
  }

  // ---- arithmetic of the streaming loop ----

  lemma {:induction false} ShrTwice(v: nat, a: nat, b: nat)
    ensures Shr(v, a + b) == Shr(Shr(v, a), b)
    decreases a
  {
    if a > 0 { ShrTwice(v / 2, a - 1, b); }
  }

  lemma {:induction false} ShlTwice(v: nat, a: nat, b: nat)
    ensures Shl(v, a + b) == Shl(Shl(v, a), b)
    decreases b
  {
    if b > 0 { ShlTwice(v, a, b - 1); }
  }

  lemma ShrByte(v: nat)
    ensures Shr(v, 5) == v / 32 && Shr(v, 8) == v / 256
  {
    assert Shr(v, 2) == v / 4;
    ShrTwice(v, 2, 2);
    ShrTwice(v, 4, 1);
    ShrTwice(v, 4, 2);
    ShrTwice(v, 6, 2);
  }

  lemma Shl4(v: nat)
    ensures Shl(v, 4) == 16 * v && Shl(v, 5) == 32 * v
  {
    assert Shl(v, 1) == 2 * v;
    assert Shl(v, 3) == 8 * v;
  }

  lemma Shl16(v: nat)
    ensures Shl(v, 16) == 0x1_0000 * v
  {
    Shl4(v);
    Shl4(Shl(v, 4));
    Shl4(Shl(v, 8));
    Shl4(Shl(v, 12));
    ShlTwice(v, 4, 4);
    ShlTwice(v, 8, 4);
    ShlTwice(v, 12, 4);
  }

  lemma Shl64(v: nat)
    ensures Shl(v, 64) == TWO64 * v
  {
    Shl16(v);
    Shl16(Shl(v, 16));
    Shl16(Shl(v, 32));
    Shl16(Shl(v, 48));
    ShlTwice(v, 16, 16);
    ShlTwice(v, 32, 16);
    ShlTwice(v, 48, 16);
  }

  // Bits above position m do not reach an eight-bit window below it.
  lemma {:induction false} WindowBelow(hi: nat, lo: nat, m: nat, bits: nat)
    requires bits + 8 <= m
    ensures Shr(Shl(hi, m) + lo, bits) % 256 == Shr(lo, bits) % 256
    decreases bits
  {
    if bits == 0 {
      var y := Shl(hi, m - 8);
      assert Shl(hi, m) == 256 * y by {
        ShlTwice(hi, m - 8, 8);
        ShlTwice(y, 4, 4);
        Shl4(y);
        Shl4(Shl(y, 4));
      }
      assert (256 * y + lo) % 256 == lo % 256;
    } else {
      var x := Shl(hi, m - 1);
      assert Shl(hi, m) == 2 * x;
      assert (2 * x + lo) / 2 == x + lo / 2;
      WindowBelow(hi, lo / 2, m - 1, bits - 1);
    }
  }

  lemma Mod256Mod32(x: nat)
    ensures x % 256 % 32 == x % 32
  {
  }

  // The accumulator wraps at 64 bits and still yields the next digit.
  lemma WindowSurvivesWrap(v: nat, acc: nat, bits: nat)
    requires bits <= 56 && acc == v % TWO64
    ensures Shr(acc, bits) % 32 == Shr(v, bits) % 32
  {
    Shl64(v / TWO64);
    WindowBelow(v / TWO64, acc, 64, bits);
    Mod256Mod32(Shr(acc, bits));
    Mod256Mod32(Shr(v, bits));
  }

  lemma AccumulateByte(v: nat, acc: nat, byte: Byte)
    requires acc == v % TWO64
    ensures (acc * 256 + byte) % TWO64 == (256 * v + byte) % TWO64
  {
    var q := v / TWO64;
    assert 256 * v + byte == TWO64 * (256 * q) + (256 * acc + byte);
  }

  lemma ByteShifts(v: nat, byte: Byte, bits: nat)
    ensures Shr(256 * v + byte, bits + 8) == Shr(v, bits)
  {
    ShrTwice(256 * v + byte, 8, bits);
    ShrByte(256 * v + byte);
  }

  // Taking the next digit off the held-back bits.
  lemma TakeDigit(v: nat, bits: nat)
    ensures Shr(v, bits) == 32 * Shr(v, bits + 5) + Shr(v, bits) % 32
  {
    ShrTwice(v, bits, 5);
    ShrByte(Shr(v, bits));
  }

  lemma ValueAppend(s: string, c: char)
    ensures DigitsValue(s + [c]) == 32 * DigitsValue(s) + DigitOf(c)
  {
    assert (s + [c])[..|s + [c]| - 1] == s;
  }

  lemma EmitDigit(v: nat, acc: nat, bits: nat, out: string)
    requires bits <= 56 && acc == v % TWO64
    requires AllDigits(out) && DigitsValue(out) == Shr(v, bits + 5)
    ensures var next := out + [CROCKFORD[Shr(acc, bits) % 32]];
      AllDigits(next) && DigitsValue(next) == Shr(v, bits)
  {
    var digit := Shr(acc, bits) % 32;
    WindowSurvivesWrap(v, acc, bits);
    TakeDigit(v, bits);
    AlphabetRoundTrip(digit);
    ValueAppend(out, CROCKFORD[digit]);
  }

  lemma TakeByte(raw: seq<Byte>, i: nat, acc: nat, bits: nat)
    requires i < |raw| && acc == BytesValue(raw[..i]) % TWO64
    ensures (acc * 256 + raw[i]) % TWO64 == BytesValue(raw[..i + 1]) % TWO64
    ensures Shr(BytesValue(raw[..i + 1]), bits + 8) == Shr(BytesValue(raw[..i]), bits)
  {
    assert raw[..i + 1][..i] == raw[..i];
    AccumulateByte(BytesValue(raw[..i]), acc, raw[i]);
    ByteShifts(BytesValue(raw[..i]), raw[i], bits);
  }

  /**
   The digit loop of NewID. Whatever the 16 bytes are, it writes 26 digits whose
   value is the 128-bit number, although the accumulator keeps only 64 bits.
   */
  method EncodeDigits(raw: seq<Byte>) returns (out: string)
    requires |raw| == 16
    ensures |out| == 26 && AllDigits(out)
    ensures DigitsValue(out) == BytesValue(raw)
  {
    out := "";
    var acc: nat := 0;
    var bits: nat := 2;
    for i := 0 to |raw|
      invariant bits < 5 && 5 * |out| + bits == 8 * i + 2
      invariant AllDigits(out)
      invariant acc == BytesValue(raw[..i]) % TWO64
      invariant DigitsValue(out) == Shr(BytesValue(raw[..i]), bits)
    {
      TakeByte(raw, i, acc, bits);
      acc := (acc * 256 + raw[i]) % TWO64;
      bits := bits + 8;
      ghost var v := BytesValue(raw[..i + 1]);
      while bits >= 5
        invariant bits <= 12 && 5 * |out| + bits == 8 * (i + 1) + 2
        invariant AllDigits(out)
        invariant DigitsValue(out) == Shr(v, bits)
      {
        bits := bits - 5;
        EmitDigit(v, acc, bits, out);
        out := out + [CROCKFORD[Shr(acc, bits) % 32]];
      }
    }
    assert raw[..16] == raw;
  }

  // ---- the 48-bit time ----

  const TWO48: nat := 0x1_0000_0000_0000

  lemma ByteOfTime(ms: nat, bits: nat)
    requires bits <= 40
    ensures Shr(ms, bits) % 256 == Shr(ms % TWO48, bits) % 256
  {
    Shl16(ms / TWO48);
    Shl16(Shl(ms / TWO48, 16));
    Shl16(Shl(ms / TWO48, 32));
    ShlTwice(ms / TWO48, 16, 16);
    ShlTwice(ms / TWO48, 32, 16);
    WindowBelow(ms / TWO48, ms % TWO48, 48, bits);
  }

  lemma TimeFits(t: nat)
    requires t < TWO48
    ensures Shr(t, 48) == 0
  {
    ShrByte(t); ShrTwice(t, 8, 8);
    ShrByte(Shr(t, 8)); ShrTwice(t, 16, 8);
    ShrByte(Shr(t, 16)); ShrTwice(t, 24, 8);
    ShrByte(Shr(t, 24)); ShrTwice(t, 32, 8);
    ShrByte(Shr(t, 32)); ShrTwice(t, 40, 8);
    ShrByte(Shr(t, 40));
  }

  // Six bytes that are a number's own bytes spell that number.
  lemma {:induction false} BytesOfTime(b: seq<Byte>, t: nat, k: nat)
    requires t < TWO48 && |b| == 6 && k <= 6
    requires forall j :: 0 <= j < 6 ==> b[j] == Shr(t, 8 * (5 - j)) % 256
    ensures BytesValue(b[..k]) == Shr(t, 8 * (6 - k))
  {
    if k == 0 {
      TimeFits(t);
    } else {
      BytesOfTime(b, t, k - 1);
      assert b[..k][..k - 1] == b[..k - 1];
      ShrTwice(t, 8 * (6 - k), 8);
      ShrByte(Shr(t, 8 * (6 - k)));
    }
  }

  /** The 128 bits of an ID: 48 bits of time over 80 random ones. */
  ghost predicate IsNumber(n: nat, ms: nat, random: seq<Byte>) {
    exists time: seq<Byte> :: Spells(time, ms) && n == BytesValue(time + random)
  }

  ghost predicate Spells(time: seq<Byte>, ms: nat) {
    |time| == 6 && BytesValue(time) == ms % TWO48
  }

  /** id is site, a hyphen and the 26 digits of n. */
  ghost predicate IsId(id: string, site: string, n: nat) {
    && |id| == |site| + 27
    && id[..|site|] == site
    && id[|site|] == '-'
    && AllDigits(id[|site| + 1..])
    && DigitsValue(id[|site| + 1..]) == n
  }

  method NewId(site: string, ms: nat, random: seq<Byte>) returns (id: string, ghost n: nat)
    requires ms < TWO64 && |random| == 10
    ensures IsId(id, site, n) && IsNumber(n, ms, random)
  {
    var raw := new Byte[16](_ => 0);
    var rest := ms;
    var i := 6;
    while i > 0
      invariant 0 <= i <= 6 && rest == Shr(ms, 8 * (6 - i))
      invariant forall j :: i <= j < 6 ==> raw[j] == Shr(ms, 8 * (5 - j)) % 256
    {
      i := i - 1;
      ShrTwice(ms, 8 * (5 - i), 8);
      ShrByte(Shr(ms, 8 * (5 - i)));
      raw[i] := rest % 256;
      rest := rest / 256;
    }
    ghost var time := raw[..6];
    for j := 0 to 10
      invariant raw[..6] == time
      invariant forall k :: 0 <= k < j ==> raw[6 + k] == random[k]
    {
      raw[6 + j] := random[j];
    }
    assert BytesValue(time) == ms % TWO48 by {
      forall j | 0 <= j < 6
        ensures time[j] == Shr(ms % TWO48, 8 * (5 - j)) % 256
      {
        ByteOfTime(ms, 8 * (5 - j));
      }
      BytesOfTime(time, ms % TWO48, 6);
      assert time[..6] == time;
    }
    assert raw[..] == time + random;
    var out := EncodeDigits(raw[..]);
    n := BytesValue(raw[..]);
    id := site + ['-'] + out;
    assert id[|site| + 1..] == out;
  }

  // ---- what the encoding promises ----

  lemma LastDigit(x: nat, a: nat, y: nat, b: nat)
    requires a < 32 && b < 32
    ensures 32 * x + a == 32 * y + b ==> x == y && a == b
    ensures 32 * x + a < 32 * y + b ==> x < y || (x == y && a < b)
  {
  }

  lemma {:induction false} DigitsInjective(s: string, t: string)
    requires |s| == |t| && AllDigits(s) && AllDigits(t) && DigitsValue(s) == DigitsValue(t)
    ensures s == t
  {
    if s != [] {
      var n := |s| - 1;
      LastDigit(DigitsValue(s[..n]), DigitOf(s[n]), DigitsValue(t[..n]), DigitOf(t[n]));
      DigitOrder(s[n], t[n]);
      DigitsInjective(s[..n], t[..n]);
      assert s == s[..n] + [s[n]] && t == t[..n] + [t[n]];
    }
  }

  lemma {:induction false} BytesInjective(a: seq<Byte>, b: seq<Byte>)
    requires |a| == |b| && BytesValue(a) == BytesValue(b)
    ensures a == b
  {
    if a != [] {
      var n := |a| - 1;
      BytesInjective(a[..n], b[..n]);
      assert a == a[..n] + [a[n]] && b == b[..n] + [b[n]];
    }
  }

  /**
   An ID names its site and its number, even though a site name may itself hold
   hyphens: two sites never make the same ID, and one site only from one number.
   */
  lemma IdDeterminesSiteAndNumber(id: string, site: string, n: nat, site': string, n': nat)
    requires IsId(id, site, n) && IsId(id, site', n')
    ensures site == site' && n == n'
  {
    assert |site| == |site'|;
  }

  lemma NumberDeterminesId(a: string, b: string, site: string, n: nat)
    requires IsId(a, site, n) && IsId(b, site, n)
    ensures a == b
  {
    DigitsInjective(a[|site| + 1..], b[|site| + 1..]);
    assert a == a[..|site|] + [a[|site|]] + a[|site| + 1..];
    assert b == b[..|site|] + [b[|site|]] + b[|site| + 1..];
  }

  /** Order of strings by first difference, as Go and SQLite compare them. */
  ghost predicate LexLess(a: string, b: string) {
    exists i: nat :: FirstDiffers(a, b, i)
  }

  ghost predicate FirstDiffers(a: string, b: string, i: nat) {
    && i <= |a| && i < |b|
    && (forall k :: 0 <= k < i ==> a[k] == b[k])
    && (i == |a| || a[i] < b[i])
  }

  lemma {:induction false} DigitsSort(s: string, t: string)
    requires |s| == |t| && AllDigits(s) && AllDigits(t) && DigitsValue(s) < DigitsValue(t)
    ensures LexLess(s, t)
  {
    var n := |s| - 1;
    LastDigit(DigitsValue(s[..n]), DigitOf(s[n]), DigitsValue(t[..n]), DigitOf(t[n]));
    if DigitsValue(s[..n]) == DigitsValue(t[..n]) {
      DigitsInjective(s[..n], t[..n]);
      DigitOrder(s[n], t[n]);
      assert forall k :: 0 <= k < n ==> s[k] == s[..n][k] && t[k] == t[..n][k];
      assert FirstDiffers(s, t, n);
    } else {
      DigitsSort(s[..n], t[..n]);
      var i: nat :| FirstDiffers(s[..n], t[..n], i);
      assert FirstDiffers(s, t, i);
    }
  }

  /** One site's IDs sort as text exactly as their numbers do. */
  lemma IdsSortByNumber(a: string, b: string, site: string, n: nat, m: nat)
    requires IsId(a, site, n) && IsId(b, site, m)
    ensures LexLess(a, b) <==> n < m
  {
    if n < m {
      IdSorted(a, b, site, n, m);
    } else if m < n {
      IdSorted(b, a, site, m, n);
    } else {
      NumberDeterminesId(a, b, site, n);
    }
  }

  lemma IdSorted(a: string, b: string, site: string, n: nat, m: nat)
    requires IsId(a, site, n) && IsId(b, site, m) && n < m
    ensures LexLess(a, b) && !LexLess(b, a)
  {
    var k := |site| + 1;
    DigitsSort(a[k..], b[k..]);
    var i: nat :| FirstDiffers(a[k..], b[k..], i);
    forall j | 0 <= j < k + i
      ensures a[j] == b[j]
    {
      if j < |site| {
        assert a[j] == a[..|site|][j] && b[j] == b[..|site|][j];
      } else if j > |site| {
        assert a[j] == a[k..][j - k] && b[j] == b[k..][j - k];
      }
    }
    assert FirstDiffers(a, b, k + i);
  }

  lemma {:induction false} BytesSort(a: seq<Byte>, b: seq<Byte>, c: seq<Byte>, d: seq<Byte>)
    requires BytesValue(a) < BytesValue(b) && |c| == |d|
    ensures BytesValue(a + c) < BytesValue(b + d)
  {
    if c == [] {
      assert a + c == a && b + d == b;
    } else {
      var n := |c| - 1;
      BytesSort(a, b, c[..n], d[..n]);
      BytesSnoc(a, c);
      BytesSnoc(b, d);
      hide BytesValue;
    }
  }

  lemma BytesSnoc(a: seq<Byte>, c: seq<Byte>)
    requires c != []
    ensures BytesValue(a + c) == 256 * BytesValue(a + c[..|c| - 1]) + c[|c| - 1]
  {
    assert (a + c)[..|a + c| - 1] == a + c[..|c| - 1];
  }

  /** IDs one site makes in different milliseconds sort by when they were made. */
  lemma IdsSortByTime(a: string, b: string, site: string, n: nat, m: nat,
                      ms: nat, ms': nat, random: seq<Byte>, random': seq<Byte>)
    requires IsId(a, site, n) && IsId(b, site, m)
    requires |random| == |random'| == 10 && IsNumber(n, ms, random) && IsNumber(m, ms', random')
    requires ms < ms' < TWO48
    ensures LexLess(a, b)
  {
    var time :| Spells(time, ms) && n == BytesValue(time + random);
    var time' :| Spells(time', ms') && m == BytesValue(time' + random');
    BytesSort(time, time', random, random');
    IdsSortByNumber(a, b, site, n, m);
  }

  /** The same ID comes only from the same time and the same random bits. */
  lemma NumberDeterminesBits(n: nat, ms: nat, random: seq<Byte>, ms': nat, random': seq<Byte>)
    requires |random| == |random'| == 10 && IsNumber(n, ms, random) && IsNumber(n, ms', random')
    ensures ms % TWO48 == ms' % TWO48 && random == random'
  {
    var time :| Spells(time, ms) && n == BytesValue(time + random);
    var time' :| Spells(time', ms') && n == BytesValue(time' + random');
    BytesInjective(time + random, time' + random');
    assert time == (time + random)[..6] && time' == (time' + random')[..6];
    assert random == (time + random)[6..] && random' == (time' + random')[6..];
  }

  // ---- the repo's name patterns ----

  predicate LowerOrDigit(c: char) { 'a' <= c <= 'z' || '0' <= c <= '9' }

  predicate UpperOrDigit(c: char) { 'A' <= c <= 'Z' || '0' <= c <= '9' }

  /** ^[a-z0-9][a-z0-9-]{0,31}$ */
  predicate IsSiteName(s: string) {
    && 1 <= |s| <= 32
    && LowerOrDigit(s[0])
    && forall i :: 0 < i < |s| ==> LowerOrDigit(s[i]) || s[i] == '-'
  }

  /** ^[a-z0-9][a-z0-9-]{0,31}-[0-9A-Z]{26}$ */
  predicate IsIdPart(s: string) {
    && |s| >= 28
    && IsSiteName(s[..|s| - 27])
    && s[|s| - 27] == '-'
    && forall i :: |s| - 26 <= i < |s| ==> UpperOrDigit(s[i])
  }

  /** Every ID a configured site makes is a name the repo layout accepts. */
  lemma IdMatchesPattern(id: string, site: string, n: nat)
    requires IsId(id, site, n) && IsSiteName(site)
    ensures IsIdPart(id)
  {
    assert id[..|id| - 27] == site;
    forall i | |id| - 26 <= i < |id|
      ensures UpperOrDigit(id[i])
    {
      assert id[i] == id[|site| + 1..][i - |site| - 1];
    }
  }
}
