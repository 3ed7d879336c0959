/** Strings of bytes, and code points in them.  A lone surrogate is kept as the three bytes that
    its value gives, as any other code point of that size. */
module Bytes {
  import opened Tokens

  datatype Text = Fin | Ch(b: nat, tl: Text)

  function Size(t: Text): nat {
    if t.Fin? then 0 else 1 + Size(t.tl)
  }

  /** The bytes s followed by k. */
  function Cat(s: seq<nat>, k: Text): Text {
    if s == [] then k else Ch(s[0], Cat(s[1..], k))
  }

  predicate Next(t: Text, b: nat) {
    t.Ch? && t.b == b
  }

  predicate AllBelow(t: Text, n: nat) {
    t.Ch? ==> t.b < n && AllBelow(t.tl, n)
  }

  const TAB: nat := 9
  const LF: nat := 10
  const CR: nat := 13
  const DOUBLE: nat := 34
  const SINGLE: nat := 39
  const BACKSLASH: nat := 92

  // ----- hexadecimal digits -----

  function Hex(n: nat): nat
    requires n < 16
  {
    if n < 10 then 48 + n else 87 + n
  }

  predicate IsHex(c: nat) {
    48 <= c <= 57 || 97 <= c <= 102 || 65 <= c <= 70
  }

  function Unhex(c: nat): nat
    requires IsHex(c)
  {
    if c <= 57 then c - 48 else if c >= 97 then c - 87 else c - 55
  }

  /** n hexadecimal digits at the front of t. */
  predicate HexRun(n: nat, t: Text) {
    n == 0 || (t.Ch? && IsHex(t.b) && HexRun(n - 1, t.tl))
  }

  /** Their value, after digits worth v. */
  function HexValue(n: nat, v: nat, t: Text): nat
    requires HexRun(n, t)
  {
    if n == 0 then v else HexValue(n - 1, v * 16 + Unhex(t.b), t.tl)
  }

  function Drop(n: nat, t: Text): (r: Text)
    ensures Size(r) <= Size(t)
  {
    if n == 0 || t.Fin? then t else Drop(n - 1, t.tl)
  }

  /** The last n hexadecimal digits of v. */
  function Digits(n: nat, v: nat, k: Text): Text {
    if n == 0 then k else Digits(n - 1, v / 16, Ch(Hex(v % 16), k))
  }

  function Power16(n: nat): nat {
    if n == 0 then 1 else 16 * Power16(n - 1)
  }

  lemma {:induction false} DigitsRead(n: nat, m: nat, v: nat, w: nat, k: Text)
    requires HexRun(m, k) && v < Power16(n)
    ensures HexRun(n + m, Digits(n, v, k))
    ensures HexValue(n + m, w, Digits(n, v, k)) == HexValue(m, w * Power16(n) + v, k)
    ensures Drop(n + m, Digits(n, v, k)) == Drop(m, k)
    decreases n
  {
    if n > 0 {
      var k' := Ch(Hex(v % 16), k);
      assert v / 16 < Power16(n - 1);
      DigitsRead(n - 1, m + 1, v / 16, w, k');
      assert (w * Power16(n - 1) + v / 16) * 16 + v % 16 == w * Power16(n) + v by {
        Scale(w, Power16(n - 1));
      }
    }
  }

  lemma Scale(a: nat, b: nat)
    ensures a * b * 16 == a * (16 * b)
  {
  }

  /** Digits written and read back. */
  lemma HexRoundTrip(n: nat, v: nat, k: Text)
    requires v < Power16(n)
    ensures HexRun(n, Digits(n, v, k)) && HexValue(n, 0, Digits(n, v, k)) == v && Drop(n, Digits(n, v, k)) == k
  {
    DigitsRead(n, 0, v, 0, k);
  }

  lemma Powers()
    ensures Power16(2) == 0x100 && Power16(4) == 0x10000 && Power16(8) == 0x1_0000_0000
  {
    assert Power16(4) == 16 * (16 * Power16(2));
    assert Power16(8) == 16 * (16 * (16 * (16 * Power16(4))));
  }

  // ----- code points -----

  const MAX_RUNE: nat := 0x10FFFF
  const REPLACEMENT := [0xEF, 0xBF, 0xBD]

  predicate Surrogate(r: nat) {
    0xD800 <= r <= 0xDFFF
  }

  /** The bytes of a code point, by size. */
  function Encode(r: nat): seq<nat> {
    if r < 0x80 then [r]
    else if r < 0x800 then [0xC0 + r / 64, 0x80 + r % 64]
    else if r < 0x10000 then [0xE0 + r / 4096, 0x80 + r / 64 % 64, 0x80 + r % 64]
    else [0xF0 + r / 262144, 0x80 + r / 4096 % 64, 0x80 + r / 64 % 64, 0x80 + r % 64]
  }

  /** WriteRune: what is no character is written as the replacement character. */
  function WriteRune(r: nat): seq<nat> {
    if Surrogate(r) || r > MAX_RUNE then REPLACEMENT else Encode(r)
  }

  /** writeRuneOrSurrogate. */
  function WriteAny(r: nat): seq<nat> {
    if Surrogate(r) then Encode(r) else WriteRune(r)
  }

  predicate Tail(t: Text) {
    t.Ch? && 0x80 <= t.b <= 0xBF
  }

  /** A lone surrogate at the front of t. */
  predicate AtSurrogate(t: Text) {
    Next(t, 0xED) && t.tl.Ch? && 0xA0 <= t.tl.b <= 0xBF && Tail(t.tl.tl)
  }

  function SurrogateAt(t: Text): nat
    requires AtSurrogate(t)
  {
    0xD000 + (t.tl.b - 0x80) * 64 + (t.tl.tl.b - 0x80)
  }

  const BAD_RUNE: nat := 0xFFFD

  /** DecodeRuneInString: the code point at the front of t and how many bytes it takes; a byte that
      begins none counts as the replacement character. */
  function Decode(t: Text): (r: (nat, nat))
    requires t.Ch?
    ensures 1 <= r.1 <= 4
  {
    var b := t.b;
    var u := t.tl;
    if b < 0x80 then (b, 1)
    else if 0xC2 <= b <= 0xDF && Tail(u) then ((b - 0xC0) * 64 + (u.b - 0x80), 2)
    else if 0xE0 <= b <= 0xEF && Tail(u) && Tail(u.tl)
        && (b == 0xE0 ==> u.b >= 0xA0) && (b == 0xED ==> u.b <= 0x9F) then
      ((b - 0xE0) * 4096 + (u.b - 0x80) * 64 + (u.tl.b - 0x80), 3)
    else if 0xF0 <= b <= 0xF4 && Tail(u) && Tail(u.tl) && Tail(u.tl.tl)
        && (b == 0xF0 ==> u.b >= 0x90) && (b == 0xF4 ==> u.b <= 0x8F) then
      ((b - 0xF0) * 262144 + (u.b - 0x80) * 4096 + (u.tl.b - 0x80) * 64 + (u.tl.tl.b - 0x80), 4)
    else (BAD_RUNE, 1)
  }

  /** A string of code points, surrogates among them. */
  function EncodeAll(rs: seq<nat>, k: Text): Text {
    if rs == [] then k else Cat(Encode(rs[0]), EncodeAll(rs[1..], k))
  }

  lemma EncodeShape(r: nat, k: Text)
    ensures var t := Cat(Encode(r), k);
            if r < 0x80 then t == Ch(r, k)
            else if r < 0x800 then t == Ch(0xC0 + r / 64, Ch(0x80 + r % 64, k))
            else if r < 0x10000 then t == Ch(0xE0 + r / 4096, Ch(0x80 + r / 64 % 64, Ch(0x80 + r % 64, k)))
            else t == Ch(0xF0 + r / 262144, Ch(0x80 + r / 4096 % 64, Ch(0x80 + r / 64 % 64, Ch(0x80 + r % 64, k))))
  {
    var e := Encode(r);
    CatFour(e, k);
  }

  lemma CatFour(e: seq<nat>, k: Text)
    ensures |e| == 1 ==> Cat(e, k) == Ch(e[0], k)
    ensures |e| == 2 ==> Cat(e, k) == Ch(e[0], Ch(e[1], k))
    ensures |e| == 3 ==> Cat(e, k) == Ch(e[0], Ch(e[1], Ch(e[2], k)))
    ensures |e| == 4 ==> Cat(e, k) == Ch(e[0], Ch(e[1], Ch(e[2], Ch(e[3], k))))
  {
    if |e| > 0 {
      assert Cat(e, k) == Ch(e[0], Cat(e[1..], k));
      if |e| > 1 {
        assert Cat(e[1..], k) == Ch(e[1], Cat(e[1..][1..], k));
        assert e[1..][1..] == e[2..];
        if |e| > 2 {
          assert Cat(e[2..], k) == Ch(e[2], Cat(e[2..][1..], k));
          assert e[2..][1..] == e[3..];
          if |e| > 3 {
            assert Cat(e[3..], k) == Ch(e[3], Cat(e[3..][1..], k));
          }
        }
      }
    }
  }

  /** t is read as the code point r, or found to be that surrogate, and k is what follows it. */
  predicate Reads(t: Text, r: nat, k: Text) {
    && t.Ch?
    && (Surrogate(r) <==> AtSurrogate(t))
    && (Surrogate(r) ==> SurrogateAt(t) == r && Drop(3, t) == k)
    && (!Surrogate(r) ==> Decode(t).0 == r && Drop(Decode(t).1, t) == k)
  }

  lemma ReadTwo(a: nat, b: nat, k: Text)
    requires 2 <= a < 32 && b < 64
    ensures Reads(Ch(0xC0 + a, Ch(0x80 + b, k)), a * 64 + b, k)
  {
    Drops(0xC0 + a, 0x80 + b, 0, 0, k);
  }

  lemma ReadThree(a: nat, b: nat, c: nat, k: Text)
    requires a < 16 && b < 64 && c < 64 && (a == 0 ==> b >= 32)
    ensures Reads(Ch(0xE0 + a, Ch(0x80 + b, Ch(0x80 + c, k))), a * 4096 + b * 64 + c, k)
  {
    Drops(0xE0 + a, 0x80 + b, 0x80 + c, 0, k);
  }

  lemma ReadFour(a: nat, b: nat, c: nat, d: nat, k: Text)
    requires a <= 4 && b < 64 && c < 64 && d < 64 && (a == 0 ==> b >= 16) && (a == 4 ==> b < 16)
    ensures Reads(Ch(0xF0 + a, Ch(0x80 + b, Ch(0x80 + c, Ch(0x80 + d, k)))), a * 262144 + b * 4096 + c * 64 + d, k)
  {
    Drops(0xF0 + a, 0x80 + b, 0x80 + c, 0x80 + d, k);
  }

  /** A code point is decoded as it was encoded; a surrogate is found as one. */
  lemma DecodeEncode(r: nat, k: Text)
    requires r <= MAX_RUNE
    ensures Reads(Cat(Encode(r), k), r, k)
  {
    if r < 0x80 {
      hide Encode, Cat;
      EncodeShape(r, k);
      Drops(r, 0, 0, 0, k);
    } else {
      hide Encode, Cat, Reads;
      if r < 0x800 {
        var a, b := TwoBytes(r, k);
        ReadTwo(a, b, k);
      } else if r < 0x10000 {
        var a, b, c := ThreeBytes(r, k);
        ReadThree(a, b, c, k);
      } else {
        var a, b, c, d := FourBytes(r, k);
        ReadFour(a, b, c, d, k);
      }
    }
  }

  lemma TwoBytes(r: nat, k: Text) returns (a: nat, b: nat)
    requires 0x80 <= r < 0x800
    ensures 2 <= a < 32 && b < 64 && a * 64 + b == r
    ensures Cat(Encode(r), k) == Ch(0xC0 + a, Ch(0x80 + b, k))
  {
    hide Encode, Cat;
    EncodeShape(r, k);
    a, b := r / 64, r % 64;
  }

  lemma ThreeBytes(r: nat, k: Text) returns (a: nat, b: nat, c: nat)
    requires 0x800 <= r < 0x10000
    ensures a < 16 && b < 64 && c < 64 && a * 4096 + b * 64 + c == r && (a == 0 ==> b >= 32)
    ensures Cat(Encode(r), k) == Ch(0xE0 + a, Ch(0x80 + b, Ch(0x80 + c, k)))
  {
    hide Encode, Cat;
    EncodeShape(r, k);
    a, b, c := r / 4096, r / 64 % 64, r % 64;
  }

  lemma FourBytes(r: nat, k: Text) returns (a: nat, b: nat, c: nat, d: nat)
    requires 0x10000 <= r <= MAX_RUNE
    ensures a <= 4 && b < 64 && c < 64 && d < 64 && a * 262144 + b * 4096 + c * 64 + d == r
    ensures (a == 0 ==> b >= 16) && (a == 4 ==> b < 16)
    ensures Cat(Encode(r), k) == Ch(0xF0 + a, Ch(0x80 + b, Ch(0x80 + c, Ch(0x80 + d, k))))
  {
    hide Encode, Cat;
    EncodeShape(r, k);
    a, b, c, d := r / 262144, r / 4096 % 64, r / 64 % 64, r % 64;
  }

  lemma Drops(a: nat, b: nat, c: nat, d: nat, k: Text)
    ensures Drop(1, Ch(a, k)) == k
    ensures Drop(2, Ch(a, Ch(b, k))) == k
    ensures Drop(3, Ch(a, Ch(b, Ch(c, k)))) == k
    ensures Drop(4, Ch(a, Ch(b, Ch(c, Ch(d, k))))) == k
  {
    assert Drop(2, Ch(b, Ch(c, k))) == Drop(1, Ch(c, k)) == Drop(0, k) == k;
    assert Drop(2, Ch(c, Ch(d, k))) == Drop(1, Ch(d, k)) == k;
    assert Drop(3, Ch(b, Ch(c, Ch(d, k)))) == Drop(2, Ch(c, Ch(d, k)));
    assert Drop(3, Ch(a, Ch(b, Ch(c, k)))) == Drop(2, Ch(b, Ch(c, k)));
  }
}
