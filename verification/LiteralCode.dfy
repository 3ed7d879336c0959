/** The printers and readers of literals as they run: loops over an index that append to a buffer.
    Each is proved to compute the function of the module Literals it stands for. */
module LiteralCode {
  import opened Tokens
  import opened Bytes
  import opened Literals

  function Of(s: seq<nat>): Text {
    Cat(s, Fin)
  }

  lemma {:induction false} CatPlus(a: seq<nat>, b: seq<nat>, k: Text)
    ensures Cat(a + b, k) == Cat(a, Cat(b, k))
    decreases a
  {
    if a == [] {
      assert a + b == b;
    } else {
      assert (a + b)[1..] == a[1..] + b;
      CatPlus(a[1..], b, k);
    }
  }

  lemma OfIs(s: seq<nat>)
    ensures Of(s) == Cat(s, Fin)
  {
  }

  lemma {:induction false} OfAt(s: seq<nat>, i: nat)
    requires i <= |s|
    ensures i < |s| ==> Of(s[i..]) == Ch(s[i], Of(s[i + 1..]))
    ensures i == |s| ==> Of(s[i..]) == Fin
  {
    if i < |s| {
      assert s[i..][1..] == s[i + 1..];
    }
  }

  lemma {:induction false} DropOf(s: seq<nat>, i: nat, n: nat)
    requires i + n <= |s|
    ensures Drop(n, Of(s[i..])) == Of(s[i + n..])
    decreases n
  {
    if n > 0 {
      OfAt(s, i);
      DropOf(s, i + 1, n - 1);
    }
  }

  // ----- printing -----

  predicate ContainsUpTo(s: seq<nat>, i: nat, b: nat)
    requires i <= |s|
  {
    exists j | 0 <= j < i :: s[j] == b
  }

  lemma {:induction false} ContainsOf(s: seq<nat>, i: nat, b: nat)
    requires i <= |s|
    ensures Contains(Of(s[i..]), b) <==> exists j | i <= j < |s| :: s[j] == b
    decreases |s| - i
  {
    OfAt(s, i);
    if i < |s| {
      ContainsOf(s, i + 1, b);
    }
  }

  /** The choice of quotes at the head of each printer. */
  method ChooseQuote(s: seq<nat>) returns (quote: nat)
    ensures quote == QuoteFor(Of(s))
  {
    var hasSingle, hasDouble := false, false;
    for i := 0 to |s|
      invariant hasSingle <==> ContainsUpTo(s, i, SINGLE)
      invariant hasDouble <==> ContainsUpTo(s, i, DOUBLE)
    {
      if s[i] == SINGLE {
        hasSingle := true;
      }
      if s[i] == DOUBLE {
        hasDouble := true;
      }
    }
    assert s[0..] == s;
    ContainsOf(s, 0, SINGLE);
    ContainsOf(s, 0, DOUBLE);
    quote := if hasSingle && !hasDouble then DOUBLE else SINGLE;
  }

  /** The last n hexadecimal digits of v, as the format verb writes them. */
  method FormatHex(n: nat, v: nat, ghost k: Text) returns (b: seq<nat>)
    ensures Cat(b, k) == Digits(n, v, k)
  {
    b := [];
    var i: nat, rest: nat := n, v;
    while i > 0
      invariant i <= n
      invariant Digits(n, v, k) == Digits(i, rest, Cat(b, k))
    {
      ghost var was := b;
      b := [Hex(rest % 16)] + b;
      assert b[1..] == was;
      i, rest := i - 1, rest / 16;
    }
  }

  lemma CatTwo(a: nat, b: nat, k: Text)
    ensures Cat([a, b], k) == Ch(a, Ch(b, k))
  {
    CatFour([a, b], k);
  }

  /** A backslash, the letter e and n hexadecimal digits of v. */
  method NumericEscaped(e: nat, n: nat, v: nat, ghost k: Text) returns (b: seq<nat>)
    ensures Cat(b, k) == Ch(BACKSLASH, Ch(e, Digits(n, v, k)))
  {
    hide Cat, Digits;
    var d := FormatHex(n, v, k);
    b := [BACKSLASH, e] + d;
    CatPlus([BACKSLASH, e], d, k);
    CatTwo(BACKSLASH, e, Cat(d, k));
  }

  /** The cases of the loop of pyBytesRepr. */
  method ByteEscaped(c: nat, quote: nat, ghost k: Text) returns (b: seq<nat>)
    ensures Cat(b, k) == EscapeByte(c, quote, k)
  {
    hide Cat, Digits;
    if c == BACKSLASH {
      b := [BACKSLASH, BACKSLASH];
      CatTwo(BACKSLASH, BACKSLASH, k);
    } else if c == quote {
      b := [BACKSLASH, quote];
      CatTwo(BACKSLASH, quote, k);
    } else if c == LF {
      b := [BACKSLASH, 110];
      CatTwo(BACKSLASH, 110, k);
    } else if c == CR {
      b := [BACKSLASH, 114];
      CatTwo(BACKSLASH, 114, k);
    } else if c == TAB {
      b := [BACKSLASH, 116];
      CatTwo(BACKSLASH, 116, k);
    } else if c < 0x20 || c >= 0x7F {
      b := NumericEscaped(120, 2, c, k);
    } else {
      b := [c];
      CatOne(c, k);
    }
  }

  /** pyBytesLiteral; pyBytesRepr writes the letter b before the same. */
  method PyBytesLiteral(bs: seq<nat>) returns (b: seq<nat>)
    ensures Of(b) == BytesLiteral(Of(bs), Fin)
  {
    hide Cat, EscapeByte, Digits, QuoteFor;
    var quote := ChooseQuote(bs);
    ghost var k := Ch(quote, Fin);
    b := [quote];
    CatOne(quote, BytesBody(Of(bs), quote, k));
    assert bs[0..] == bs;
    for i := 0 to |bs|
      invariant Cat(b, BytesBody(Of(bs[i..]), quote, k)) == BytesLiteral(Of(bs), Fin)
    {
      ghost var rest := BytesBody(Of(bs[i + 1..]), quote, k);
      var e := ByteEscaped(bs[i], quote, rest);
      OfAt(bs, i);
      CatPlus(b, e, rest);
      b := b + e;
    }
    OfAt(bs, |bs|);
    CatPlus(b, [quote], Fin);
    CatOne(quote, Fin);
    b := b + [quote];
  }

  /** The cases of the loop of pyRepr, and with every character printable those of
      encodeStringWithQuote. */
  method RuneEscaped(r: nat, quote: nat, printable: nat -> bool, ghost k: Text) returns (b: seq<nat>)
    ensures Cat(b, k) == EscapeRune(r, quote, printable, k)
  {
    hide Cat, Digits;
    if r == BACKSLASH {
      b := [BACKSLASH, BACKSLASH];
      CatTwo(BACKSLASH, BACKSLASH, k);
    } else if r == LF {
      b := [BACKSLASH, 110];
      CatTwo(BACKSLASH, 110, k);
    } else if r == CR {
      b := [BACKSLASH, 114];
      CatTwo(BACKSLASH, 114, k);
    } else if r == TAB {
      b := [BACKSLASH, 116];
      CatTwo(BACKSLASH, 116, k);
    } else if r == quote {
      b := [BACKSLASH, quote];
      CatTwo(BACKSLASH, quote, k);
    } else if r < 0x20 || r == 0x7F {
      b := NumericEscaped(120, 2, r, k);
    } else if r > 0x7F && !printable(r) {
      if r <= 0xFF {
        b := NumericEscaped(120, 2, r, k);
      } else if r <= 0xFFFF {
        b := NumericEscaped(117, 4, r, k);
      } else {
        b := NumericEscaped(85, 8, r, k);
      }
    } else {
      b := WriteRune(r);
    }
  }

  lemma DecodeFits(t: Text)
    requires t.Ch?
    ensures Decode(t).1 <= Size(t)
  {
    assert Size(t) == 1 + Size(t.tl);
    if t.tl.Ch? {
      assert Size(t.tl) == 1 + Size(t.tl.tl);
      if t.tl.tl.Ch? {
        assert Size(t.tl.tl) == 1 + Size(t.tl.tl.tl);
      }
    }
  }

  lemma OfSize(s: seq<nat>, i: nat)
    requires i <= |s|
    ensures Size(Of(s[i..])) == |s| - i
  {
    CatSize(s[i..], Fin);
  }

  // ----- names -----

  lemma NameGoesOn(s: seq<nat>, start: nat, i: nat)
    requires start <= i < |s| && s[i] != 125
    ensures var r, r' := NameOf(Of(s[i..])), NameOf(Of(s[i + 1..]));
            s[start..i] + r.0 == s[start..i + 1] + r'.0 && r.1 == r'.1
  {
    hide Of;
    OfAt(s, i);
    assert s[start..i + 1] == s[start..i] + [s[i]];
  }

  lemma NameStops(s: seq<nat>, i: nat)
    requires i <= |s| && (i < |s| ==> s[i] == 125)
    ensures NameOf(Of(s[i..])) == ([], Of(s[if i < |s| then i + 1 else i..]))
  {
    hide Of;
    OfAt(s, i);
  }

  // ----- machine words -----

  lemma Doubled(w: bv32)
    requires w < 0x10_0000
    ensures (w << 1) as nat == 2 * (w as nat) && ((w << 1) | 1) as nat == 2 * (w as nat) + 1
  {
  }

  lemma WordFits(w: bv32)
    requires w as nat < 0x10_0000
    ensures w < 0x10_0000
  {
  }

  /** A code point as a machine word. */
  function Word(n: nat): (w: bv32)
    requires n < 0x20_0000
    ensures w as nat == n
  {
    if n == 0 then 0
    else
      var w := Word(n / 2);
      WordFits(w);
      Doubled(w);
      if n % 2 == 0 then w << 1 else (w << 1) | 1
  }

  /** The bytes that writeRuneOrSurrogate shifts and masks out of a surrogate. */
  function Masked(w: bv32): seq<nat> {
    [(0xE0 | (w >> 12)) as nat, (0x80 | ((w >> 6) & 0x3F)) as nat, (0x80 | (w & 0x3F)) as nat]
  }

  /** The code point that pyRepr joins from three bytes. */
  function Joined(b0: bv32, b1: bv32, b2: bv32): nat {
    (((b0 & 0x0F) << 12) | ((b1 & 0x3F) << 6) | (b2 & 0x3F)) as nat
  }

  /** The masks cut a surrogate into a digit of 4 bits and two of 6. */
  lemma MaskedDigits(w: bv32) returns (d1: nat, d2: nat)
    requires 0xD800 <= w <= 0xDFFF
    ensures d1 < 64 && d2 < 64 && w as nat == 0xD000 + d1 * 64 + d2
    ensures Masked(w) == [0xED, 0x80 + d1, 0x80 + d2]
  {
    d1, d2 := ((w >> 6) & 0x3F) as nat, (w & 0x3F) as nat;
  }

  lemma WordRange(w: bv32)
    requires Surrogate(w as nat)
    ensures 0xD800 <= w <= 0xDFFF
  {
  }

  lemma EncodeDigits(n: nat, d1: nat, d2: nat)
    requires Surrogate(n) && d1 < 64 && d2 < 64 && n == 0xD000 + d1 * 64 + d2
    ensures Encode(n) == [0xED, 0x80 + d1, 0x80 + d2]
  {
  }

  /** What the masks write is the encoding of the code point. */
  lemma SurrogateMasks(n: nat)
    requires Surrogate(n)
    ensures Masked(Word(n)) == Encode(n)
  {
    hide Masked, Word, Encode;
    WordRange(Word(n));
    var d1, d2 := MaskedDigits(Word(n));
    EncodeDigits(n, d1, d2);
  }

  lemma WordsJoined(b0: bv32, b1: bv32, b2: bv32)
    requires b0 as nat == 0xED && 0xA0 <= b1 as nat <= 0xBF && 0x80 <= b2 as nat <= 0xBF
    ensures Joined(b0, b1, b2) == 0xD000 + (b1 as nat - 0x80) * 64 + (b2 as nat - 0x80)
  {
  }

  /** What pyRepr joins from the bytes of a surrogate is its code point. */
  lemma SurrogateJoined(t: Text)
    requires AtSurrogate(t)
    ensures Joined(Word(t.b), Word(t.tl.b), Word(t.tl.tl.b)) == SurrogateAt(t)
  {
    hide Joined, Word;
    WordsJoined(Word(t.b), Word(t.tl.b), Word(t.tl.tl.b));
  }

  /** A surrogate goes through the masks that write it and the masks that find it again. */
  lemma SurrogateWords(n: nat)
    requires Surrogate(n)
    ensures var b := Masked(Word(n)); |b| == 3 && Joined(Word(b[0]), Word(b[1]), Word(b[2])) == n
  {
    hide Masked, Word, Joined, AtSurrogate, SurrogateAt, Cat;
    SurrogateMasks(n);
    DecodeEncode(n, Fin);
    EncodeText(n);
    SurrogateJoined(Cat(Encode(n), Fin));
  }

  lemma EncodeText(n: nat)
    requires Surrogate(n)
    ensures var b := Encode(n);
            |b| == 3 && Cat(b, Fin) == Ch(b[0], Ch(b[1], Ch(b[2], Fin)))
  {
    EncodeDigits(n, n / 64 % 64, n % 64);
    hide Encode;
    CatFour(Encode(n), Fin);
  }

  /** writeRuneOrSurrogate. */
  method WriteRuneOrSurrogate(r: nat) returns (out: seq<nat>)
    ensures out == WriteAny(r)
  {
    hide Encode, Word, Masked;
    if 0xD800 <= r <= 0xDFFF {
      SurrogateMasks(r);
      out := Masked(Word(r));
    } else {
      out := WriteRune(r);
    }
  }

  /** The bytes that pyRepr looks at for a lone surrogate. */
  lemma SurrogateBytes(s: seq<nat>, i: nat)
    requires i < |s|
    ensures var t := Of(s[i..]);
            && (AtSurrogate(t) <==>
                i + 3 <= |s| && s[i] == 0xED && 0xA0 <= s[i + 1] <= 0xBF && 0x80 <= s[i + 2] <= 0xBF)
            && (AtSurrogate(t) ==>
                  t.b == s[i] && t.tl.b == s[i + 1] && t.tl.tl.b == s[i + 2] && t.tl.tl.tl == Of(s[i + 3..]))
  {
    hide Cat;
    OfAt(s, i);
    if i + 1 < |s| {
      OfAt(s, i + 1);
      if i + 2 < |s| {
        OfAt(s, i + 2);
      } else {
        OfAt(s, |s|);
      }
    } else {
      OfAt(s, |s|);
    }
  }

  /** pyRepr. */
  method PyRepr(s: seq<nat>, printable: nat -> bool) returns (b: seq<nat>)
    ensures Of(b) == Repr(Of(s), printable, Fin)
  {
    hide Cat, EscapeRune, Digits, QuoteFor, Decode, AtSurrogate, SurrogateAt, Of, Drop, Word, Joined;
    var quote := ChooseQuote(s);
    ghost var k := Ch(quote, Fin);
    b := [quote];
    CatOne(quote, ReprBody(Of(s), quote, printable, k));
    assert s[0..] == s;
    var i := 0;
    while i < |s|
      invariant i <= |s|
      invariant Cat(b, ReprBody(Of(s[i..]), quote, printable, k)) == Repr(Of(s), printable, Fin)
    {
      ghost var t := Of(s[i..]);
      var e;
      OfAt(s, i);
      SurrogateBytes(s, i);
      if i + 3 <= |s| && s[i] == 0xED && 0xA0 <= s[i + 1] <= 0xBF && 0x80 <= s[i + 2] <= 0xBF {
        var cp := Joined(Word(s[i]), Word(s[i + 1]), Word(s[i + 2]));
        SurrogateJoined(t);
        e := NumericEscaped(117, 4, cp, ReprBody(Of(s[i + 3..]), quote, printable, k));
        i := i + 3;
      } else {
        var d := Decode(Of(s[i..]));
        DecodeFits(t);
        OfSize(s, i);
        DropOf(s, i, d.1);
        i := i + d.1;
        e := RuneEscaped(d.0, quote, printable, ReprBody(Of(s[i..]), quote, printable, k));
      }
      CatPlus(b, e, ReprBody(Of(s[i..]), quote, printable, k));
      b := b + e;
    }
    OfAt(s, |s|);
    CatPlus(b, [quote], Fin);
    CatOne(quote, Fin);
    b := b + [quote];
    OfIs(b);
  }

  /** pyStringLiteral. */
  method PyStringLiteral(s: seq<nat>) returns (b: seq<nat>)
    ensures Of(b) == StringLiteral(Of(s), Fin)
  {
    hide Cat, EscapeRune, QuoteFor, Decode, Of, Drop;
    var quote := ChooseQuote(s);
    ghost var k := Ch(quote, Fin);
    b := [quote];
    CatOne(quote, StringBody(Of(s), quote, k));
    assert s[0..] == s;
    var i := 0;
    while i < |s|
      invariant i <= |s|
      invariant Cat(b, StringBody(Of(s[i..]), quote, k)) == StringLiteral(Of(s), Fin)
    {
      OfAt(s, i);
      var d := Decode(Of(s[i..]));
      DecodeFits(Of(s[i..]));
      OfSize(s, i);
      DropOf(s, i, d.1);
      i := i + d.1;
      var e := RuneEscaped(d.0, quote, Always, StringBody(Of(s[i..]), quote, k));
      CatPlus(b, e, StringBody(Of(s[i..]), quote, k));
      b := b + e;
    }
    OfAt(s, |s|);
    CatPlus(b, [quote], Fin);
    CatOne(quote, Fin);
    b := b + [quote];
    OfIs(b);
  }

  // ----- decodeEscapes -----

  /** n hexadecimal digits from index i on. */
  predicate AllHex(s: seq<nat>, i: nat, n: nat) {
    i + n <= |s| && forall j | i <= j < i + n :: IsHex(s[j])
  }

  lemma {:induction false} HexRunOf(s: seq<nat>, i: nat, n: nat)
    requires i <= |s|
    ensures HexRun(n, Of(s[i..])) <==> AllHex(s, i, n)
    decreases n
  {
    OfAt(s, i);
    if n > 0 && i < |s| {
      HexRunOf(s, i + 1, n - 1);
      assert AllHex(s, i, n) <==> IsHex(s[i]) && AllHex(s, i + 1, n - 1);
    }
  }

  /** The rest of an octal escape whose first digit is worth v: at most two more digits. */
  method OctalRest(s: seq<nat>, i: nat, v: nat) returns (val: nat, end: nat)
    requires i <= |s|
    ensures i <= end <= |s| && OctalValue(2, v, Of(s[i..])) == (val, Of(s[end..]))
  {
    val, end := v, i;
    var n := 2;
    OfAt(s, i);
    while n > 0 && end < |s| && 48 <= s[end] <= 55
      invariant i <= end <= |s| && n <= 2
      invariant OctalValue(2, v, Of(s[i..])) == OctalValue(n, val, Of(s[end..]))
      decreases n
    {
      OfAt(s, end);
      val, end, n := val * 8 + (s[end] - 48), end + 1, n - 1;
    }
    OfAt(s, end);
  }

  /** The letter escapes that both readers know. */
  function Letter(e: nat): Option<nat> {
    if e == 110 then Some(LF)
    else if e == 116 then Some(TAB)
    else if e == 114 then Some(CR)
    else if e == BACKSLASH || e == SINGLE || e == DOUBLE then Some(e)
    else if e == 97 then Some(7)
    else if e == 98 then Some(8)
    else if e == 102 then Some(12)
    else if e == 118 then Some(11)
    else None
  }

  /** The switch of decodeEscapes on the character at i, after a backslash. */
  method DecodeOne(s: seq<nat>, i: nat) returns (out: seq<nat>, end: nat)
    requires i < |s|
    ensures i < end <= |s| && DecodeEscape(s[i], Of(s[i + 1..])) == (out, Of(s[end..]))
  {
    hide Of, HexRun, HexValue, OctalValue, Drop;
    var e := s[i];
    end := i + 1;
    HexRunOf(s, i + 1, 2);
    HexRunOf(s, i + 1, 4);
    HexRunOf(s, i + 1, 8);
    if Letter(e).Some? {
      out := [Letter(e).value];
    } else if e == LF {
      out := [];
    } else if e == 120 && AllHex(s, i + 1, 2) {
      out := [HexValue(2, 0, Of(s[i + 1..]))];
      DropOf(s, i + 1, 2);
      end := i + 3;
    } else if 48 <= e <= 55 {
      var val;
      val, end := OctalRest(s, i + 1, e - 48);
      out := [val % 256];
    } else if e == 117 && AllHex(s, i + 1, 4) {
      out := WriteRune(HexValue(4, 0, Of(s[i + 1..])));
      DropOf(s, i + 1, 4);
      end := i + 5;
    } else if e == 85 && AllHex(s, i + 1, 8) {
      out := WriteRune(HexValue(8, 0, Of(s[i + 1..])));
      DropOf(s, i + 1, 8);
      end := i + 9;
    } else {
      out := [BACKSLASH, e];
    }
  }

  /** decodeEscapes. */
  method DecodeAll(s: seq<nat>) returns (b: seq<nat>)
    ensures Of(b) == DecodeEscapes(Of(s))
  {
    hide Cat, Of, DecodeEscape;
    b := [];
    var i := 0;
    assert s[0..] == s;
    CatNone(DecodeEscapes(Of(s)));
    while i < |s|
      invariant i <= |s|
      invariant Cat(b, DecodeEscapes(Of(s[i..]))) == DecodeEscapes(Of(s))
    {
      OfAt(s, i);
      if s[i] != BACKSLASH || i + 1 >= |s| {
        if i + 1 == |s| {
          OfAt(s, i + 1);
        }
        CatPlus(b, [s[i]], DecodeEscapes(Of(s[i + 1..])));
        CatOne(s[i], DecodeEscapes(Of(s[i + 1..])));
        b := b + [s[i]];
        i := i + 1;
      } else {
        OfAt(s, i + 1);
        var out, end := DecodeOne(s, i + 1);
        CatPlus(b, out, DecodeEscapes(Of(s[end..])));
        b := b + out;
        i := end;
      }
    }
    OfAt(s, |s|);
    OfIs(b);
  }

  lemma CatNone(k: Text)
    ensures Cat([], k) == k
  {
  }

  // ----- the scanners -----

  lemma {:induction false} MovedPlus(line: nat, col: nat, m: nat, n: nat, t: Text)
    ensures var p := Moved(line, col, m, t); Moved(line, col, m + n, t) == Moved(p.0, p.1, n, Drop(m, t))
    decreases m
  {
    if m > 0 && t.Ch? {
      if t.b == LF {
        MovedPlus(line + 1, 0, m - 1, n, t.tl);
      } else {
        MovedPlus(line, col + 1, m - 1, n, t.tl);
      }
    }
  }

  /** What a loop over the text t makes of it after it has written b. */
  function After(b: seq<nat>, r: Option<(Text, Text)>): Option<(Text, Text)> {
    match r
    case None => None
    case Some(x) => Some((Cat(b, x.0), x.1))
  }

  lemma AfterPlus(b: seq<nat>, e: seq<nat>, r: Option<(Text, Text)>)
    ensures After(b + e, r) == After(b, After(e, r))
  {
    if r.Some? {
      CatPlus(b, e, r.value.0);
    }
  }

  datatype Place = Place(off: nat, line: nat, col: nat)

  /** The position of a scanner in its source. */
  class Cursor {
    const src: seq<nat>
    const names: seq<nat> -> Option<nat>
    var off: nat
    var line: nat
    var col: nat

    constructor (src: seq<nat>, names: seq<nat> -> Option<nat>)
      ensures this.src == src && this.names == names && off == 0 && line == 1 && col == 0
    {
      this.src, this.names, off, line, col := src, names, 0, 1, 0;
    }

    ghost function Here(): Place
      reads this
    {
      Place(off, line, col)
    }

    ghost function Rest(): Text
      requires off <= |src|
      reads this
    {
      Of(src[off..])
    }

    /** Line and column are those of counting byte by byte from the place p. */
    ghost predicate CountedFrom(p: Place)
      reads this
      ensures CountedFrom(p) ==> p.off <= off <= |src|
    {
      p.off <= off <= |src| && (line, col) == Moved(p.line, p.col, off - p.off, Of(src[p.off..]))
    }

    lemma CountedIs(p: Place)
      requires p.off <= off <= |src|
      ensures CountedFrom(p) <==> (line, col) == Moved(p.line, p.col, off - p.off, Of(src[p.off..]))
      ensures p == Here() ==> CountedFrom(p)
    {
    }

    method Advance(n: nat, ghost p: Place)
      requires CountedFrom(p) && off + n <= |src|
      modifies this`off, this`line, this`col
      ensures off == old(off) + n && CountedFrom(p)
    {
      hide Of;
      var i := 0;
      ghost var start := off;
      while i < n
        invariant i <= n && off == start
        invariant (line, col) == Moved(p.line, p.col, start + i - p.off, Of(src[p.off..]))
      {
        ghost var t := Of(src[p.off..]);
        ghost var m: nat := start + i - p.off;
        MovedPlus(p.line, p.col, m, 1, t);
        DropOf(src, p.off, m);
        OfAt(src, off + i);
        OneByte(line, col, Of(src[off + i..]));
        if src[off + i] == LF {
          line, col := line + 1, 0;
        } else {
          col := col + 1;
        }
        i := i + 1;
      }
      off := off + n;
    }

    method PeekByte(n: nat) returns (c: nat)
      ensures c == if off + n < |src| then src[off + n] else 0
    {
      c := if off + n >= |src| then 0 else src[off + n];
    }

    /** Whether three quotes stand here. */
    method AtTriple(quote: nat) returns (r: bool)
      requires off < |src| && quote != 0
      ensures r <==> Next(Rest(), quote) && Next(Rest().tl, quote) && Next(Rest().tl.tl, quote)
      ensures r ==> off + 3 <= |src|
    {
      hide Cat;
      var c0 := PeekByte(0);
      var c1 := PeekByte(1);
      var c2 := PeekByte(2);
      r := c0 == quote && c1 == quote && c2 == quote;
      OfAt(src, off);
      OfAt(src, off + 1);
      if off + 2 <= |src| {
        OfAt(src, off + 2);
      }
    }

    /** The switch of scanString on the character after a backslash. */
    method Escape(bytes: bool, ghost p: Place) returns (out: seq<nat>)
      requires CountedFrom(p) && off + 1 < |src| && src[off] == BACKSLASH
      modifies this`off, this`line, this`col
      ensures CountedFrom(p) && off > old(off)
      ensures (out, Rest()) == Unescape(bytes, names, src[old(off) + 1], Of(src[old(off) + 2..]))
    {
      hide Of, HexRun, HexValue, OctalValue, Drop, NameOf, CountedFrom, Moved, WriteRune, WriteAny;
      var e := src[off + 1];
      var i := off + 2;
      HexRunOf(src, i, 2);
      HexRunOf(src, i, 4);
      HexRunOf(src, i, 8);
      if Letter(e).Some? {
        out := [Letter(e).value];
        Advance(2, p);
      } else if e == LF {
        out := [];
        Advance(2, p);
      } else if e == 120 && AllHex(src, i, 2) {
        var v := HexValue(2, 0, Of(src[i..]));
        out := if bytes then [v % 256] else WriteRune(v);
        DropOf(src, i, 2);
        Advance(4, p);
      } else if 48 <= e <= 55 {
        var val, end := OctalRest(src, i, e - 48);
        out := if bytes then [val % 256] else WriteRune(val);
        Advance(end - off, p);
      } else if e == 117 && !bytes && AllHex(src, i, 4) {
        out := WriteRuneOrSurrogate(HexValue(4, 0, Of(src[i..])));
        DropOf(src, i, 4);
        Advance(6, p);
      } else if e == 85 && !bytes && AllHex(src, i, 8) {
        out := WriteRuneOrSurrogate(Clamp(HexValue(8, 0, Of(src[i..]))));
        DropOf(src, i, 8);
        Advance(10, p);
      } else if e == 78 {
        Advance(2, p);
        out := Named(bytes, p);
      } else {
        out := [BACKSLASH, e];
        Advance(2, p);
      }
    }

    /** An escape by name, from after its letter on. */
    method Named(bytes: bool, ghost p: Place) returns (out: seq<nat>)
      requires CountedFrom(p)
      modifies this`off, this`line, this`col
      ensures CountedFrom(p) && off >= old(off)
      ensures (out, Rest()) == Unescape(bytes, names, 78, old(Rest()))
    {
      hide Of, NameOf, CountedFrom, Moved, WriteRune;
      OfAt(src, off);
      if !bytes && off < |src| && src[off] == 123 {
        Advance(1, p);
        var name := Name(p);
        var r := names(name);
        out := if r.Some? then WriteRune(r.value) else [BACKSLASH, 78, 123] + name + [125];
      } else {
        out := [BACKSLASH, 78];
      }
    }

    /** A character's name up to its closing brace. */
    method Name(ghost p: Place) returns (name: seq<nat>)
      requires CountedFrom(p)
      modifies this`off, this`line, this`col
      ensures CountedFrom(p) && off >= old(off)
      ensures (name, Rest()) == NameOf(old(Rest()))
    {
      hide Of, Moved, NameOf, CountedFrom;
      ghost var t := Rest();
      var start := off;
      assert src[start..off] + NameOf(t).0 == NameOf(t).0;
      while off < |src| && src[off] != 125
        invariant start <= off && CountedFrom(p)
        invariant NameOf(t) == (src[start..off] + NameOf(Rest()).0, NameOf(Rest()).1)
      {
        NameGoesOn(src, start, off);
        Advance(1, p);
      }
      NameStops(src, off);
      name := src[start..off];
      assert name + [] == name;
      if off < |src| {
        Advance(1, p);
      }
    }

    /** The two searches of the fast path: the bytes up to the next quote, if there is one and no
        backslash comes before it. */
    method Chunk(quote: nat) returns (chunk: Option<seq<nat>>)
      requires off <= |src|
      ensures chunk.Some? <==> FastPath(quote, Rest()).Some?
      ensures chunk.Some? ==>
        && off + |chunk.value| + 1 <= |src|
        && IndexOf(Rest(), quote) == Some(|chunk.value|)
        && FastPath(quote, Rest()) == Some((Of(chunk.value), Of(src[off + |chunk.value| + 1..])))
    {
      hide Of, Contains;
      var closeIdx := IndexOf(Of(src[off..]), quote);
      chunk := None;
      if closeIdx.Some? {
        var n := closeIdx.value;
        IndexFits(Rest(), quote);
        OfSize(src, off);
        TakeOf(src, off, n);
        DropOf(src, off, n + 1);
        if !Contains(Of(src[off..off + n]), BACKSLASH) {
          chunk := Some(src[off..off + n]);
        }
      }
    }

    /** The loop of scanString. */
    method Loop(m: Mode, ghost p: Place) returns (val: Option<seq<nat>>)
      requires CountedFrom(p) && (m.quote == SINGLE || m.quote == DOUBLE)
      modifies this`off, this`line, this`col
      ensures CountedFrom(p)
      ensures var r := Scan(m, names, old(Rest()));
              && (val.Some? <==> r.Some?)
              && (val.Some? ==> r.value == (Of(val.value), Rest()))
    {
      hide Of, Cat, Unescape, CountedFrom, Drop, After, Scan;
      ghost var start := Rest();
      var b: seq<nat> := [];
      AfterNone(Scan(m, names, start));
      while off < |src|
        invariant CountedFrom(p) && off <= |src|
        invariant Scan(m, names, start) == After(b, Scan(m, names, Rest()))
        decreases |src| - off
      {
        OfAt(src, off);
        var c := src[off];
        ghost var t := Rest();
        ghost var was := b;
        var triple := AtTriple(m.quote);
        if if m.triple then triple else c == m.quote {
          ScanCloses(m, names, t);
          DropOf(src, off, if m.triple then 3 else 1);
          Advance(if m.triple then 3 else 1, p);
          AfterClose(b, Rest());
          return Some(b);
        }
        ghost var out: seq<nat>;
        if c == BACKSLASH && off + 1 < |src| {
          OfAt(src, off + 1);
          if m.raw {
            out := [BACKSLASH, src[off + 1]];
            b := b + [BACKSLASH, src[off + 1]];
            ScanBackslash(m, names, t);
            Advance(2, p);
          } else {
            ScanBackslash(m, names, t);
            var e := Escape(m.bytes, p);
            out := e;
            b := b + e;
          }
        } else {
          if off + 1 <= |src| {
            OfAt(src, off + 1);
          }
          ScanPlain(m, names, t);
          out := [c];
          b := b + [c];
          Advance(1, p);
        }
        assert Scan(m, names, t) == After(out, Scan(m, names, Rest()));
        AfterPlus(was, out, Scan(m, names, Rest()));
      }
      OfAt(src, |src|);
      ScanEnd(m, names);
      AfterClose(b, Fin);
      val := None;
    }

    /** scanString from its opening quote on: the value, or none for a literal that does not end.
        Line and column are right unless the fast path took a value with a line end in it. */
    method ScanString(bytes: bool, raw: bool) returns (val: Option<seq<nat>>)
      requires off < |src| && (src[off] == SINGLE || src[off] == DOUBLE)
      modifies this`off, this`line, this`col
      ensures off <= |src|
      ensures var r := ScanLiteral(bytes, raw, names, old(Rest()));
              && (val.Some? <==> r.Some?)
              && (val.Some? ==> r.value == (Of(val.value), Rest()))
      ensures val.Some? ==> (CountedFrom(old(Here())) <==> !MissesLine(raw, old(Rest())))
    {
      hide Of, Moved, Unescape, CountedFrom, Drop, Scan, FastPath, Contains, IndexOf, Take;
      ghost var t := Rest();
      ghost var p := Here();
      CountedIs(p);
      var quote := src[off];
      OfAt(src, off);
      var triple := AtTriple(quote);
      DropOf(src, off, if triple then 3 else 1);
      Advance(if triple then 3 else 1, p);
      if !triple && !raw {
        var chunk := Chunk(quote);
        if chunk.Some? {
          FastPathAgrees(bytes, quote, names, Rest());
          CountedIs(p);
          FastPathCount(quote, Rest(), p, Here(), src);
          col := col + |chunk.value| + 1;
          off := off + |chunk.value| + 1;
          CountedIs(p);
          return chunk;
        }
      }
      val := Loop(Mode(bytes, raw, triple, quote), p);
    }

    /** scanFlatString: the text between the quotes, or none for a literal that does not end. */
    method ScanFlatString() returns (body: Option<seq<nat>>)
      requires off < |src| && (src[off] == SINGLE || src[off] == DOUBLE)
      modifies this`off, this`line, this`col
      ensures CountedFrom(old(Here()))
      ensures var r := FlatLiteral(old(Rest()));
              && (body.Some? <==> r.Some?)
              && (body.Some? ==> r.value == (Of(body.value), Rest()))
    {
      hide Of, Moved, CountedFrom, Drop, Flat;
      ghost var p := Here();
      CountedIs(p);
      var quote := src[off];
      OfAt(src, off);
      var triple := AtTriple(quote);
      DropOf(src, off, if triple then 3 else 1);
      Advance(if triple then 3 else 1, p);
      body := FlatLoop(triple, quote, p);
    }

    /** The loop of scanFlatString. */
    method FlatLoop(triple: bool, quote: nat, ghost p: Place) returns (body: Option<seq<nat>>)
      requires CountedFrom(p) && (quote == SINGLE || quote == DOUBLE)
      modifies this`off, this`line, this`col
      ensures CountedFrom(p)
      ensures var r := Flat(triple, quote, old(Rest()));
              && (body.Some? <==> r.Some?)
              && (body.Some? ==> r.value == (Of(body.value), Rest()))
    {
      hide Of, Moved, CountedFrom, Drop, Flat, After, FlatFrom;
      var open := off;
      FlatFromHere(triple, quote, src, open);
      while off < |src|
        invariant CountedFrom(p) && open <= off <= |src|
        invariant Flat(triple, quote, old(Rest())) == FlatFrom(triple, quote, src, open, off)
        decreases |src| - off
      {
        var c := src[off];
        OfAt(src, off);
        var three := AtTriple(quote);
        if c == BACKSLASH {
          FlatPair(triple, quote, src, open, off);
          Advance(1, p);
          if off < |src| {
            Advance(1, p);
          }
        } else if c == LF && !triple {
          FlatLine(triple, quote, src, open, off);
          return None;
        } else if c == quote && (triple ==> three) {
          body := Some(src[open..off]);
          FlatClose(triple, quote, src, open, off);
          Advance(if triple then 3 else 1, p);
          return;
        } else {
          FlatPlain(triple, quote, src, open, off);
          Advance(1, p);
        }
      }
      FlatEnd(triple, quote, src, open, off);
      body := None;
    }
  }

  /** What scanFlatString gives for a body from `open` of which it has read up to `at`. */
  function FlatFrom(triple: bool, q: nat, s: seq<nat>, open: nat, at: nat): Option<(Text, Text)>
    requires open <= at <= |s|
  {
    After(s[open..at], Flat(triple, q, Of(s[at..])))
  }

  lemma FlatFromHere(triple: bool, q: nat, s: seq<nat>, open: nat)
    requires open <= |s|
    ensures FlatFrom(triple, q, s, open, open) == Flat(triple, q, Of(s[open..]))
  {
    hide Of, Flat;
    AfterNone(Flat(triple, q, Of(s[open..])));
  }

  lemma FlatPair(triple: bool, q: nat, s: seq<nat>, open: nat, at: nat)
    requires open <= at < |s| && s[at] == BACKSLASH
    ensures at + 1 < |s| ==> FlatFrom(triple, q, s, open, at) == FlatFrom(triple, q, s, open, at + 2)
    ensures at + 1 == |s| ==> FlatFrom(triple, q, s, open, at) == None == FlatFrom(triple, q, s, open, |s|)
  {
    hide Of, After;
    OfAt(s, at);
    OfAt(s, at + 1);
    AfterClose(s[open..at], Fin);
    AfterClose(s[open..], Fin);
    if at + 1 < |s| {
      var r := Flat(triple, q, Of(s[at + 2..]));
      AfterTwo(s[at], s[at + 1], r);
      AfterPlus(s[open..at], [s[at], s[at + 1]], r);
      assert s[open..at] + [s[at], s[at + 1]] == s[open..at + 2];
    } else {
      assert s[open..|s|] == s[open..];
    }
  }

  lemma AfterTwo(a: nat, b: nat, r: Option<(Text, Text)>)
    ensures After([a], r) == match r case None => None case Some(x) => Some((Ch(a, x.0), x.1))
    ensures After([a, b], r) == match r case None => None case Some(x) => Some((Ch(a, Ch(b, x.0)), x.1))
  {
    if r.Some? {
      CatOne(a, r.value.0);
      CatTwo(a, b, r.value.0);
    }
  }

  lemma FlatLine(triple: bool, q: nat, s: seq<nat>, open: nat, at: nat)
    requires open <= at < |s| && s[at] == LF && !triple
    ensures FlatFrom(triple, q, s, open, at) == None
  {
    OfAt(s, at);
  }

  lemma FlatClose(triple: bool, q: nat, s: seq<nat>, open: nat, at: nat)
    requires open <= at < |s| && s[at] == q && (q == SINGLE || q == DOUBLE)
    requires triple ==> at + 3 <= |s| && var t := Of(s[at..]); Next(t.tl, q) && Next(t.tl.tl, q)
    ensures FlatFrom(triple, q, s, open, at) == Some((Of(s[open..at]), Of(s[at + (if triple then 3 else 1)..])))
  {
    hide Of, Drop;
    OfAt(s, at);
    DropOf(s, at, if triple then 3 else 1);
    AfterClose(s[open..at], Of(s[at + (if triple then 3 else 1)..]));
  }

  lemma FlatPlain(triple: bool, q: nat, s: seq<nat>, open: nat, at: nat)
    requires open <= at < |s| && s[at] != BACKSLASH && (s[at] == LF ==> triple)
    requires s[at] == q ==> triple && var t := Of(s[at..]); !(Next(t.tl, q) && Next(t.tl.tl, q))
    ensures FlatFrom(triple, q, s, open, at) == FlatFrom(triple, q, s, open, at + 1)
  {
    hide Of, After;
    OfAt(s, at);
    var r := Flat(triple, q, Of(s[at + 1..]));
    AfterTwo(s[at], 0, r);
    AfterPlus(s[open..at], [s[at]], r);
    assert s[open..at] + [s[at]] == s[open..at + 1];
  }

  lemma FlatEnd(triple: bool, q: nat, s: seq<nat>, open: nat, at: nat)
    requires open <= at == |s|
    ensures FlatFrom(triple, q, s, open, at) == None
  {
    OfAt(s, at);
  }

  /** The fast path takes a value with a line end in it. */
  predicate MissesLine(raw: bool, t: Text)
    requires t.Ch?
  {
    && !raw && !(Next(t.tl, t.b) && Next(t.tl.tl, t.b))
    && FastPath(t.b, Drop(1, t)).Some? && Contains(FastPath(t.b, Drop(1, t)).value.0, LF)
  }

  /** Where counting on from the place `at`, reached from p, gets to. */
  lemma FastPathCount(q: nat, t: Text, p: Place, at: Place, src: seq<nat>)
    requires FastPath(q, t).Some? && q != LF
    requires p.off <= at.off <= |src| && t == Of(src[at.off..])
    requires (at.line, at.col) == Moved(p.line, p.col, at.off - p.off, Of(src[p.off..]))
    ensures var n := IndexOf(t, q).value;
            (Moved(p.line, p.col, at.off + n + 1 - p.off, Of(src[p.off..])) == (at.line, at.col + n + 1)) <==>
            !Contains(FastPath(q, t).value.0, LF)
  {
    hide Moved, Of, Contains, Take, Drop;
    var n := IndexOf(t, q).value;
    MovedPlus(p.line, p.col, at.off - p.off, n + 1, Of(src[p.off..]));
    DropOf(src, p.off, at.off - p.off);
    FastPathPosition(q, t, at.line, at.col);
  }

  lemma OneByte(line: nat, col: nat, t: Text)
    requires t.Ch?
    ensures Moved(line, col, 1, t) == if t.b == LF then (line + 1, 0) else (line, col + 1)
  {
    assert Moved(line + 1, 0, 0, t.tl) == (line + 1, 0);
    assert Moved(line, col + 1, 0, t.tl) == (line, col + 1);
  }

  lemma {:induction false} IndexFits(t: Text, q: nat)
    ensures IndexOf(t, q).Some? ==> IndexOf(t, q).value < Size(t)
    decreases t
  {
    if t.Ch? {
      IndexFits(t.tl, q);
    }
  }

  lemma {:induction false} TakeOf(s: seq<nat>, i: nat, n: nat)
    requires i + n <= |s|
    ensures Take(n, Of(s[i..])) == Of(s[i..i + n])
    decreases n
  {
    if n > 0 {
      OfAt(s, i);
      TakeOf(s, i + 1, n - 1);
      assert s[i..i + n][1..] == s[i + 1..i + 1 + (n - 1)];
    }
  }

  lemma AfterNone(r: Option<(Text, Text)>)
    ensures After([], r) == r
  {
  }

  lemma AfterClose(b: seq<nat>, u: Text)
    ensures After(b, Some((Fin, u))) == Some((Of(b), u))
    ensures After(b, None) == None
  {
  }

  lemma ScanEnd(m: Mode, names: seq<nat> -> Option<nat>)
    ensures Scan(m, names, Fin) == None
  {
  }

  lemma ScanCloses(m: Mode, names: seq<nat> -> Option<nat>, t: Text)
    requires t.Ch? && Closes(m, t)
    ensures Scan(m, names, t) == Some((Fin, Drop(if m.triple then 3 else 1, t)))
  {
  }

  lemma ScanBackslash(m: Mode, names: seq<nat> -> Option<nat>, t: Text)
    requires t.Ch? && !Closes(m, t) && t.b == BACKSLASH && t.tl.Ch?
    ensures m.raw ==> Scan(m, names, t) == After([BACKSLASH, t.tl.b], Scan(m, names, t.tl.tl))
    ensures !m.raw ==>
      var u := Unescape(m.bytes, names, t.tl.b, t.tl.tl); Scan(m, names, t) == After(u.0, Scan(m, names, u.1))
  {
    hide Unescape, Cat;
  }

  lemma ScanPlain(m: Mode, names: seq<nat> -> Option<nat>, t: Text)
    requires t.Ch? && !Closes(m, t) && !(t.b == BACKSLASH && t.tl.Ch?)
    ensures Scan(m, names, t) == After([t.b], Scan(m, names, t.tl))
  {
    hide Unescape, Cat;
    var r := Scan(m, names, t.tl);
    if r.Some? {
      CatOne(t.b, r.value.0);
    }
  }
}
