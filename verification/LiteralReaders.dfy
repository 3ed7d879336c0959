/** The two readers of string literals on text that no printer wrote: where a literal ends, and exactly
    when scanString (parser/lex.go) and scanFlatString with decodeEscapes (lex/strings.go, ast/emit.go)
    give it one value. */
module LiteralReaders {
  import opened Tokens
  import opened Bytes
  import opened Literals

  /** Both readers take the escape of the character e, with the body u after it, for the same: no `\x`
      or octal escape of 0x80 or more in a string, no surrogate, and no `\u` or `\U` in bytes. */
  predicate Common(bytes: bool, e: nat, u: Text) {
    && (e == 120 && HexRun(2, u) ==> bytes || HexValue(2, 0, u) < 0x80)
    && (48 <= e <= 55 ==> bytes || OctalValue(2, e - 48, u).0 < 0x80)
    && (e == 117 && HexRun(4, u) ==> !bytes && !Surrogate(HexValue(4, 0, u)))
    && (e == 85 && HexRun(8, u) ==> !bytes && !Surrogate(HexValue(8, 0, u)))
  }

  /** Every escape of a body is common. */
  predicate AllCommon(bytes: bool, t: Text)
    decreases Size(t)
  {
    if t.Fin? then true
    else if t.b != BACKSLASH || t.tl.Fin? then AllCommon(bytes, t.tl)
    else Sizes(t); Common(bytes, t.tl.b, t.tl.tl) && AllCommon(bytes, DecodeEscape(t.tl.b, t.tl.tl).1)
  }

  /** No escape of a body is a character by its name. */
  predicate NoNames(t: Text)
    decreases Size(t)
  {
    if t.Fin? then true
    else if t.b != BACKSLASH || t.tl.Fin? then NoNames(t.tl)
    else Sizes(t); !(t.tl.b == 78 && Next(t.tl.tl, 123)) && NoNames(DecodeEscape(t.tl.b, t.tl.tl).1)
  }

  // ----- digits stand in the body -----

  lemma {:induction false} HexFlat(n: nat, v: nat, triple: bool, q: nat, u: Text, w: Text, k: Text)
    requires (q == SINGLE || q == DOUBLE) && Flat(triple, q, u) == Some((w, k))
    ensures HexRun(n, u) <==> HexRun(n, w)
    ensures HexRun(n, w) ==>
              HexValue(n, v, u) == HexValue(n, v, w) && Flat(triple, q, Drop(n, u)) == Some((Drop(n, w), k))
    decreases n
  {
    if n > 0 && u.Ch? && IsHex(u.b) {
      HexFlat(n - 1, v * 16 + Unhex(u.b), triple, q, u.tl, w.tl, k);
    }
  }

  lemma {:induction false} OctalFlat(n: nat, v: nat, triple: bool, q: nat, u: Text, w: Text, k: Text)
    requires (q == SINGLE || q == DOUBLE) && Flat(triple, q, u) == Some((w, k))
    ensures OctalValue(n, v, u).0 == OctalValue(n, v, w).0
    ensures Flat(triple, q, OctalValue(n, v, u).1) == Some((OctalValue(n, v, w).1, k))
    decreases n
  {
    if n > 0 && Octal(u) {
      OctalFlat(n - 1, v * 8 + (u.b - 48), triple, q, u.tl, w.tl, k);
    }
  }

  lemma OctalBound(v: nat, t: Text)
    requires v < 8
    ensures OctalValue(2, v, t).0 < 512
  {
    if Octal(t) {
      assert OctalValue(2, v, t) == OctalValue(1, v * 8 + (t.b - 48), t.tl);
    }
  }

  lemma HexBound(t: Text)
    requires HexRun(2, t)
    ensures HexValue(2, 0, t) < 256
  {
    assert HexRun(1, t.tl);
    assert HexValue(2, 0, t) == HexValue(1, Unhex(t.b), t.tl) == HexValue(0, Unhex(t.b) * 16 + Unhex(t.tl.b), t.tl.tl);
  }

  /** Digits are decoded as they stand. */
  lemma {:induction false} DigitsStand(n: nat, t: Text)
    requires HexRun(n, t)
    ensures Size(DecodeEscapes(t)) == n + Size(DecodeEscapes(Drop(n, t)))
    decreases n
  {
    if n > 0 {
      DigitsStand(n - 1, t.tl);
    }
  }

  // ----- one escape -----

  /** What the two readers make of one escape: the same, or scanString writes no less and something else. */
  predicate Weighed(common: bool, a: seq<nat>, b: seq<nat>) {
    |a| >= |b| && (common <==> a == b)
  }

  lemma RuneSize(r: nat)
    ensures 1 <= |WriteRune(r)| <= 4
    ensures r < 0x10000 ==> |WriteRune(r)| <= 3
    ensures r < 0x80 ==> WriteRune(r) == [r]
    ensures 0x80 <= r < 0x800 ==> |WriteRune(r)| == 2
    ensures Surrogate(r) ==> |WriteAny(r)| == 3 && |WriteRune(r)| == 3 && WriteAny(r) != WriteRune(r)
    ensures !Surrogate(r) ==> WriteAny(r) == WriteRune(r)
  {
    if Surrogate(r) {
      assert Encode(r)[0] == 0xED && REPLACEMENT[0] == 0xEF;
    }
  }

  lemma Clamped(r: nat)
    ensures WriteAny(Clamp(r)) == WriteAny(r)
  {
    hide Encode;
  }

  /** An escape that both readers take whole, and what is left of text and body after it. */
  lemma OneEscape(bytes: bool, names: seq<nat> -> Option<nat>, triple: bool, q: nat, e: nat, u: Text, w: Text, k: Text)
    requires (q == SINGLE || q == DOUBLE) && Flat(triple, q, u) == Some((w, k))
    requires bytes || !(e == 78 && Next(w, 123))
    requires !(bytes && ((e == 117 && HexRun(4, w)) || (e == 85 && HexRun(8, w))))
    ensures var a, d := Unescape(bytes, names, e, u), DecodeEscape(e, w);
            Weighed(Common(bytes, e, w), a.0, d.0) && Flat(triple, q, a.1) == Some((d.1, k))
  {
    hide Flat, HexRun, HexValue, OctalValue, NameOf, WriteRune, WriteAny, Drop;
    if e == 120 {
      HexFlat(2, 0, triple, q, u, w, k);
      if HexRun(2, w) {
        HexBound(w);
        RuneSize(HexValue(2, 0, w));
      }
    } else if 48 <= e <= 55 {
      OctalFlat(2, e - 48, triple, q, u, w, k);
      OctalBound(e - 48, w);
      RuneSize(OctalValue(2, e - 48, w).0);
    } else if e == 117 {
      HexFlat(4, 0, triple, q, u, w, k);
      if HexRun(4, w) {
        RuneSize(HexValue(4, 0, w));
      }
    } else if e == 85 {
      HexFlat(8, 0, triple, q, u, w, k);
      if HexRun(8, w) {
        RuneSize(HexValue(8, 0, w));
        Clamped(HexValue(8, 0, w));
      }
    } else if e == 78 {
      NextFlat(123, triple, q, u, w, k);
    }
  }

  lemma NextFlat(b: nat, triple: bool, q: nat, u: Text, w: Text, k: Text)
    requires b != SINGLE && b != DOUBLE && (q == SINGLE || q == DOUBLE) && Flat(triple, q, u) == Some((w, k))
    ensures Next(u, b) ==> Next(w, b)
  {
  }

  // ----- whole bodies -----

  /** After one escape each, the readers have written the same to the end exactly when the escape and
      the rest are the same. */
  lemma Weigh(common: bool, all: bool, a: seq<nat>, b: seq<nat>, x: Text, y: Text)
    requires Weighed(common, a, b) && Size(x) >= Size(y) && (x == y <==> all)
    ensures Size(Cat(a, x)) >= Size(Cat(b, y)) && (Cat(a, x) == Cat(b, y) <==> common && all)
  {
    CatSize(a, x);
    CatSize(b, y);
    if |a| == |b| && Size(x) == Size(y) {
      CatApart(a, b, x, y);
    }
  }

  lemma {:induction false} CatApart(a: seq<nat>, b: seq<nat>, x: Text, y: Text)
    requires |a| == |b|
    ensures Cat(a, x) == Cat(b, y) <==> a == b && x == y
    decreases a
  {
    if a != [] {
      CatApart(a[1..], b[1..], x, y);
      assert a == [a[0]] + a[1..] && b == [b[0]] + b[1..];
    }
  }

  /** Where a body without names ends for the one reader it ends for the other, and the values are the
      same exactly when every escape is common. */
  lemma {:induction false} BodiesAgree(bytes: bool, names: seq<nat> -> Option<nat>, triple: bool, q: nat, t: Text)
    requires (q == SINGLE || q == DOUBLE) && Flat(triple, q, t).Some?
    requires bytes || NoNames(Flat(triple, q, t).value.0)
    ensures var (body, k) := Flat(triple, q, t).value;
            var s := Scan(Mode(bytes, false, triple, q), names, t);
            && s.Some? && s.value.1 == k
            && Size(s.value.0) >= Size(DecodeEscapes(body))
            && (s.value.0 == DecodeEscapes(body) <==> AllCommon(bytes, body))
    decreases Size(t)
  {
    hide Unescape, DecodeEscape, Common, Cat, Drop, Weighed;
    var (body, k) := Flat(triple, q, t).value;
    if t.b == BACKSLASH {
      var e, u, w := t.tl.b, t.tl.tl, body.tl.tl;
      assert Flat(triple, q, u) == Some((w, k));
      Sizes(t);
      if bytes && ((e == 117 && HexRun(4, w)) || (e == 85 && HexRun(8, w))) {
        BodiesAgree(bytes, names, triple, q, u);
        LeftAlone(names, triple, q, e, u, w, k);
      } else {
        OneEscape(bytes, names, triple, q, e, u, w, k);
        var a, d := Unescape(bytes, names, e, u), DecodeEscape(e, w);
        BodiesAgree(bytes, names, triple, q, a.1);
        var s := Scan(Mode(bytes, false, triple, q), names, a.1);
        Weigh(Common(bytes, e, w), AllCommon(bytes, d.1), a.0, d.0, s.value.0, DecodeEscapes(d.1));
      }
    } else if !Closes(Mode(bytes, false, triple, q), t) {
      BodiesAgree(bytes, names, triple, q, t.tl);
    }
  }

  /** `\u` and `\U` in bytes: scanString leaves them as they stand, decodeEscapes writes a character. */
  lemma LeftAlone(names: seq<nat> -> Option<nat>, triple: bool, q: nat, e: nat, u: Text, w: Text, k: Text)
    requires (e == 117 && HexRun(4, w)) || (e == 85 && HexRun(8, w))
    ensures !Common(true, e, w) && Unescape(true, names, e, u) == ([BACKSLASH, e], u)
    ensures forall x: Text | Size(x) >= Size(DecodeEscapes(w)) ::
              Size(Cat([BACKSLASH, e], x)) > Size(Cat(DecodeEscape(e, w).0, DecodeEscapes(DecodeEscape(e, w).1)))
  {
    hide Cat, WriteRune, HexValue, DecodeEscapes;
    var n := if e == 117 then 4 else 8;
    DigitsStand(n, w);
    RuneSize(HexValue(n, 0, w));
    var d := DecodeEscape(e, w);
    CatSize(d.0, DecodeEscapes(d.1));
    forall x: Text | Size(x) >= Size(DecodeEscapes(w))
      ensures Size(Cat([BACKSLASH, e], x)) > Size(Cat(d.0, DecodeEscapes(d.1)))
    {
      CatSize([BACKSLASH, e], x);
      if e == 117 {
        HexBound4(w);
      }
    }
  }

  lemma HexBound4(t: Text)
    requires HexRun(4, t)
    ensures HexValue(4, 0, t) < 0x10000
  {
    HexGrows(3, Unhex(t.b), t.tl, 15);
    HexGrows(2, Unhex(t.b) * 16 + Unhex(t.tl.b), t.tl.tl, 255);
    HexGrows(1, (Unhex(t.b) * 16 + Unhex(t.tl.b)) * 16 + Unhex(t.tl.tl.b), t.tl.tl.tl, 4095);
  }

  lemma HexGrows(n: nat, v: nat, t: Text, max: nat)
    requires n > 0 && HexRun(n, t) && v <= max
    ensures HexRun(n - 1, t.tl) && HexValue(n, v, t) == HexValue(n - 1, v * 16 + Unhex(t.b), t.tl)
    ensures v * 16 + Unhex(t.b) <= max * 16 + 15
    ensures n == 1 ==> HexValue(n, v, t) <= max * 16 + 15
  {
  }

  /** A literal that the flat reader takes, with no character by its name in it: scanString ends it at the
      same quote, and the two values are the same exactly when every escape of the body is common. */
  lemma ReadersAgreeExactly(bytes: bool, names: seq<nat> -> Option<nat>, t: Text)
    requires (Next(t, SINGLE) || Next(t, DOUBLE)) && FlatLiteral(t).Some?
    requires bytes || NoNames(FlatLiteral(t).value.0)
    ensures var (body, k) := FlatLiteral(t).value;
            var s := ScanLiteral(bytes, false, names, t);
            && s.Some? && s.value.1 == k
            && (s.value.0 == DecodeEscapes(body) <==> AllCommon(bytes, body))
  {
    hide Flat, Scan, DecodeEscapes, AllCommon, NoNames;
    var triple := Next(t.tl, t.b) && Next(t.tl.tl, t.b);
    BodiesAgree(bytes, names, triple, t.b, Drop(if triple then 3 else 1, t));
  }

  // ----- characters by their names -----

  /** `\N{x}`: a character to scanString where the table has the name, five bytes to decodeEscapes. */
  lemma NamedCharacter(names: seq<nat> -> Option<nat>, r: nat, k: Text)
    requires names([120]) == Some(r)
    ensures var body := Ch(BACKSLASH, Ch(78, Ch(123, Ch(120, Ch(125, Fin)))));
            var t := Ch(SINGLE, Ch(BACKSLASH, Ch(78, Ch(123, Ch(120, Ch(125, Ch(SINGLE, k)))))));
            && FlatLiteral(t) == Some((body, k)) && DecodeEscapes(body) == body
            && ScanLiteral(false, false, names, t) == Some((Cat(WriteRune(r), Fin), k))
            && Cat(WriteRune(r), Fin) != body
  {
    var m := Mode(false, false, false, SINGLE);
    var end := Ch(SINGLE, k);
    var tail := Ch(123, Ch(120, Ch(125, end)));
    var rest := Ch(123, Ch(120, Ch(125, Fin)));
    RuneSize(r);
    CatSize(WriteRune(r), Fin);
    assert Size(Ch(BACKSLASH, Ch(78, rest))) == 5 by { assert Size(rest) == 3; }
    hide WriteRune, Cat;
    assert NameOf(Ch(120, Ch(125, end))) == ([120], end) by {
      assert NameOf(Ch(125, end)) == ([], end);
      assert [120] + [] == [120];
    }
    assert Unescape(false, names, 78, tail) == (WriteRune(r), end);
    assert Scan(m, names, end) == Some((Fin, k)) by { Drops(SINGLE, 0, 0, 0, k); }
    assert Scan(m, names, Ch(BACKSLASH, Ch(78, tail))) == Some((Cat(WriteRune(r), Fin), k));
    AsItStands(rest);
    FlatName(end, Fin, k);
  }

  lemma AsItStands(rest: Text)
    requires rest == Ch(123, Ch(120, Ch(125, Fin)))
    ensures DecodeEscapes(Ch(BACKSLASH, Ch(78, rest))) == Ch(BACKSLASH, Ch(78, rest))
  {
    assert DecodeEscapes(Ch(125, Fin)) == Ch(125, Fin);
    assert DecodeEscapes(rest.tl) == rest.tl && DecodeEscapes(rest) == rest;
    assert DecodeEscape(78, rest) == ([BACKSLASH, 78], rest);
    CatTwoBytes(BACKSLASH, 78, rest);
  }

  lemma CatTwoBytes(a: nat, b: nat, k: Text)
    ensures Cat([a, b], k) == Ch(a, Ch(b, k))
  {
    CatFour([a, b], k);
  }

  lemma FlatName(end: Text, w: Text, k: Text)
    requires end == Ch(SINGLE, k)
    ensures FlatLiteral(Ch(SINGLE, Ch(BACKSLASH, Ch(78, Ch(123, Ch(120, Ch(125, end))))))) ==
            Some((Ch(BACKSLASH, Ch(78, Ch(123, Ch(120, Ch(125, Fin))))), k))
  {
    assert Flat(false, SINGLE, end) == Some((Fin, k)) by { Drops(SINGLE, 0, 0, 0, k); }
    assert Flat(false, SINGLE, Ch(125, end)) == Some((Ch(125, Fin), k));
    assert Flat(false, SINGLE, Ch(120, Ch(125, end))) == Some((Ch(120, Ch(125, Fin)), k));
    assert Flat(false, SINGLE, Ch(123, Ch(120, Ch(125, end)))) == Some((Ch(123, Ch(120, Ch(125, Fin))), k));
    var open := Ch(BACKSLASH, Ch(78, Ch(123, Ch(120, Ch(125, end)))));
    assert Flat(false, SINGLE, open) == Some((Ch(BACKSLASH, Ch(78, Ch(123, Ch(120, Ch(125, Fin))))), k));
    assert Drop(1, Ch(SINGLE, open)) == open by { Drops(SINGLE, 0, 0, 0, open); }
  }
}
