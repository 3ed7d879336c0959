/** Literals that no printer writes: each character of a value can be spelled in several ways, and each
    spelling is read for what it means by scanString (parser/lex.go), by decodeEscapes (ast/emit.go), and
    as it stands where nothing is to be decoded (section 2.4.1 of the Python Language Reference). */
module LiteralSpellings {
  import opened Tokens
  import opened Bytes
  import opened Literals

  /** One piece of a literal's body. */
  datatype Piece =
    | Itself(b: nat)                            // a byte that stands for itself
    | Simple(e: nat, c: nat)                   // a backslash and a letter for the byte c
    | Octals(n: nat, v: nat)                    // a backslash and n octal digits worth v
    | HexByte(v: nat, upper: nat -> bool)      // \x and two digits, each in either case
    | Short(v: nat, upper: nat -> bool)        // \u and four
    | Long(v: nat, upper: nat -> bool)         // \U and eight
    | LineEnd                                  // an escaped line end
    | Named(name: seq<nat>)                    // \N and a name in braces
    | Unknown(e: nat)                          // any other pair

  /** The letters for the bytes 7 to 13, in that order: a b t n v f r. */
  const LETTERS: seq<nat> := [97, 98, 116, 110, 118, 102, 114]

  predicate IsSimple(e: nat, c: nat) {
    (7 <= c <= 13 && e == LETTERS[c - 7]) || (e == c && (c == BACKSLASH || c == SINGLE || c == DOUBLE))
  }

  function HexDigit(d: nat, upper: bool): nat {
    if d < 10 then 48 + d else if upper then 55 + d else 87 + d
  }

  /** The last n hexadecimal digits of v. */
  function HexDigits(n: nat, v: nat, upper: nat -> bool, k: Text): Text {
    if n == 0 then k else HexDigits(n - 1, v / 16, upper, Ch(HexDigit(v % 16, upper(n)), k))
  }

  function OctalDigits(n: nat, v: nat, k: Text): Text {
    if n == 1 then Ch(48 + v, k)
    else if n == 2 then Ch(48 + v / 8, Ch(48 + v % 8, k))
    else Ch(48 + v / 64, Ch(48 + v / 8 % 8, Ch(48 + v % 8, k)))
  }

  function Written(p: Piece, k: Text): Text {
    match p
    case Itself(b) => Ch(b, k)
    case Simple(e, _) => Ch(BACKSLASH, Ch(e, k))
    case Octals(n, v) => Ch(BACKSLASH, OctalDigits(n, v, k))
    case HexByte(v, upper) => Ch(BACKSLASH, Ch(120, HexDigits(2, v, upper, k)))
    case Short(v, upper) => Ch(BACKSLASH, Ch(117, HexDigits(4, v, upper, k)))
    case Long(v, upper) => Ch(BACKSLASH, Ch(85, HexDigits(8, v, upper, k)))
    case LineEnd => Ch(BACKSLASH, Ch(LF, k))
    case Named(name) => Ch(BACKSLASH, Ch(78, Ch(123, Cat(name, Ch(125, k)))))
    case Unknown(e) => Ch(BACKSLASH, Ch(e, k))
  }

  function WrittenAll(ps: seq<Piece>, k: Text): Text {
    if |ps| == 0 then k else Written(ps[0], WrittenAll(ps[1..], k))
  }

  /** A number that a piece gives is small enough for its digits; fewer than three octal digits are not
      followed by another, and a pair is unknown only if the text k after it makes no escape of it. */
  predicate Spelled(bytes: bool, p: Piece, k: Text) {
    match p
    case Itself(b) => b != BACKSLASH
    case Simple(e, c) => IsSimple(e, c)
    case Octals(n, v) =>
      (n == 1 && v < 8 && !Octal(k)) || (n == 2 && v < 64 && !Octal(k)) || (n == 3 && v < 512)
    case HexByte(v, _) => v < 0x100
    case Short(v, _) => !bytes && v < 0x10000
    case Long(v, _) => !bytes && v < 0x1_0000_0000
    case LineEnd => true
    case Named(name) => !bytes && 125 !in name
    case Unknown(e) => OtherPair(bytes, e, k)
  }

  predicate OtherPair(bytes: bool, e: nat, k: Text) {
    && e !in LETTERS && e != BACKSLASH && e != SINGLE && e != DOUBLE && e != LF && !(48 <= e <= 55)
    && (e == 120 ==> !HexRun(2, k))
    && (e == 117 ==> bytes || !HexRun(4, k))
    && (e == 85 ==> bytes || !HexRun(8, k))
    && (e == 78 ==> bytes || !Next(k, 123))
  }

  /** What scanString makes of a piece: bytes in bytes, characters in strings. */
  function Meant(bytes: bool, names: seq<nat> -> Option<nat>, p: Piece): seq<nat> {
    match p
    case Itself(b) => [b]
    case Simple(_, c) => [c]
    case Octals(_, v) => if bytes then [v % 256] else WriteRune(v)
    case HexByte(v, _) => if bytes then [v] else WriteRune(v)
    case Short(v, _) => WriteAny(v)
    case Long(v, _) => WriteAny(v)
    case LineEnd => []
    case Named(name) =>
      (match names(name) case Some(r) => WriteRune(r) case None => [BACKSLASH, 78, 123] + name + [125])
    case Unknown(e) => [BACKSLASH, e]
  }

  function MeantAll(bytes: bool, names: seq<nat> -> Option<nat>, ps: seq<Piece>): Text {
    if |ps| == 0 then Fin else Cat(Meant(bytes, names, ps[0]), MeantAll(bytes, names, ps[1..]))
  }

  /** Every piece is one where it stands, and none begins the end of the literal. */
  predicate AllSpelled(m: Mode, ps: seq<Piece>, k: Text) {
    |ps| > 0 ==>
      var u := WrittenAll(ps[1..], k);
      Spelled(m.bytes, ps[0], u) && !Closes(m, Written(ps[0], u)) && AllSpelled(m, ps[1..], k)
  }

  function Quotes(triple: bool, q: nat, k: Text): Text {
    if triple then Ch(q, Ch(q, Ch(q, k))) else Ch(q, k)
  }

  // ----- digits -----

  lemma HexDigitRead(d: nat, upper: bool)
    requires d < 16
    ensures IsHex(HexDigit(d, upper)) && Unhex(HexDigit(d, upper)) == d
  {
  }

  lemma {:induction false} SpelledDigits(n: nat, m: nat, v: nat, w: nat, upper: nat -> bool, k: Text)
    requires HexRun(m, k) && v < Power16(n)
    ensures HexRun(n + m, HexDigits(n, v, upper, k))
    ensures HexValue(n + m, w, HexDigits(n, v, upper, k)) == HexValue(m, w * Power16(n) + v, k)
    ensures Drop(n + m, HexDigits(n, v, upper, k)) == Drop(m, k)
    decreases n
  {
    if n > 0 {
      HexDigitRead(v % 16, upper(n));
      var k' := Ch(HexDigit(v % 16, upper(n)), k);
      assert v / 16 < Power16(n - 1);
      SpelledDigits(n - 1, m + 1, v / 16, w, upper, k');
      assert (w * Power16(n - 1) + v / 16) * 16 + v % 16 == w * Power16(n) + v by {
        Scale(w, Power16(n - 1));
      }
    }
  }

  /** Hexadecimal digits in either case are worth the number they spell. */
  lemma HexRead(n: nat, v: nat, upper: nat -> bool, k: Text)
    requires v < Power16(n)
    ensures var t := HexDigits(n, v, upper, k); HexRun(n, t) && HexValue(n, 0, t) == v && Drop(n, t) == k
  {
    SpelledDigits(n, 0, v, 0, upper, k);
  }

  /** One, two or three octal digits are worth the number they spell. */
  lemma OctalRead(n: nat, v: nat, k: Text)
    requires 1 <= n <= 3 && v < (if n == 1 then 8 else if n == 2 then 64 else 512)
    requires n < 3 ==> !Octal(k)
    ensures var t := OctalDigits(n, v, k);
            t.Ch? && 48 <= t.b <= 55 && OctalValue(2, t.b - 48, t.tl) == (v, k)
  {
    var t := OctalDigits(n, v, k);
    if n == 2 {
      assert OctalValue(2, v / 8, t.tl) == OctalValue(1, v / 8 * 8 + v % 8, k);
    } else if n == 3 {
      var u := t.tl;
      assert OctalValue(2, v / 64, u) == OctalValue(1, v / 64 * 8 + v / 8 % 8, u.tl);
      assert OctalValue(1, v / 8, u.tl) == OctalValue(0, v / 8 * 8 + v % 8, k);
    }
  }

  lemma {:induction false} NameRead(name: seq<nat>, k: Text)
    requires 125 !in name
    ensures NameOf(Cat(name, Ch(125, k))) == (name, k)
    decreases name
  {
    if name != [] {
      assert name[0] in name;
      NameRead(name[1..], k);
      assert [name[0]] + name[1..] == name;
    }
  }

  // ----- one piece -----

  /** A piece with a backslash is one escape of scanString. */
  lemma PieceUnescaped(bytes: bool, names: seq<nat> -> Option<nat>, p: Piece, k: Text)
    requires Spelled(bytes, p, k) && !p.Itself?
    ensures var t := Written(p, k);
            && t.Ch? && t.b == BACKSLASH && t.tl.Ch?
            && Unescape(bytes, names, t.tl.b, t.tl.tl) == (Meant(bytes, names, p), k)
  {
    hide HexRun, HexValue, HexDigits, OctalValue, NameOf, Drop, WriteRune, Cat;
    Powers();
    match p {
    case Simple(_, _) =>
    case Octals(n, v) => OctalRead(n, v, k);
    case HexByte(v, upper) => HexRead(2, v, upper, k);
    case Short(v, upper) => HexRead(4, v, upper, k);
    case Long(v, upper) => HexRead(8, v, upper, k); LongAny(v);
    case LineEnd =>
    case Named(name) => NameRead(name, k);
    case Unknown(e) => OtherLetters(e);
    }
  }

  lemma LongAny(v: nat)
    ensures WriteAny(Clamp(v)) == WriteAny(v)
  {
    hide Encode;
  }

  lemma OtherLetters(e: nat)
    requires e !in LETTERS
    ensures e != 97 && e != 98 && e != 116 && e != 110 && e != 118 && e != 102 && e != 114
  {
    assert LETTERS[0] in LETTERS && LETTERS[1] in LETTERS && LETTERS[2] in LETTERS && LETTERS[3] in LETTERS;
    assert LETTERS[4] in LETTERS && LETTERS[5] in LETTERS && LETTERS[6] in LETTERS;
  }

  // ----- whole literals -----

  lemma {:induction false} SpelledScan(m: Mode, names: seq<nat> -> Option<nat>, ps: seq<Piece>, k: Text)
    requires !m.raw && (m.quote == SINGLE || m.quote == DOUBLE)
    requires AllSpelled(m, ps, Quotes(m.triple, m.quote, k))
    ensures Scan(m, names, WrittenAll(ps, Quotes(m.triple, m.quote, k))) == Some((MeantAll(m.bytes, names, ps), k))
    decreases |ps|
  {
    hide Unescape, Written, Spelled, Meant, Drop;
    if |ps| == 0 {
      Drops(m.quote, m.quote, m.quote, 0, k);
    } else {
      var u := WrittenAll(ps[1..], Quotes(m.triple, m.quote, k));
      SpelledScan(m, names, ps[1..], k);
      PieceScan(m, names, ps[0], u);
    }
  }

  lemma PieceScan(m: Mode, names: seq<nat> -> Option<nat>, p: Piece, u: Text)
    requires !m.raw && Spelled(m.bytes, p, u) && !Closes(m, Written(p, u))
    ensures Scan(m, names, Written(p, u)) ==
      match Scan(m, names, u)
      case None => None
      case Some(r) => Some((Cat(Meant(m.bytes, names, p), r.0), r.1))
  {
    hide Unescape, Closes;
    if p.Itself? {
      if Scan(m, names, u).Some? {
        CatOne(p.b, Scan(m, names, u).value.0);
      }
    } else {
      PieceUnescaped(m.bytes, names, p, u);
      hide Written, Spelled, Meant;
      var t := Written(p, u);
      assert t == Ch(BACKSLASH, Ch(t.tl.b, t.tl.tl));
    }
  }

  /** scanString: every spelling of a value, between quotes of either kind or three of them, is read as
      the value, up to the closing quote. */
  lemma SpelledLiteral(bytes: bool, triple: bool, q: nat, names: seq<nat> -> Option<nat>, ps: seq<Piece>, k: Text)
    requires q == SINGLE || q == DOUBLE
    requires AllSpelled(Mode(bytes, false, triple, q), ps, Quotes(triple, q, k))
    requires !triple && |ps| == 0 ==> !Next(k, q)
    ensures ScanLiteral(bytes, false, names, Quotes(triple, q, WrittenAll(ps, Quotes(triple, q, k)))) ==
            Some((MeantAll(bytes, names, ps), k))
  {
    hide Scan, MeantAll, Written, Spelled, Drop;
    var body := WrittenAll(ps, Quotes(triple, q, k));
    SpelledScan(Mode(bytes, false, triple, q), names, ps, k);
    Drops(q, q, q, 0, body);
  }

  /** A literal without its closing quote is none, whatever is in it. */
  lemma {:induction false} Unterminated(m: Mode, names: seq<nat> -> Option<nat>, ps: seq<Piece>)
    requires !m.raw && AllSpelled(m, ps, Fin)
    ensures Scan(m, names, WrittenAll(ps, Fin)).None?
    decreases |ps|
  {
    hide Unescape, Written, Spelled, Meant, Closes;
    if |ps| > 0 {
      Unterminated(m, names, ps[1..]);
      PieceScan(m, names, ps[0], WrittenAll(ps[1..], Fin));
    }
  }

  // ----- decodeEscapes -----

  /** decodeEscapes knows no names, and takes the same escapes in strings and in bytes. */
  predicate DecodableAt(p: Piece, k: Text) {
    !p.Named? && (if p.Unknown? && p.e == 78 then true else Spelled(false, p, k))
  }

  /** What decodeEscapes makes of a piece: a single byte of an octal or `\x` escape, whatever the literal is. */
  function Decoded(p: Piece): seq<nat> {
    match p
    case Itself(b) => [b]
    case Simple(_, c) => [c]
    case Octals(_, v) => [v % 256]
    case HexByte(v, _) => [v]
    case Short(v, _) => WriteRune(v)
    case Long(v, _) => WriteRune(v)
    case LineEnd => []
    case Named(name) => [BACKSLASH, 78]
    case Unknown(e) => [BACKSLASH, e]
  }

  function DecodedAll(ps: seq<Piece>): Text {
    if |ps| == 0 then Fin else Cat(Decoded(ps[0]), DecodedAll(ps[1..]))
  }

  predicate AllDecodable(ps: seq<Piece>) {
    |ps| > 0 ==> DecodableAt(ps[0], WrittenAll(ps[1..], Fin)) && AllDecodable(ps[1..])
  }

  lemma PieceDecoded(p: Piece, k: Text)
    requires DecodableAt(p, k) && !p.Itself?
    ensures var t := Written(p, k);
            && t.Ch? && t.b == BACKSLASH && t.tl.Ch?
            && DecodeEscape(t.tl.b, t.tl.tl) == (Decoded(p), k)
  {
    hide HexRun, HexValue, HexDigits, OctalValue, Drop, WriteRune;
    Powers();
    match p {
    case Simple(_, _) =>
    case Octals(n, v) => OctalRead(n, v, k);
    case HexByte(v, upper) => HexRead(2, v, upper, k);
    case Short(v, upper) => HexRead(4, v, upper, k);
    case Long(v, upper) => HexRead(8, v, upper, k);
    case LineEnd =>
    case Unknown(e) =>
      if e != 78 {
        OtherLetters(e);
      }
    }
  }

  /** decodeEscapes: every spelling of a body decodes to its pieces, one by one. */
  lemma {:induction false} SpelledDecode(ps: seq<Piece>)
    requires AllDecodable(ps)
    ensures DecodeEscapes(WrittenAll(ps, Fin)) == DecodedAll(ps)
    decreases |ps|
  {
    if |ps| > 0 {
      hide DecodeEscape, Decoded, DecodableAt;
      var p, u := ps[0], WrittenAll(ps[1..], Fin);
      SpelledDecode(ps[1..]);
      if p.Itself? {
        PlainDecoded(p.b, u);
        CatOne(p.b, DecodeEscapes(u));
      } else {
        hide Written;
        PieceDecoded(p, u);
      }
    }
  }

  lemma PlainDecoded(b: nat, k: Text)
    ensures Decoded(Itself(b)) == [b]
    ensures DecodableAt(Itself(b), k) ==> DecodeEscapes(Ch(b, k)) == Ch(b, DecodeEscapes(k))
  {
  }

  // ----- text as it stands -----

  /** The units of a body that is not decoded: a byte, or a backslash with the byte after it. */
  datatype Unit = One(b: nat) | Pair(e: nat)

  function UnitText(x: Unit, k: Text): Text {
    match x case One(b) => Ch(b, k) case Pair(e) => Ch(BACKSLASH, Ch(e, k))
  }

  function UnitsText(us: seq<Unit>, k: Text): Text {
    if us == [] then k else UnitText(us[0], UnitsText(us[1..], k))
  }

  /** No unit begins the end of the literal, and a line end stands between three quotes only, if `line`. */
  predicate Stands(triple: bool, q: nat, line: bool, us: seq<Unit>, k: Text) {
    us != [] ==>
      && (us[0].One? ==>
            && us[0].b != BACKSLASH && (line && !triple ==> us[0].b != LF)
            && !Closes(Mode(false, true, triple, q), UnitsText(us, k)))
      && Stands(triple, q, line, us[1..], k)
  }

  /** Raw literals: scanString keeps both bytes of a pair, so that a quote after a backslash does not end
      the literal, and the value is the body as it stands. */
  lemma {:induction false} RawLiteral(bytes: bool, triple: bool, q: nat, names: seq<nat> -> Option<nat>,
                                      us: seq<Unit>, k: Text)
    requires (q == SINGLE || q == DOUBLE) && Stands(triple, q, false, us, Quotes(triple, q, k))
    ensures Scan(Mode(bytes, true, triple, q), names, UnitsText(us, Quotes(triple, q, k))) ==
            Some((UnitsText(us, Fin), k))
    decreases us
  {
    hide Unescape, Drop;
    if us == [] {
      Drops(q, q, q, 0, k);
    } else {
      RawLiteral(bytes, triple, q, names, us[1..], k);
      if us[0].Pair? {
        CatFour([BACKSLASH, us[0].e], UnitsText(us[1..], Fin));
      }
    }
  }

  /** scanFlatString takes every body of units up to its closing quotes ... */
  lemma {:induction false} UnitsTaken(triple: bool, q: nat, us: seq<Unit>, k: Text)
    requires (q == SINGLE || q == DOUBLE) && Stands(triple, q, true, us, Quotes(triple, q, k))
    ensures Flat(triple, q, UnitsText(us, Quotes(triple, q, k))) == Some((UnitsText(us, Fin), k))
    decreases us
  {
    hide Drop;
    if us == [] {
      Drops(q, q, q, 0, k);
    } else {
      UnitsTaken(triple, q, us[1..], k);
    }
  }

  /** ... and nothing else. */
  lemma {:induction false} OnlyUnitsTaken(triple: bool, q: nat, t: Text) returns (us: seq<Unit>)
    requires (q == SINGLE || q == DOUBLE) && Flat(triple, q, t).Some?
    ensures var (body, k) := Flat(triple, q, t).value;
            && t == UnitsText(us, Quotes(triple, q, k)) && body == UnitsText(us, Fin)
            && Stands(triple, q, true, us, Quotes(triple, q, k))
    decreases Size(t)
  {
    hide Drop;
    if t.b == BACKSLASH {
      Sizes(t);
      var rest := OnlyUnitsTaken(triple, q, t.tl.tl);
      us := [Pair(t.tl.b)] + rest;
      assert us[1..] == rest;
    } else if Closes(Mode(false, true, triple, q), t) {
      us := [];
      Drops(q, q, q, 0, if triple then t.tl.tl.tl else t.tl);
    } else {
      var rest := OnlyUnitsTaken(triple, q, t.tl);
      us := [One(t.b)] + rest;
      assert us[1..] == rest;
    }
  }
}
