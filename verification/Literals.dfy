/** String and bytes literals: what the printers write, the scanners read back.

    Three printers share their escapes (pyBytesRepr and pyRepr in parser/ast_dump.go,
    pyBytesLiteral with encodeStringWithQuote in ast/unparse.go), and two readers undo them:
    scanString (parser/lex.go), and scanFlatString with decodeEscapes (lex/strings.go,
    ast/emit.go). */
module Literals {
  import opened Tokens
  import opened Bytes

  // ----- the printers -----

  predicate Contains(t: Text, b: nat) {
    t.Ch? && (t.b == b || Contains(t.tl, b))
  }

  /** Single quotes, unless the text has some and no double ones. */
  function QuoteFor(t: Text): nat {
    if Contains(t, SINGLE) && !Contains(t, DOUBLE) then DOUBLE else SINGLE
  }

  /** One byte of a bytes literal. */
  function EscapeByte(c: nat, q: nat, k: Text): Text {
    if c == BACKSLASH then Ch(BACKSLASH, Ch(BACKSLASH, k))
    else if c == q then Ch(BACKSLASH, Ch(q, k))
    else if c == LF then Ch(BACKSLASH, Ch(110, k))
    else if c == CR then Ch(BACKSLASH, Ch(114, k))
    else if c == TAB then Ch(BACKSLASH, Ch(116, k))
    else if c < 0x20 || c >= 0x7F then Ch(BACKSLASH, Ch(120, Digits(2, c, k)))
    else Ch(c, k)
  }

  function BytesBody(t: Text, q: nat, k: Text): Text {
    if t.Fin? then k else EscapeByte(t.b, q, BytesBody(t.tl, q, k))
  }

  /** A bytes literal without its prefix. */
  function BytesLiteral(t: Text, k: Text): Text {
    var q := QuoteFor(t);
    Ch(q, BytesBody(t, q, Ch(q, k)))
  }

  /** One character of pyRepr; `printable` is the table of printable characters. */
  function EscapeRune(r: nat, q: nat, printable: nat -> bool, k: Text): Text {
    if r == BACKSLASH then Ch(BACKSLASH, Ch(BACKSLASH, k))
    else if r == LF then Ch(BACKSLASH, Ch(110, k))
    else if r == CR then Ch(BACKSLASH, Ch(114, k))
    else if r == TAB then Ch(BACKSLASH, Ch(116, k))
    else if r == q then Ch(BACKSLASH, Ch(q, k))
    else if r < 0x20 || r == 0x7F then Ch(BACKSLASH, Ch(120, Digits(2, r, k)))
    else if r > 0x7F && !printable(r) then
      if r <= 0xFF then Ch(BACKSLASH, Ch(120, Digits(2, r, k)))
      else if r <= 0xFFFF then Ch(BACKSLASH, Ch(117, Digits(4, r, k)))
      else Ch(BACKSLASH, Ch(85, Digits(8, r, k)))
    else Cat(WriteRune(r), k)
  }

  function ReprBody(t: Text, q: nat, printable: nat -> bool, k: Text): Text
    decreases Size(t)
  {
    if t.Fin? then k
    else if AtSurrogate(t) then
      Sizes(t);
      Ch(BACKSLASH, Ch(117, Digits(4, SurrogateAt(t), ReprBody(t.tl.tl.tl, q, printable, k))))
    else
      var d := Decode(t);
      Shorter(d.1, t);
      EscapeRune(d.0, q, printable, ReprBody(Drop(d.1, t), q, printable, k))
  }

  lemma Sizes(t: Text)
    requires t.Ch? && t.tl.Ch?
    ensures Size(t) == 2 + Size(t.tl.tl)
    ensures t.tl.tl.Ch? ==> Size(t) == 3 + Size(t.tl.tl.tl)
  {
    assert Size(t.tl) == 1 + Size(t.tl.tl);
  }

  lemma Shorter(n: nat, t: Text)
    requires n > 0 && t.Ch?
    ensures Size(Drop(n, t)) < Size(t)
  {
  }

  function Repr(t: Text, printable: nat -> bool, k: Text): Text {
    var q := QuoteFor(t);
    Ch(q, ReprBody(t, q, printable, Ch(q, k)))
  }

  // ----- scanString -----

  predicate Octal(t: Text) {
    t.Ch? && 48 <= t.b <= 55
  }

  /** Up to two more octal digits after the first. */
  function OctalValue(n: nat, v: nat, t: Text): (r: (nat, Text))
    ensures Size(r.1) <= Size(t)
  {
    if n == 0 || !Octal(t) then (v, t) else OctalValue(n - 1, v * 8 + (t.b - 48), t.tl)
  }

  /** The text up to a closing brace, and what follows it. */
  function NameOf(t: Text): (r: (seq<nat>, Text))
    ensures Size(r.1) <= Size(t)
  {
    if t.Fin? then ([], t)
    else if t.b == 125 then ([], t.tl)
    else var r := NameOf(t.tl); ([t.b] + r.0, r.1)
  }

  function Clamp(v: nat): nat {
    if v > 0x7FFF_FFFF then 0x7FFF_FFFF else v
  }

  /** An escape of scanString: what the character e after a backslash, and more of the text t after
      it, stand for. */
  function Unescape(bytes: bool, names: seq<nat> -> Option<nat>, e: nat, t: Text): (r: (seq<nat>, Text))
    ensures Size(r.1) <= Size(t)
  {
    if e == 110 then ([LF], t)
    else if e == 116 then ([TAB], t)
    else if e == 114 then ([CR], t)
    else if e == BACKSLASH || e == SINGLE || e == DOUBLE then ([e], t)
    else if e == 97 then ([7], t)
    else if e == 98 then ([8], t)
    else if e == 102 then ([12], t)
    else if e == 118 then ([11], t)
    else if e == LF then ([], t)
    else if e == 120 then
      if HexRun(2, t) then (var v := HexValue(2, 0, t); (if bytes then [v % 256] else WriteRune(v), Drop(2, t)))
      else ([BACKSLASH, e], t)
    else if 48 <= e <= 55 then
      var o := OctalValue(2, e - 48, t);
      (if bytes then [o.0 % 256] else WriteRune(o.0), o.1)
    else if e == 117 then
      if !bytes && HexRun(4, t) then (WriteAny(HexValue(4, 0, t)), Drop(4, t)) else ([BACKSLASH, e], t)
    else if e == 85 then
      if !bytes && HexRun(8, t) then (WriteAny(Clamp(HexValue(8, 0, t))), Drop(8, t)) else ([BACKSLASH, e], t)
    else if e == 78 then
      if !bytes && Next(t, 123) then
        var n := NameOf(t.tl);
        (match names(n.0) case Some(r) => WriteRune(r) case None => [BACKSLASH, 78, 123] + n.0 + [125], n.1)
      else ([BACKSLASH, e], t)
    else ([BACKSLASH, e], t)
  }

  datatype Mode = Mode(bytes: bool, raw: bool, triple: bool, quote: nat)

  predicate Closes(m: Mode, t: Text) {
    Next(t, m.quote) && (m.triple ==> Next(t.tl, m.quote) && Next(t.tl.tl, m.quote))
  }

  /** The loop of scanString, from inside the literal: the value and the text after it. */
  function Scan(m: Mode, names: seq<nat> -> Option<nat>, t: Text): (r: Option<(Text, Text)>)
    decreases Size(t)
  {
    if t.Fin? then None
    else if Closes(m, t) then Some((Fin, Drop(if m.triple then 3 else 1, t)))
    else if t.b == BACKSLASH && t.tl.Ch? then
      var u := if m.raw then ([BACKSLASH, t.tl.b], t.tl.tl) else Unescape(m.bytes, names, t.tl.b, t.tl.tl);
      Sizes(t);
      var r :- Scan(m, names, u.1);
      Some((Cat(u.0, r.0), r.1))
    else
      var r :- Scan(m, names, t.tl);
      Some((Ch(t.b, r.0), r.1))
  }

  /** A literal from its opening quote. */
  function ScanLiteral(bytes: bool, raw: bool, names: seq<nat> -> Option<nat>, t: Text): Option<(Text, Text)>
    requires t.Ch?
  {
    var triple := Next(t.tl, t.b) && Next(t.tl.tl, t.b);
    Scan(Mode(bytes, raw, triple, t.b), names, Drop(if triple then 3 else 1, t))
  }

  // ----- scanFlatString and decodeEscapes -----

  /** The loop of scanFlatString: the text of the literal up to its closing quotes, and the rest. */
  function Flat(triple: bool, q: nat, t: Text): Option<(Text, Text)> {
    if t.Fin? then None
    else if t.b == BACKSLASH then
      if t.tl.Fin? then None
      else
        var r :- Flat(triple, q, t.tl.tl);
        Some((Ch(t.b, Ch(t.tl.b, r.0)), r.1))
    else if t.b == LF && !triple then None
    else if t.b == q && (triple ==> Next(t.tl, q) && Next(t.tl.tl, q)) then
      Some((Fin, Drop(if triple then 3 else 1, t)))
    else
      var r :- Flat(triple, q, t.tl);
      Some((Ch(t.b, r.0), r.1))
  }

  function FlatLiteral(t: Text): Option<(Text, Text)>
    requires t.Ch?
  {
    var triple := Next(t.tl, t.b) && Next(t.tl.tl, t.b);
    Flat(triple, t.b, Drop(if triple then 3 else 1, t))
  }

  /** An escape of decodeEscapes. */
  function DecodeEscape(e: nat, t: Text): (r: (seq<nat>, Text))
    ensures Size(r.1) <= Size(t)
  {
    if e == 110 then ([LF], t)
    else if e == 116 then ([TAB], t)
    else if e == 114 then ([CR], t)
    else if e == BACKSLASH || e == SINGLE || e == DOUBLE then ([e], t)
    else if e == 97 then ([7], t)
    else if e == 98 then ([8], t)
    else if e == 102 then ([12], t)
    else if e == 118 then ([11], t)
    else if e == LF then ([], t)
    else if e == 120 && HexRun(2, t) then ([HexValue(2, 0, t)], Drop(2, t))
    else if 48 <= e <= 55 then (var o := OctalValue(2, e - 48, t); ([o.0 % 256], o.1))
    else if e == 117 && HexRun(4, t) then (WriteRune(HexValue(4, 0, t)), Drop(4, t))
    else if e == 85 && HexRun(8, t) then (WriteRune(HexValue(8, 0, t)), Drop(8, t))
    else ([BACKSLASH, e], t)
  }

  function DecodeEscapes(t: Text): Text
    decreases Size(t)
  {
    if t.Fin? then Fin
    else if t.b != BACKSLASH || t.tl.Fin? then Ch(t.b, DecodeEscapes(t.tl))
    else Sizes(t); var d := DecodeEscape(t.tl.b, t.tl.tl); Cat(d.0, DecodeEscapes(d.1))
  }

  // ----- bytes, and ASCII strings -----

  lemma CatOne(b: nat, k: Text)
    ensures Cat([b], k) == Ch(b, k)
  {
    assert [b][1..] == [];
  }

  /** One escaped byte, by each reader. */
  lemma EscapedByte(c: nat, q: nat, bytes: bool, names: seq<nat> -> Option<nat>, u: Text)
    requires c < 256 && (q == SINGLE || q == DOUBLE) && (bytes || c < 0x80)
    ensures var t := EscapeByte(c, q, u);
            && t.Ch? && t.b != q && t.b != LF
            && (t.b != BACKSLASH ==> t == Ch(c, u))
            && (t.b == BACKSLASH ==>
                  && t.tl.Ch? && Unescape(bytes, names, t.tl.b, t.tl.tl) == ([c], u)
                  && DecodeEscape(t.tl.b, t.tl.tl) == ([c], u))
  {
    hide HexRun, HexValue, Digits, Drop, OctalValue, NameOf;
    Powers();
    HexRoundTrip(2, c, u);
  }

  lemma EmptyScan(bytes: bool, q: nat, names: seq<nat> -> Option<nat>, k: Text)
    ensures Scan(Mode(bytes, false, false, q), names, Ch(q, k)) == Some((Fin, k))
  {
    Drops(q, 0, 0, 0, k);
  }

  lemma {:induction false} BytesScan(t: Text, q: nat, bytes: bool, names: seq<nat> -> Option<nat>, k: Text)
    requires AllBelow(t, if bytes then 256 else 128) && (q == SINGLE || q == DOUBLE)
    ensures Scan(Mode(bytes, false, false, q), names, BytesBody(t, q, Ch(q, k))) == Some((t, k))
    decreases t
  {
    hide EscapeByte, Unescape;
    if t.Ch? {
      BytesScan(t.tl, q, bytes, names, k);
      EscapedByte(t.b, q, bytes, names, BytesBody(t.tl, q, Ch(q, k)));
      CatOne(t.b, t.tl);
    } else {
      EmptyScan(bytes, q, names, k);
    }
  }

  /** No literal that a printer writes looks like the start of a triple-quoted one, unless it is
      empty and a quote follows. */
  lemma NotTriple(t: Text, q: nat, k: Text)
    requires (q == SINGLE || q == DOUBLE) && !Next(k, q)
    ensures var u := Ch(q, BytesBody(t, q, Ch(q, k))); !(Next(u.tl, q) && Next(u.tl.tl, q))
  {
    if t.Ch? {
      EscapeStarts(t.b, q, BytesBody(t.tl, q, Ch(q, k)));
    }
  }

  lemma EscapeStarts(c: nat, q: nat, k: Text)
    requires q == SINGLE || q == DOUBLE
    ensures EscapeByte(c, q, k).Ch? && !Next(EscapeByte(c, q, k), q)
  {
    hide Digits;
  }

  /** pyBytesRepr: every sequence of bytes comes back from scanString, up to its closing quote. */
  lemma BytesRoundTrip(t: Text, names: seq<nat> -> Option<nat>, k: Text)
    requires AllBelow(t, 256) && !Next(k, QuoteFor(t))
    ensures ScanLiteral(true, false, names, BytesLiteral(t, k)) == Some((t, k))
  {
    hide BytesBody;
    var q := QuoteFor(t);
    NotTriple(t, q, k);
    BytesScan(t, q, true, names, k);
    assert Drop(1, BytesLiteral(t, k)) == BytesBody(t, q, Ch(q, k));
  }

  /** The body of a literal between its quotes. */
  lemma {:induction false} FlatBody(t: Text, q: nat, k: Text)
    requires AllBelow(t, 256) && (q == SINGLE || q == DOUBLE)
    ensures Flat(false, q, BytesBody(t, q, Ch(q, k))) == Some((BytesBody(t, q, Fin), k))
    decreases t
  {
    hide EscapeByte;
    if t.Ch? {
      FlatBody(t.tl, q, k);
      FlatByte(t.b, q, BytesBody(t.tl, q, Ch(q, k)), BytesBody(t.tl, q, Fin), k);
    } else {
      Drops(q, 0, 0, 0, k);
    }
  }

  lemma FlatByte(c: nat, q: nat, u: Text, v: Text, k: Text)
    requires c < 256 && (q == SINGLE || q == DOUBLE) && Flat(false, q, u) == Some((v, k))
    ensures Flat(false, q, EscapeByte(c, q, u)) == Some((EscapeByte(c, q, v), k))
  {
    if c != BACKSLASH && c != q && c != LF && c != CR && c != TAB && (c < 0x20 || c >= 0x7F) {
      TwoDigits(c, u);
      TwoDigits(c, v);
      hide Digits;
      PlainStep(q, Hex(c % 16), u, v, k);
      PlainStep(q, Hex(c / 16), Ch(Hex(c % 16), u), Ch(Hex(c % 16), v), k);
    }
  }

  lemma TwoDigits(c: nat, k: Text)
    requires c < 256
    ensures Digits(2, c, k) == Ch(Hex(c / 16), Ch(Hex(c % 16), k))
  {
    assert Digits(2, c, k) == Digits(1, c / 16, Ch(Hex(c % 16), k)) ==
      Digits(0, c / 16 / 16, Ch(Hex(c / 16 % 16), Ch(Hex(c % 16), k)));
  }

  lemma PlainStep(q: nat, b: nat, u: Text, v: Text, k: Text)
    requires b != BACKSLASH && b != LF && b != q && Flat(false, q, u) == Some((v, k))
    ensures Flat(false, q, Ch(b, u)) == Some((Ch(b, v), k))
  {
  }

  lemma {:induction false} DecodeBody(t: Text, q: nat)
    requires AllBelow(t, 256) && (q == SINGLE || q == DOUBLE)
    ensures DecodeEscapes(BytesBody(t, q, Fin)) == t
    decreases t
  {
    hide EscapeByte, DecodeEscape, Unescape;
    if t.Ch? {
      DecodeBody(t.tl, q);
      EscapedByte(t.b, q, true, _ => None, BytesBody(t.tl, q, Fin));
      CatOne(t.b, t.tl);
    }
  }

  /** pyBytesLiteral: the literal is scanned exactly to its closing quote, never as a triple-quoted
      one, and its text decodes to the bytes that were printed. */
  lemma LiteralRoundTrip(t: Text, k: Text)
    requires AllBelow(t, 256) && !Next(k, QuoteFor(t))
    ensures var q := QuoteFor(t);
            && FlatLiteral(BytesLiteral(t, k)) == Some((BytesBody(t, q, Fin), k))
            && DecodeEscapes(BytesBody(t, q, Fin)) == t
  {
    hide BytesBody;
    var q := QuoteFor(t);
    NotTriple(t, q, k);
    FlatBody(t, q, k);
    DecodeBody(t, q);
    assert Drop(1, BytesLiteral(t, k)) == BytesBody(t, q, Ch(q, k));
  }

  /** A high byte of a string, escaped like a byte, is a character of two bytes to scanString but a
      single byte to decodeEscapes. */
  lemma HighBytesDiffer(names: seq<nat> -> Option<nat>, k: Text)
    ensures Unescape(false, names, 120, Digits(2, 0xE9, k)) == ([0xC3, 0xA9], k)
    ensures DecodeEscape(120, Digits(2, 0xE9, k)) == ([0xE9], k)
  {
    Powers();
    HexRoundTrip(2, 0xE9, k);
  }

  // ----- pyRepr -----

  lemma {:induction false} HighBytesScan(m: Mode, names: seq<nat> -> Option<nat>, b: nat, t: Text)
    requires b >= 0x80 && (m.quote == SINGLE || m.quote == DOUBLE)
    ensures Scan(m, names, Ch(b, t)) ==
      match Scan(m, names, t) case None => None case Some(r) => Some((Ch(b, r.0), r.1))
  {
  }

  /** A character that is written as it is. */
  lemma PlainRune(r: nat, q: nat, names: seq<nat> -> Option<nat>, u: Text)
    requires r <= MAX_RUNE && r != BACKSLASH && r != q && (q == SINGLE || q == DOUBLE)
    ensures Scan(Mode(false, false, false, q), names, Cat(Encode(r), u)) ==
      match Scan(Mode(false, false, false, q), names, u)
      case None => None
      case Some(x) => Some((Cat(Encode(r), x.0), x.1))
  {
    hide Encode, Cat;
    var m := Mode(false, false, false, q);
    EncodeShape(r, u);
    var rest := Scan(m, names, u);
    if rest.Some? {
      EncodeShape(r, rest.value.0);
    }
    if r >= 0x80 {
      hide Scan;
      if r < 0x800 {
        HighBytesScan(m, names, 0x80 + r % 64, u);
        HighBytesScan(m, names, 0xC0 + r / 64, Ch(0x80 + r % 64, u));
      } else if r < 0x10000 {
        HighBytesScan(m, names, 0x80 + r % 64, u);
        HighBytesScan(m, names, 0x80 + r / 64 % 64, Ch(0x80 + r % 64, u));
        HighBytesScan(m, names, 0xE0 + r / 4096, Ch(0x80 + r / 64 % 64, Ch(0x80 + r % 64, u)));
      } else {
        HighBytesScan(m, names, 0x80 + r % 64, u);
        HighBytesScan(m, names, 0x80 + r / 64 % 64, Ch(0x80 + r % 64, u));
        HighBytesScan(m, names, 0x80 + r / 4096 % 64, Ch(0x80 + r / 64 % 64, Ch(0x80 + r % 64, u)));
        HighBytesScan(m, names, 0xF0 + r / 262144,
          Ch(0x80 + r / 4096 % 64, Ch(0x80 + r / 64 % 64, Ch(0x80 + r % 64, u))));
      }
    }
  }

  /** An escape read by the loop. */
  lemma ScanEscape(m: Mode, names: seq<nat> -> Option<nat>, e: nat, t: Text, out: seq<nat>, u: Text)
    requires !m.raw && (m.quote == SINGLE || m.quote == DOUBLE) && Unescape(m.bytes, names, e, t) == (out, u)
    ensures Scan(m, names, Ch(BACKSLASH, Ch(e, t))) ==
      match Scan(m, names, u) case None => None case Some(r) => Some((Cat(out, r.0), r.1))
  {
    hide Unescape;
  }

  lemma NumericEscape(names: seq<nat> -> Option<nat>, r: nat, u: Text)
    ensures r < 0x100 ==> Unescape(false, names, 120, Digits(2, r, u)) == (WriteRune(r), u)
    ensures r < 0x10000 ==> Unescape(false, names, 117, Digits(4, r, u)) == (WriteAny(r), u)
    ensures r <= MAX_RUNE ==> Unescape(false, names, 85, Digits(8, r, u)) == (WriteAny(r), u)
  {
    Powers();
    if r < 0x100 {
      HexRoundTrip(2, r, u);
    }
    if r < 0x10000 {
      HexRoundTrip(4, r, u);
    }
    if r <= MAX_RUNE {
      HexRoundTrip(8, r, u);
    }
    hide HexRun, HexValue, Digits, Drop, Encode;
  }

  /** One character of pyRepr's output, read by scanString. */
  lemma RuneScan(r: nat, q: nat, printable: nat -> bool, names: seq<nat> -> Option<nat>, u: Text)
    requires r <= MAX_RUNE && !Surrogate(r) && (q == SINGLE || q == DOUBLE)
    ensures Scan(Mode(false, false, false, q), names, EscapeRune(r, q, printable, u)) ==
      match Scan(Mode(false, false, false, q), names, u)
      case None => None
      case Some(x) => Some((Cat(Encode(r), x.0), x.1))
  {
    hide Scan, Unescape, Digits, Cat;
    var m := Mode(false, false, false, q);
    NumericEscape(names, r, u);
    if r == BACKSLASH || r == q {
      SimpleEscape(names, r, r, u);
      ScanEscape(m, names, r, u, [r], u);
    } else if r == LF {
      SimpleEscape(names, 110, LF, u);
      ScanEscape(m, names, 110, u, [LF], u);
    } else if r == CR {
      SimpleEscape(names, 114, CR, u);
      ScanEscape(m, names, 114, u, [CR], u);
    } else if r == TAB {
      SimpleEscape(names, 116, TAB, u);
      ScanEscape(m, names, 116, u, [TAB], u);
    } else if r < 0x20 || r == 0x7F || (r > 0x7F && !printable(r)) {
      if r <= 0xFF {
        ScanEscape(m, names, 120, Digits(2, r, u), Encode(r), u);
      } else if r <= 0xFFFF {
        ScanEscape(m, names, 117, Digits(4, r, u), Encode(r), u);
      } else {
        ScanEscape(m, names, 85, Digits(8, r, u), Encode(r), u);
      }
    } else {
      PlainRune(r, q, names, u);
    }
  }

  lemma SimpleEscape(names: seq<nat> -> Option<nat>, e: nat, r: nat, u: Text)
    requires (e == r && (r == BACKSLASH || r == SINGLE || r == DOUBLE)) || (e == 110 && r == LF)
      || (e == 114 && r == CR) || (e == 116 && r == TAB)
    ensures Unescape(false, names, e, u) == ([r], u)
  {
  }

  predicate Runes(rs: seq<nat>) {
    forall i | 0 <= i < |rs| :: rs[i] <= MAX_RUNE
  }

  lemma {:induction false} ReprScan(rs: seq<nat>, q: nat, printable: nat -> bool, names: seq<nat> -> Option<nat>,
                                    k: Text)
    requires Runes(rs) && (q == SINGLE || q == DOUBLE)
    ensures Scan(Mode(false, false, false, q), names, ReprBody(EncodeAll(rs, Fin), q, printable, Ch(q, k))) ==
            Some((EncodeAll(rs, Fin), k))
    decreases rs
  {
    hide Scan, Encode, Cat, EscapeRune, Unescape, Digits, Decode, AtSurrogate, SurrogateAt;
    if rs == [] {
      EmptyScan(false, q, names, k);
    } else {
      var m := Mode(false, false, false, q);
      var t := EncodeAll(rs[1..], Fin);
      var u := ReprBody(t, q, printable, Ch(q, k));
      assert forall i | 0 <= i < |rs[1..]| :: rs[1..][i] == rs[i + 1];
      ReprScan(rs[1..], q, printable, names, k);
      DecodeEncode(rs[0], t);
      if Surrogate(rs[0]) {
        SurrogateStep(Cat(Encode(rs[0]), t), rs[0], t, q, printable, Ch(q, k));
        NumericEscape(names, rs[0], u);
        ScanEscape(m, names, 117, Digits(4, rs[0], u), WriteAny(rs[0]), u);
      } else {
        RuneScan(rs[0], q, printable, names, u);
      }
    }
  }


  lemma SurrogateStep(s: Text, r: nat, t: Text, q: nat, printable: nat -> bool, k: Text)
    requires s.Ch? && AtSurrogate(s) && SurrogateAt(s) == r && Drop(3, s) == t
    ensures ReprBody(s, q, printable, k) == Ch(BACKSLASH, Ch(117, Digits(4, r, ReprBody(t, q, printable, k))))
  {
    hide Digits;
    assert Drop(3, s) == Drop(2, s.tl) == Drop(1, s.tl.tl) == s.tl.tl.tl;
  }

  /** pyRepr: every string of code points, lone surrogates among them, comes back from scanString
      whatever the table of printable characters. */
  lemma ReprRoundTrip(rs: seq<nat>, printable: nat -> bool, names: seq<nat> -> Option<nat>, k: Text)
    requires Runes(rs) && !Next(k, QuoteFor(EncodeAll(rs, Fin)))
    ensures var t := EncodeAll(rs, Fin);
            ScanLiteral(false, false, names, Repr(t, printable, k)) == Some((t, k))
  {
    hide Scan, ReprBody;
    var t := EncodeAll(rs, Fin);
    var q := QuoteFor(t);
    ReprScan(rs, q, printable, names, k);
    ReprNotTriple(rs, q, printable, k);
    assert Drop(1, Repr(t, printable, k)) == ReprBody(t, q, printable, Ch(q, k));
  }

  lemma ReprNotTriple(rs: seq<nat>, q: nat, printable: nat -> bool, k: Text)
    requires Runes(rs) && (q == SINGLE || q == DOUBLE) && !Next(k, q)
    ensures var u := ReprBody(EncodeAll(rs, Fin), q, printable, Ch(q, k)); !(Next(u, q) && Next(u.tl, q))
  {
    hide Encode, Cat, EscapeRune, Digits, Decode, AtSurrogate, SurrogateAt;
    if rs != [] {
      var t := EncodeAll(rs[1..], Fin);
      DecodeEncode(rs[0], t);
      if !Surrogate(rs[0]) {
        RuneStarts(rs[0], q, printable, ReprBody(t, q, printable, Ch(q, k)));
      }
    }
  }

  lemma RuneStarts(r: nat, q: nat, printable: nat -> bool, u: Text)
    requires r <= MAX_RUNE && !Surrogate(r) && (q == SINGLE || q == DOUBLE)
    ensures !Next(EscapeRune(r, q, printable, u), q)
  {
    hide Digits, Encode, Cat;
    EncodeShape(r, u);
  }

  // ----- pyStringLiteral -----

  predicate Always(r: nat) {
    true
  }

  /** encodeStringWithQuote decodes character by character and does not look for surrogates. */
  function StringBody(t: Text, q: nat, k: Text): Text
    decreases Size(t)
  {
    if t.Fin? then k
    else
      var d := Decode(t);
      Shorter(d.1, t);
      EscapeRune(d.0, q, Always, StringBody(Drop(d.1, t), q, k))
  }

  function StringLiteral(t: Text, k: Text): Text {
    var q := QuoteFor(t);
    Ch(q, StringBody(t, q, Ch(q, k)))
  }

  /** What such a printer makes of a string: each byte of a lone surrogate becomes a replacement
      character. */
  function Mangled(rs: seq<nat>): seq<nat> {
    if rs == [] then []
    else (if Surrogate(rs[0]) then [BAD_RUNE, BAD_RUNE, BAD_RUNE] else [rs[0]]) + Mangled(rs[1..])
  }

  predicate NoSurrogate(rs: seq<nat>) {
    rs == [] || (!Surrogate(rs[0]) && NoSurrogate(rs[1..]))
  }

  lemma {:induction false} MangledRunes(rs: seq<nat>)
    requires Runes(rs)
    ensures Runes(Mangled(rs)) && NoSurrogate(Mangled(rs))
    ensures NoSurrogate(rs) ==> Mangled(rs) == rs
    ensures Size(EncodeAll(Mangled(rs), Fin)) >= Size(EncodeAll(rs, Fin))
    ensures !NoSurrogate(rs) ==> Size(EncodeAll(Mangled(rs), Fin)) > Size(EncodeAll(rs, Fin))
    decreases rs
  {
    hide Encode, Cat;
    if rs != [] {
      assert forall i | 0 <= i < |rs[1..]| :: rs[1..][i] == rs[i + 1];
      var m := Mangled(rs[1..]);
      MangledRunes(rs[1..]);
      EncodedSize(rs[0], EncodeAll(rs[1..], Fin));
      if Surrogate(rs[0]) {
        Prepended(BAD_RUNE, m);
        Prepended(BAD_RUNE, [BAD_RUNE] + m);
        Prepended(BAD_RUNE, [BAD_RUNE] + ([BAD_RUNE] + m));
        assert Mangled(rs) == [BAD_RUNE] + ([BAD_RUNE] + ([BAD_RUNE] + m));
      } else {
        Prepended(rs[0], m);
        EncodedSize(rs[0], EncodeAll(m, Fin));
        assert Mangled(rs) == [rs[0]] + m;
      }
    }
  }

  lemma Prepended(r: nat, m: seq<nat>)
    ensures EncodeAll([r] + m, Fin) == Cat(Encode(r), EncodeAll(m, Fin))
    ensures NoSurrogate([r] + m) <==> !Surrogate(r) && NoSurrogate(m)
    ensures r == BAD_RUNE ==> Size(EncodeAll([r] + m, Fin)) == 3 + Size(EncodeAll(m, Fin))
  {
    hide Encode, Cat;
    assert ([r] + m)[1..] == m;
    EncodedSize(r, EncodeAll(m, Fin));
  }

  lemma EncodedSize(r: nat, k: Text)
    ensures Size(Cat(Encode(r), k)) == |Encode(r)| + Size(k)
    ensures 0x800 <= r < 0x10000 ==> |Encode(r)| == 3
  {
    CatSize(Encode(r), k);
  }

  lemma {:induction false} CatSize(s: seq<nat>, k: Text)
    ensures Size(Cat(s, k)) == |s| + Size(k)
    decreases s
  {
    if s != [] {
      CatSize(s[1..], k);
    }
  }

  lemma {:induction false} StringBodyMangled(rs: seq<nat>, q: nat, k: Text)
    requires Runes(rs)
    ensures StringBody(EncodeAll(rs, Fin), q, k) == ReprBody(EncodeAll(Mangled(rs), Fin), q, Always, k)
    decreases rs
  {
    hide Encode, Cat, EscapeRune, Decode, AtSurrogate, SurrogateAt;
    if rs != [] {
      assert forall i | 0 <= i < |rs[1..]| :: rs[1..][i] == rs[i + 1];
      var m := Mangled(rs[1..]);
      StringBodyMangled(rs[1..], q, k);
      DecodeEncode(rs[0], EncodeAll(rs[1..], Fin));
      if Surrogate(rs[0]) {
        ThreeBad(rs[0], EncodeAll(rs[1..], Fin), q, k);
        ReprStep(BAD_RUNE, m, q, k);
        ReprStep(BAD_RUNE, [BAD_RUNE] + m, q, k);
        ReprStep(BAD_RUNE, [BAD_RUNE] + ([BAD_RUNE] + m), q, k);
        assert Mangled(rs) == [BAD_RUNE] + ([BAD_RUNE] + ([BAD_RUNE] + m));
      } else {
        ReprStep(rs[0], m, q, k);
        assert Mangled(rs) == [rs[0]] + m;
      }
    }
  }

  lemma ReprStep(r: nat, m: seq<nat>, q: nat, k: Text)
    requires r <= MAX_RUNE && !Surrogate(r)
    ensures ReprBody(EncodeAll([r] + m, Fin), q, Always, k) ==
      EscapeRune(r, q, Always, ReprBody(EncodeAll(m, Fin), q, Always, k))
  {
    hide Encode, Cat, EscapeRune, Decode, AtSurrogate, SurrogateAt;
    Prepended(r, m);
    DecodeEncode(r, EncodeAll(m, Fin));
  }

  lemma ThreeBad(r: nat, t: Text, q: nat, k: Text)
    requires Surrogate(r)
    ensures StringBody(Cat(Encode(r), t), q, k) ==
      EscapeRune(BAD_RUNE, q, Always,
        EscapeRune(BAD_RUNE, q, Always, EscapeRune(BAD_RUNE, q, Always, StringBody(t, q, k))))
  {
    hide Encode, Cat, EscapeRune, StringBody;
    var s := Cat(Encode(r), t);
    EncodeShape(r, t);
    BadStep(s, q, k);
    BadStep(s.tl, q, k);
    BadStep(s.tl.tl, q, k);
  }

  lemma BadStep(t: Text, q: nat, k: Text)
    requires t.Ch? && Decode(t) == (BAD_RUNE, 1)
    ensures StringBody(t, q, k) == EscapeRune(BAD_RUNE, q, Always, StringBody(t.tl, q, k))
  {
    hide EscapeRune;
    assert Drop(1, t) == Drop(0, t.tl);
  }

  /** One character that needs no escape beyond those of ASCII, through both loops of the second
      reader. */
  lemma FlatRune(r: nat, q: nat, u: Text, v: Text, k: Text)
    requires r <= MAX_RUNE && !Surrogate(r) && (q == SINGLE || q == DOUBLE) && Flat(false, q, u) == Some((v, k))
    ensures Flat(false, q, EscapeRune(r, q, Always, u)) == Some((EscapeRune(r, q, Always, v), k))
    ensures DecodeEscapes(EscapeRune(r, q, Always, v)) == Cat(Encode(r), DecodeEscapes(v))
  {
    hide Encode, Cat, EscapeByte, Flat, DecodeEscapes, Digits;
    var d := DecodeEscapes(v);
    EncodeShape(r, u);
    EncodeShape(r, v);
    EncodeShape(r, d);
    if r < 0x80 {
      SameEscape(r, q, u);
      SameEscape(r, q, v);
      FlatByte(r, q, u, v, k);
      DecodeByte(r, q, v);
    } else if r < 0x800 {
      HighByte(0x80 + r % 64, q, u, v, k);
      HighByte(0xC0 + r / 64, q, Ch(0x80 + r % 64, u), Ch(0x80 + r % 64, v), k);
    } else if r < 0x10000 {
      HighByte(0x80 + r % 64, q, u, v, k);
      HighByte(0x80 + r / 64 % 64, q, Ch(0x80 + r % 64, u), Ch(0x80 + r % 64, v), k);
      HighByte(0xE0 + r / 4096, q, Ch(0x80 + r / 64 % 64, Ch(0x80 + r % 64, u)),
        Ch(0x80 + r / 64 % 64, Ch(0x80 + r % 64, v)), k);
    } else {
      var u1, v1 := Ch(0x80 + r / 64 % 64, Ch(0x80 + r % 64, u)), Ch(0x80 + r / 64 % 64, Ch(0x80 + r % 64, v));
      HighByte(0x80 + r % 64, q, u, v, k);
      HighByte(0x80 + r / 64 % 64, q, Ch(0x80 + r % 64, u), Ch(0x80 + r % 64, v), k);
      HighByte(0x80 + r / 4096 % 64, q, u1, v1, k);
      HighByte(0xF0 + r / 262144, q, Ch(0x80 + r / 4096 % 64, u1), Ch(0x80 + r / 4096 % 64, v1), k);
    }
  }

  lemma SameEscape(r: nat, q: nat, u: Text)
    requires r < 0x80 && (q == SINGLE || q == DOUBLE)
    ensures EscapeRune(r, q, Always, u) == EscapeByte(r, q, u)
  {
    hide Digits, Cat;
    CatOne(r, u);
  }

  lemma HighByte(b: nat, q: nat, u: Text, v: Text, k: Text)
    requires b >= 0x80 && (q == SINGLE || q == DOUBLE) && Flat(false, q, u) == Some((v, k))
    ensures Flat(false, q, Ch(b, u)) == Some((Ch(b, v), k))
    ensures DecodeEscapes(Ch(b, v)) == Ch(b, DecodeEscapes(v))
  {
    PlainStep(q, b, u, v, k);
  }

  lemma DecodeByte(c: nat, q: nat, v: Text)
    requires c < 256 && (q == SINGLE || q == DOUBLE)
    ensures DecodeEscapes(EscapeByte(c, q, v)) == Ch(c, DecodeEscapes(v))
  {
    hide EscapeByte, DecodeEscape, Unescape;
    EscapedByte(c, q, true, _ => None, v);
    CatOne(c, DecodeEscapes(v));
  }

  lemma {:induction false} FlatString(rs: seq<nat>, q: nat, k: Text)
    requires Runes(rs) && NoSurrogate(rs) && (q == SINGLE || q == DOUBLE)
    ensures var t := EncodeAll(rs, Fin);
            && Flat(false, q, ReprBody(t, q, Always, Ch(q, k))) == Some((ReprBody(t, q, Always, Fin), k))
            && DecodeEscapes(ReprBody(t, q, Always, Fin)) == t
    decreases rs
  {
    hide Encode, Cat, EscapeRune, Decode, AtSurrogate, SurrogateAt;
    if rs == [] {
      Drops(q, 0, 0, 0, k);
    } else {
      assert forall i | 0 <= i < |rs[1..]| :: rs[1..][i] == rs[i + 1];
      hide Flat, DecodeEscapes, ReprBody;
      var t := EncodeAll(rs[1..], Fin);
      FlatString(rs[1..], q, k);
      assert rs == [rs[0]] + rs[1..];
      ReprStep(rs[0], rs[1..], q, Ch(q, k));
      ReprStep(rs[0], rs[1..], q, Fin);
      FlatRune(rs[0], q, ReprBody(t, q, Always, Ch(q, k)), ReprBody(t, q, Always, Fin), k);
    }
  }

  /** pyStringLiteral: both readers take the literal exactly to its closing quote and give back the
      mangled string; that is the string that was printed exactly when it has no lone surrogate. */
  lemma StringRoundTrip(rs: seq<nat>, names: seq<nat> -> Option<nat>, k: Text)
    requires Runes(rs) && !Next(k, QuoteFor(EncodeAll(rs, Fin)))
    ensures var t := EncodeAll(rs, Fin); var back := EncodeAll(Mangled(rs), Fin);
            && ScanLiteral(false, false, names, StringLiteral(t, k)) == Some((back, k))
            && FlatLiteral(StringLiteral(t, k)).Some?
            && FlatLiteral(StringLiteral(t, k)).value.1 == k
            && DecodeEscapes(FlatLiteral(StringLiteral(t, k)).value.0) == back
            && (back == t <==> NoSurrogate(rs))
  {
    hide Scan, Flat, ReprBody, StringBody, Runes, NoSurrogate;
    var t := EncodeAll(rs, Fin);
    var m := Mangled(rs);
    var q := QuoteFor(t);
    MangledRunes(rs);
    StringBodyMangled(rs, q, Ch(q, k));
    ReprScan(m, q, Always, names, k);
    ReprNotTriple(m, q, Always, k);
    FlatString(m, q, k);
    Drops(q, 0, 0, 0, StringBody(t, q, Ch(q, k)));
  }

  // ----- the path without copying -----

  /** How far the next quote is. */
  function IndexOf(t: Text, q: nat): Option<nat> {
    if t.Fin? then None
    else if t.b == q then Some(0)
    else var i :- IndexOf(t.tl, q); Some(i + 1)
  }

  function Take(n: nat, t: Text): Text {
    if n == 0 || t.Fin? then Fin else Ch(t.b, Take(n - 1, t.tl))
  }

  /** The fast path of scanString: when the text up to the next quote has no backslash, it is the
      value. */
  function FastPath(q: nat, t: Text): Option<(Text, Text)> {
    match IndexOf(t, q)
    case None => None
    case Some(n) => if Contains(Take(n, t), BACKSLASH) then None else Some((Take(n, t), Drop(n + 1, t)))
  }

  /** Wherever the fast path applies, it gives what the loop gives. */
  lemma {:induction false} FastPathAgrees(bytes: bool, q: nat, names: seq<nat> -> Option<nat>, t: Text)
    requires q == SINGLE || q == DOUBLE
    ensures FastPath(q, t).Some? ==> Scan(Mode(bytes, false, false, q), names, t) == FastPath(q, t)
    decreases t
  {
    hide Unescape;
    if t.Ch? && t.b != q {
      FastPathAgrees(bytes, q, names, t.tl);
      if IndexOf(t, q).Some? {
        var n := IndexOf(t.tl, q).value;
        assert Take(n + 1, t) == Ch(t.b, Take(n, t.tl));
        assert Drop(n + 2, t) == Drop(n + 1, t.tl);
      }
    }
  }

  /** Line and column after a text, counted byte by byte. */
  function Moved(line: nat, col: nat, n: nat, t: Text): (nat, nat)
    decreases n
  {
    if n == 0 || t.Fin? then (line, col)
    else if t.b == LF then Moved(line + 1, 0, n - 1, t.tl)
    else Moved(line, col + 1, n - 1, t.tl)
  }

  /** The fast path adds the length to the column; that is the position the loop reaches exactly
      when the value has no line end. */
  lemma FastPathPosition(q: nat, t: Text, line: nat, col: nat)
    requires FastPath(q, t).Some? && q != LF
    ensures var n := IndexOf(t, q).value;
            Moved(line, col, n + 1, t) == (line, col + n + 1) <==> !Contains(Take(n, t), LF)
  {
    MovedPlain(q, t, line, col);
  }

  lemma {:induction false} MovedPlain(q: nat, t: Text, line: nat, col: nat)
    requires IndexOf(t, q).Some? && q != LF
    ensures var n := IndexOf(t, q).value;
            && Moved(line, col, n + 1, t).0 >= line
            && (Contains(Take(n, t), LF) ==> Moved(line, col, n + 1, t).0 > line)
            && (!Contains(Take(n, t), LF) ==> Moved(line, col, n + 1, t) == (line, col + n + 1))
    decreases t
  {
    if t.b != q {
      var n := IndexOf(t.tl, q).value;
      assert Take(n + 1, t) == Ch(t.b, Take(n, t.tl));
      if t.b == LF {
        MovedPlain(q, t.tl, line + 1, 0);
      } else {
        MovedPlain(q, t.tl, line, col + 1);
      }
    } else {
      assert Moved(line, col, 1, t) == Moved(line, col + 1, 0, t.tl);
    }
  }
}
