/** The token alphabet shared by the parser and printer models.

    The v2 scanner has one name kind for identifiers and keywords alike and the
    parser tells them apart by text (parser/parser.go:100-105).  `Word` keeps that:
    every keyword is still a name token, so the places where the parser accepts
    any name at all go on accepting keywords. */
module Tokens {

  datatype Option<+T> = None | Some(value: T) {
    predicate IsFailure() { None? }
    function PropagateFailure<U>(): Option<U>
      requires None?
    {
      None
    }
    function Extract(): T
      requires Some?
    {
      value
    }
  }

  /** Results that are all there. */
  function Both<A, B>(a: Option<A>, b: Option<B>): Option<(A, B)> {
    if a.Some? && b.Some? then Some((a.value, b.value)) else None
  }

  function Three<A, B, C>(a: Option<A>, b: Option<B>, c: Option<C>): Option<(A, B, C)> {
    if a.Some? && b.Some? && c.Some? then Some((a.value, b.value, c.value)) else None
  }

  function Four<A, B, C, D>(a: Option<A>, b: Option<B>, c: Option<C>, d: Option<D>): Option<(A, B, C, D)> {
    if a.Some? && b.Some? && c.Some? && d.Some? then Some((a.value, b.value, c.value, d.value)) else None
  }

  datatype Word =
    | Ident(id: string)
    | KwIf | KwElse | KwElif | KwOr | KwAnd | KwNot | KwIn | KwIs
    | KwLambda | KwYield | KwFrom | KwAwait | KwFor | KwAsync
    | KwNone | KwTrue | KwFalse | KwAs
    | KwPass | KwBreak | KwContinue | KwReturn | KwWhile | KwTry | KwExcept | KwFinally
    | KwDef | KwClass
    | Reserved(text: string)

  datatype StrKind = Plain | Unicode | Bytes

  datatype Tok =
    | Nm(w: Word)
    | IntLit(digits: string)
    | FloatLit(text: string)
    | StrLit(kind: StrKind, val: string)
    | Dots
    | LPar | RPar | LBrk | RBrk | LBrc | RBrc
    | Comma | Colon | Dot | Semi | Walrus | Assign
    // An operator and `=`.
    | AugAssign(sym: Tok)
    | Star | DStar | Slash | DSlash | Percent | At
    | Plus | Minus | Tilde | Pipe | Caret | Amp | LSh | RSh
    | OpLt | OpGt | OpLe | OpGe | OpEq | OpNe
    | Newline | Indent | Dedent
    | Arrow
    | Other(text: string)
    // Physical text that no token stream keeps: a blank, a backslash at the end of a
    // line, a comment, and the mark left where a scanner gave up.
    | Space | Continuation | Comment(text: string) | Bad
    // The lex package's token for the end of the input.
    | EndMarker

  /** A token stream; its end is the scanner's EOF token. */
  datatype Toks = End | Cons(hd: Tok, tl: Toks)

  function Len(t: Toks): nat {
    match t
    case End => 0
    case Cons(_, tl) => 1 + Len(tl)
  }

  /** What follows one token; nothing follows the end. */
  function Rest(t: Toks): Toks {
    match t
    case End => End
    case Cons(_, tl) => tl
  }

  /** The stream of tokens s[i..] followed by k. */
  function Stream(s: seq<Tok>, k: Toks): Toks {
    if s == [] then k else Cons(s[0], Stream(s[1..], k))
  }

  predicate At0(t: Toks, x: Tok) {
    t.Cons? && t.hd == x
  }

  predicate IsKw(t: Toks, w: Word) {
    At0(t, Nm(w))
  }

  predicate AtWord(t: Toks) {
    t.Cons? && t.hd.Nm?
  }

  /** A name the lookahead treats as an ordinary name: not reserved, or soft. */
  predicate AtPlainName(t: Toks) {
    t.Cons? && t.hd.Nm? && t.hd.w.Ident?
  }

  lemma StreamAppend(a: seq<Tok>, b: seq<Tok>, k: Toks)
    ensures Stream(a + b, k) == Stream(a, Stream(b, k))
  {
    if a == [] {
      assert a + b == b;
    } else {
      assert (a + b)[1..] == a[1..] + b;
      StreamAppend(a[1..], b, k);
    }
  }

  lemma StreamNil(k: Toks)
    ensures Stream([], k) == k
  {
  }

  lemma StreamSnoc(s: seq<Tok>, x: Tok, k: Toks)
    ensures Stream(s, Cons(x, k)) == Stream(s + [x], k)
  {
    StreamAppend(s, [x], k);
    assert Stream([x], k) == Cons(x, k);
  }
}
