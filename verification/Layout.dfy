/** Logical lines (section 2.1 of the Python Language Reference) as one specification.

    Physical text is a stream of blanks, line ends, backslash continuations, comments and
    content tokens.  Lines(t) cuts it into logical lines; Emit writes NEWLINE, INDENT and
    DEDENT around them.  Start and Mid give the same stream in one pass, from the two states
    a scanner can be in: at the start of a line, or inside one. */
module Layout {
  import opened Tokens

  predicate Content(x: Tok) {
    !(x.Newline? || x.Indent? || x.Dedent? || x.Space? || x.Continuation? || x.Comment? || x.Bad? || x.EndMarker?)
  }

  predicate Opens(x: Tok) { x.LPar? || x.LBrk? || x.LBrc? }
  predicate Closes(x: Tok) { x.RPar? || x.RBrk? || x.RBrc? }

  /** Bracket depth after x; a closer with nothing open leaves it at zero. */
  function Depth(d: nat, x: Tok): nat {
    if Opens(x) then d + 1 else if Closes(x) && d > 0 then d - 1 else d
  }

  /** Physical text: content, blanks, line ends and comments, where a comment runs to the
      end of its line. */
  predicate Physical(t: Toks) {
    t.Cons? ==>
      && (Content(t.hd) || t.hd.Space? || t.hd.Continuation? || t.hd.Newline? || t.hd.Comment?)
      && (t.hd.Comment? ==> t.tl.End? || t.tl.hd.Newline?)
      && Physical(t.tl)
  }

  // ----- the indentation stack -----

  type Stack = s: seq<nat> | |s| > 0 && s[0] == 0 && Increasing(s) witness [0]

  predicate Increasing(s: seq<nat>) {
    forall i, j :: 0 <= i < j < |s| ==> s[i] < s[j]
  }

  function Top(s: Stack): nat {
    s[|s| - 1]
  }

  /** The stack without the levels deeper than col. */
  function Pop(s: Stack, col: nat): (r: Stack)
    ensures |r| <= |s| && r == s[..|r|] && Top(r) <= col
    ensures forall i :: |r| <= i < |s| ==> s[i] > col
    decreases |s|
  {
    if Top(s) <= col then s else Pop(s[..|s| - 1], col)
  }

  function Dedents(n: nat, k: Toks): Toks {
    if n == 0 then k else Cons(Dedent, Dedents(n - 1, k))
  }

  function Close(s: Stack): Toks {
    Dedents(|s| - 1, End)
  }

  const REJECT := Cons(Bad, End)

  // ----- one pass -----

  /** Tokens from the start of a line, col blanks into it.  `keep` passes comments through. */
  function Start(keep: bool, t: Toks, col: nat, s: Stack): Toks
    decreases t, 1
  {
    if t.End? then Close(s)
    else if t.hd.Space? then Start(keep, t.tl, col + 1, s)
    else if t.hd.Newline? || t.hd.Continuation? then Start(keep, t.tl, 0, s)
    else if t.hd.Comment? then
      (if keep then Cons(t.hd, Start(keep, t.tl, col, s)) else Start(keep, t.tl, col, s))
    else if col > Top(s) then Cons(Indent, Mid(keep, t, 0, s + [col]))
    else
      var r := Pop(s, col);
      if Top(r) != col then REJECT else Dedents(|s| - |r|, Mid(keep, t, 0, r))
  }

  /** Tokens from inside a line, d brackets deep. */
  function Mid(keep: bool, t: Toks, d: nat, s: Stack): Toks
    decreases t, 0
  {
    if t.End? then Cons(Newline, Close(s))
    else if t.hd.Space? || t.hd.Continuation? then Mid(keep, t.tl, d, s)
    else if t.hd.Comment? then
      (if keep then Cons(t.hd, Mid(keep, t.tl, d, s)) else Mid(keep, t.tl, d, s))
    else if t.hd.Newline? then
      (if d > 0 then Mid(keep, t.tl, d, s) else Cons(Newline, Start(keep, t.tl, 0, s)))
    else Cons(t.hd, Mid(keep, t.tl, Depth(d, t.hd), s))
  }

  /** The logical tokens of a whole text. */
  function Logical(t: Toks): Toks {
    Start(false, t, 0, [0])
  }

  // ----- line by line -----

  /** A logical line: how far its first token is indented, and its content. */
  datatype Line = Line(indent: nat, toks: seq<Tok>)

  function Lines(t: Toks, col: nat): seq<Line>
    decreases t, 1
  {
    if t.End? then []
    else if t.hd.Space? then Lines(t.tl, col + 1)
    else if t.hd.Newline? || t.hd.Continuation? then Lines(t.tl, 0)
    else if t.hd.Comment? then Lines(t.tl, col)
    else Continue(t, 0, Line(col, []))
  }

  /** The lines from inside line `now`. */
  function Continue(t: Toks, d: nat, now: Line): (r: seq<Line>)
    ensures |r| > 0 && r[0].indent == now.indent
    decreases t, 0
  {
    if t.End? then [now]
    else if t.hd.Newline? && d == 0 then [now] + Lines(t.tl, 0)
    else if Content(t.hd) then Continue(t.tl, Depth(d, t.hd), now.(toks := now.toks + [t.hd]))
    else Continue(t.tl, d, now)
  }

  /** Tokens of a run of lines: a deeper line opens a block, a shallower one closes blocks
      back to a line of its own indentation, or the text is rejected. */
  function Emit(lines: seq<Line>, s: Stack): Toks
    decreases |lines|, 1
  {
    if lines == [] then Close(s)
    else
      var col := lines[0].indent;
      if col > Top(s) then Cons(Indent, EmitBody(lines, s + [col]))
      else if col !in s then REJECT
      else Dedents(|Pops(s, col)|, EmitBody(lines, s[..|s| - |Pops(s, col)|]))
  }

  function EmitBody(lines: seq<Line>, s: Stack): Toks
    requires lines != []
    decreases |lines|, 0
  {
    Stream(lines[0].toks, Cons(Newline, Emit(lines[1..], s)))
  }

  /** The levels of s deeper than col. */
  function Pops(s: Stack, col: nat): (r: seq<nat>)
    ensures |r| < |s| && IsStack(s[..|s| - |r|])
    ensures |s| - |r| == |Pop(s, col)|
  {
    s[|Pop(s, col)|..]
  }

  predicate IsStack(s: seq<nat>) {
    |s| > 0 && s[0] == 0 && Increasing(s)
  }

  lemma PushIsStack(s: Stack, col: nat)
    requires col > Top(s)
    ensures IsStack(s + [col]) && |s + [col]| == |s| + 1
  {
  }

  lemma PopIsStack(s: Stack)
    requires |s| > 1
    ensures IsStack(s[..|s| - 1])
  {
  }

  lemma PopFinds(s: Stack, col: nat)
    ensures Top(Pop(s, col)) == col <==> col in s
  {
    var r := Pop(s, col);
    if col in s {
      var i :| 0 <= i < |s| && s[i] == col;
      assert i < |r|;
      assert r[i] == s[i];
    }
  }

  /** Content only, or what a scanner skips inside a line. */
  lemma {:induction false} MidByLine(t: Toks, d: nat, now: Line, s: Stack)
    requires Physical(t)
    ensures Stream(now.toks, Mid(false, t, d, s)) == EmitBody(Continue(t, d, now), s)
    decreases t, 0
  {
    hide Close, Depth;
    if t.End? {
      assert Continue(t, d, now)[1..] == [];
    } else if t.hd.Newline? && d == 0 {
      StartByLine(t.tl, 0, s);
      assert Continue(t, d, now)[1..] == Lines(t.tl, 0);
    } else if Content(t.hd) {
      var now' := now.(toks := now.toks + [t.hd]);
      MidByLine(t.tl, Depth(d, t.hd), now', s);
      var m := Mid(false, t.tl, Depth(d, t.hd), s);
      StreamAppend(now.toks, [t.hd], m);
      assert Stream([t.hd], m) == Cons(t.hd, m);
    } else {
      MidByLine(t.tl, d, now, s);
    }
  }

  lemma {:induction false} StartByLine(t: Toks, col: nat, s: Stack)
    requires Physical(t)
    ensures Start(false, t, col, s) == Emit(Lines(t, col), s)
    decreases t, 1
  {
    hide Close;
    if t.End? {
    } else if t.hd.Space? {
      StartByLine(t.tl, col + 1, s);
    } else if t.hd.Newline? || t.hd.Continuation? {
      StartByLine(t.tl, 0, s);
    } else if t.hd.Comment? {
      StartByLine(t.tl, col, s);
    } else {
      PopFinds(s, col);
      var now := Line(col, []);
      MidByLine(t, 0, now, if col > Top(s) then s + [col] else Pop(s, col));
    }
  }

  /** One pass over the text gives the tokens of its logical lines. */
  lemma LogicalIsLineBased(t: Toks)
    requires Physical(t)
    ensures Logical(t) == Emit(Lines(t, 0), [0])
  {
    StartByLine(t, 0, [0]);
  }

  function Blanks(n: nat, k: Toks): Toks {
    if n == 0 then k else Cons(Space, Blanks(n - 1, k))
  }

  /** How a line without code ends: a comment or none, and a line end, or a backslash before it. */
  datatype Ending = EndOnly | EndNoted(text: string) | EndJoined

  function EmptyLine(n: nat, end: Ending, k: Toks): Toks {
    Blanks(n, match end
              case EndOnly => Cons(Newline, k)
              case EndNoted(text) => Cons(Comment(text), Cons(Newline, k))
              case EndJoined => Cons(Continuation, k))
  }

  /** A line without code says nothing, however far it is indented. */
  lemma {:induction false} EmptyLineVanishes(n: nat, end: Ending, k: Toks, col: nat, s: Stack)
    ensures Start(false, EmptyLine(n, end, k), col, s) == Start(false, k, 0, s)
    ensures Lines(EmptyLine(n, end, k), col) == Lines(k, 0)
    decreases n
  {
    if n > 0 {
      EmptyLineVanishes(n - 1, end, k, col + 1, s);
      var t := EmptyLine(n - 1, end, k);
      assert EmptyLine(n, end, k) == Cons(Space, t);
    }
  }

  /** A text with the line ends between any brackets, and the continuations, written as blanks. */
  function Joined(t: Toks, d: nat): Toks {
    if t.End? then End
    else if t.hd.Newline? && d == 0 then t
    else
      var x := if t.hd.Newline? || t.hd.Continuation? || t.hd.Comment? then Space else t.hd;
      Cons(x, Joined(t.tl, Depth(d, t.hd)))
  }

  /** From inside a line on, it does not matter where the line is broken between brackets or after a
      backslash, nor what comments it has. */
  lemma {:induction false} BrokenAnywhere(t: Toks, d: nat, s: Stack)
    requires Physical(t)
    ensures Mid(false, Joined(t, d), d, s) == Mid(false, t, d, s)
    decreases t
  {
    hide Close;
    if t.Cons? && !(t.hd.Newline? && d == 0) {
      BrokenAnywhere(t.tl, Depth(d, t.hd), s);
      if t.hd.Newline? || t.hd.Continuation? || t.hd.Comment? {
        assert Depth(d, t.hd) == Depth(d, Space) == d;
      }
    }
  }

  // ----- what every run keeps -----

  function Count(t: Toks, x: Tok): nat {
    if t.End? then 0 else (if t.hd == x then 1 else 0) + Count(t.tl, x)
  }

  predicate Accepted(t: Toks) {
    Count(t, Bad) == 0
  }

  lemma RejectCounts()
    ensures Count(REJECT, Bad) == 1 && Count(End, Bad) == 0
  {
  }

  /** The content of a stream in order, with its comments if they are kept. */
  function Carried(keep: bool, t: Toks): seq<Tok> {
    if t.End? then []
    else (if Content(t.hd) || (keep && t.hd.Comment?) then [t.hd] else []) + Carried(keep, t.tl)
  }

  lemma {:induction false} DedentsCount(n: nat, k: Toks)
    ensures Count(Dedents(n, k), Dedent) == n + Count(k, Dedent)
    ensures Count(Dedents(n, k), Indent) == Count(k, Indent)
    ensures Count(Dedents(n, k), Bad) == Count(k, Bad)
    ensures Count(Dedents(n, k), Newline) == Count(k, Newline)
    ensures Len(Dedents(n, k)) == n + Len(k)
    decreases n
  {
    if n > 0 {
      DedentsCount(n - 1, k);
    }
  }

  lemma {:induction false} DedentsCarry(keep: bool, n: nat, k: Toks)
    ensures Carried(keep, Dedents(n, k)) == Carried(keep, k) && Count(Dedents(n, k), Bad) == Count(k, Bad)
    decreases n
  {
    if n > 0 {
      DedentsCarry(keep, n - 1, k);
    }
  }

  /** Every accepted text balances: what remains to be closed is the height of the stack. */
  lemma {:induction false} Balance(keep: bool, t: Toks, col: nat, s: Stack)
    requires Physical(t)
    ensures var r := Start(keep, t, col, s); Accepted(r) ==> Count(r, Dedent) == Count(r, Indent) + |s| - 1
    decreases t, 2
  {
    hide Mid, Dedents, Depth, Pop, Increasing;
    if t.End? {
      DedentsCount(|s| - 1, End);
    } else if t.hd.Space? {
      Balance(keep, t.tl, col + 1, s);
    } else if t.hd.Newline? || t.hd.Continuation? {
      Balance(keep, t.tl, 0, s);
    } else if t.hd.Comment? {
      Balance(keep, t.tl, col, s);
    } else {
      BalanceContent(keep, t, col, s);
    }
  }

  lemma {:induction false} BalanceContent(keep: bool, t: Toks, col: nat, s: Stack)
    requires Physical(t) && t.Cons? && Content(t.hd)
    ensures var r := Start(keep, t, col, s); Accepted(r) ==> Count(r, Dedent) == Count(r, Indent) + |s| - 1
    decreases t, 1
  {
    hide Mid, Dedents, Depth, Pop, Increasing, Physical, Start;
    StartsWith(keep, t, col, s);
    if col > Top(s) {
      PushIsStack(s, col);
      BalanceInside(keep, t, 0, s + [col]);
    } else {
      var s' := Pop(s, col);
      RejectCounts();
      BalanceInside(keep, t, 0, s');
      DedentsCount(|s| - |s'|, Mid(keep, t, 0, s'));
    }
  }

  /** A line from its first token on. */
  lemma StartsWith(keep: bool, t: Toks, col: nat, s: Stack)
    requires t.Cons? && Content(t.hd)
    ensures Start(keep, t, col, s) ==
      if col > Top(s) then Cons(Indent, Mid(keep, t, 0, s + [col]))
      else if Top(Pop(s, col)) != col then REJECT
      else Dedents(|s| - |Pop(s, col)|, Mid(keep, t, 0, Pop(s, col)))
  {
    hide Mid, Dedents, Pop;
  }

  lemma {:induction false} BalanceInside(keep: bool, t: Toks, d: nat, s: Stack)
    requires Physical(t)
    ensures var r := Mid(keep, t, d, s); Accepted(r) ==> Count(r, Dedent) == Count(r, Indent) + |s| - 1
    decreases t, 0
  {
    hide Start, Dedents, Depth;
    if t.End? {
      DedentsCount(|s| - 1, End);
    } else if t.hd.Newline? && d == 0 {
      Balance(keep, t.tl, 0, s);
    } else if Content(t.hd) {
      BalanceInside(keep, t.tl, Depth(d, t.hd), s);
    } else {
      BalanceInside(keep, t.tl, d, s);
    }
  }

  /** Nothing is lost or reordered: the content of an accepted text comes out as it went in, and so do its
      comments when they are kept. */
  lemma {:induction false} Conserved(keep: bool, t: Toks, col: nat, s: Stack)
    requires Physical(t)
    ensures var r := Start(keep, t, col, s); Accepted(r) ==> Carried(keep, r) == Carried(keep, t)
    decreases t, 2
  {
    hide Mid, Dedents, Depth, Pop, Increasing;
    if t.End? {
      DedentsCarry(keep, |s| - 1, End);
    } else if t.hd.Space? {
      Conserved(keep, t.tl, col + 1, s);
    } else if t.hd.Newline? || t.hd.Continuation? {
      Conserved(keep, t.tl, 0, s);
    } else if t.hd.Comment? {
      Conserved(keep, t.tl, col, s);
    } else {
      ConservedContent(keep, t, col, s);
    }
  }

  lemma {:induction false} ConservedContent(keep: bool, t: Toks, col: nat, s: Stack)
    requires Physical(t) && t.Cons? && Content(t.hd)
    ensures var r := Start(keep, t, col, s); Accepted(r) ==> Carried(keep, r) == Carried(keep, t)
    decreases t, 1
  {
    hide Mid, Dedents, Depth, Pop, Increasing, Physical, Start;
    StartsWith(keep, t, col, s);
    if col > Top(s) {
      PushIsStack(s, col);
      ConservedInside(keep, t, 0, s + [col]);
    } else {
      var s' := Pop(s, col);
      RejectCounts();
      ConservedInside(keep, t, 0, s');
      DedentsCarry(keep, |s| - |s'|, Mid(keep, t, 0, s'));
    }
  }

  lemma {:induction false} ConservedInside(keep: bool, t: Toks, d: nat, s: Stack)
    requires Physical(t)
    ensures var r := Mid(keep, t, d, s); Accepted(r) ==> Carried(keep, r) == Carried(keep, t)
    decreases t, 0
  {
    hide Start, Dedents, Depth;
    if t.End? {
      DedentsCarry(keep, |s| - 1, End);
    } else if t.hd.Newline? && d == 0 {
      Conserved(keep, t.tl, 0, s);
    } else if Content(t.hd) {
      ConservedInside(keep, t.tl, Depth(d, t.hd), s);
    } else {
      ConservedInside(keep, t.tl, d, s);
    }
  }

  /** A stream without its comments. */
  function Uncommented(t: Toks): Toks {
    if t.End? then End
    else if t.hd.Comment? then Uncommented(t.tl)
    else Cons(t.hd, Uncommented(t.tl))
  }

  lemma {:induction false} DedentsUncommented(n: nat, k: Toks)
    ensures Uncommented(Dedents(n, k)) == Dedents(n, Uncommented(k))
    decreases n
  {
    if n > 0 {
      DedentsUncommented(n - 1, k);
    }
  }

  /** Keeping comments changes nothing else. */
  lemma {:induction false} CommentsOnly(t: Toks, col: nat, d: nat, s: Stack)
    ensures Uncommented(Start(true, t, col, s)) == Start(false, t, col, s)
    ensures Uncommented(Mid(true, t, d, s)) == Mid(false, t, d, s)
    decreases t
  {
    DedentsUncommented(|s| - 1, End);
    if t.Cons? {
      CommentsOnly(t.tl, col + 1, d, s);
      CommentsOnly(t.tl, 0, Depth(d, t.hd), s);
      CommentsOnly(t.tl, col, d, s);
      if !t.hd.Space? && !t.hd.Newline? && !t.hd.Continuation? && !t.hd.Comment? {
        if col > Top(s) {
          CommentsOnly(t.tl, 0, Depth(0, t.hd), s + [col]);
        } else {
          var r := Pop(s, col);
          CommentsOnly(t.tl, 0, Depth(0, t.hd), r);
          DedentsUncommented(|s| - |r|, Mid(true, t, 0, r));
        }
      }
    }
  }

  /** How long a stream can be.  A blank pays for the block it may open and close again. */
  lemma {:induction false} Bounded(t: Toks, col: nat, s: Stack)
    requires Physical(t)
    ensures Len(Start(false, t, col, s)) <= 2 * Len(t) + |s| + (if col > Top(s) then 2 else 0)
    decreases t, 1
  {
    hide Mid, Dedents, Depth, Pop, Increasing;
    if t.End? {
      DedentsCount(|s| - 1, End);
    } else if t.hd.Space? {
      Bounded(t.tl, col + 1, s);
    } else if t.hd.Newline? || t.hd.Continuation? {
      Bounded(t.tl, 0, s);
    } else if t.hd.Comment? {
      Bounded(t.tl, col, s);
    } else if col > Top(s) {
      PushIsStack(s, col);
      BoundedInside(t, 0, s + [col]);
    } else {
      var s' := Pop(s, col);
      BoundedInside(t, 0, s');
      DedentsCount(|s| - |s'|, Mid(false, t, 0, s'));
    }
  }

  lemma {:induction false} BoundedInside(t: Toks, d: nat, s: Stack)
    requires Physical(t)
    ensures Len(Mid(false, t, d, s)) <= 2 * Len(t) + |s|
    decreases t, 0
  {
    hide Start, Dedents, Depth;
    if t.End? {
      DedentsCount(|s| - 1, End);
    } else if t.hd.Newline? && d == 0 {
      Bounded(t.tl, 0, s);
    } else if Content(t.hd) {
      BoundedInside(t.tl, Depth(d, t.hd), s);
    } else {
      BoundedInside(t.tl, d, s);
    }
  }

  /** The laws for a whole text: its blocks balance, its content, and its comments when they are asked for,
      are kept in order, and its tokens, with the end of the stream, number at most twice its length and two. */
  lemma LogicalLaws(t: Toks)
    requires Physical(t)
    ensures Accepted(Logical(t)) ==> Count(Logical(t), Indent) == Count(Logical(t), Dedent)
    ensures Accepted(Logical(t)) ==> Carried(false, Logical(t)) == Carried(false, t)
    ensures Len(Logical(t)) + 1 <= 2 * Len(t) + 2
    ensures var noted := Start(true, t, 0, [0]);
            Uncommented(noted) == Logical(t) && (Accepted(noted) ==> Carried(true, noted) == Carried(true, t))
  {
    hide Start, Carried, Uncommented, Count;
    Conserved(true, t, 0, [0]);
    Balance(false, t, 0, [0]);
    Conserved(false, t, 0, [0]);
    Bounded(t, 0, [0]);
    CommentsOnly(t, 0, 0, [0]);
  }
}
