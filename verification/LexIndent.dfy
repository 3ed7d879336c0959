/** The layout layer of package lex (lex/indent.go): a wrapper over a scanner of physical
    tokens, with a stack of columns and a queue of tokens to hand out before the next scan. */
module LexIndent {
  import opened Tokens
  import opened Layout

  /** A logical stream with the end marker that the layer adds to a text it accepts. */
  function Marked(t: Toks): Toks {
    if t.End? then Cons(EndMarker, End)
    else if t.hd.Bad? then t
    else Cons(t.hd, Marked(t.tl))
  }

  lemma {:induction false} MarkedDedents(n: nat, k: Toks)
    ensures Marked(Dedents(n, k)) == Dedents(n, Marked(k))
    decreases n
  {
    if n > 0 {
      MarkedDedents(n - 1, k);
    }
  }

  function Repeat(n: nat): seq<Tok> {
    if n == 0 then [] else [Dedent] + Repeat(n - 1)
  }

  lemma {:induction false} StreamRepeat(n: nat, k: Toks)
    ensures Stream(Repeat(n), k) == Dedents(n, k)
    decreases n
  {
    if n > 0 {
      StreamRepeat(n - 1, k);
      assert Repeat(n)[1..] == Repeat(n - 1);
    }
  }

  lemma {:induction false} RepeatOnly(n: nat)
    ensures |Repeat(n)| == n && Bad !in Repeat(n)
    ensures forall i :: 0 <= i < n ==> Repeat(n)[i] == Dedent
    decreases n
  {
    if n > 0 {
      RepeatOnly(n - 1);
    }
  }

  lemma {:induction false} RepeatSnoc(n: nat)
    ensures Repeat(n) + [Dedent] == Repeat(n + 1)
    decreases n
  {
    if n > 0 {
      RepeatSnoc(n - 1);
      assert Repeat(n) + [Dedent] == [Dedent] + (Repeat(n - 1) + [Dedent]);
    }
  }

  /** A line from its first content token on, with the stack r. */
  function Body(keep: bool, x: Tok, rest: Toks, r: Stack): Toks {
    Cons(x, Marked(Mid(keep, rest, Depth(0, x), r)))
  }

  /** The tokens before and after the first content token of a line. */
  lemma StartContent(keep: bool, x: Tok, rest: Toks, at: nat, s: Stack)
    requires Content(x)
    ensures Marked(Start(keep, Cons(x, rest), at, s)) ==
      if at > Top(s) then Cons(Indent, Body(keep, x, rest, s + [at]))
      else if Top(Pop(s, at)) != at then REJECT
      else Dedents(|s| - |Pop(s, at)|, Body(keep, x, rest, Pop(s, at)))
  {
    hide Depth, Pop, Dedents;
    var t := Cons(x, rest);
    if at > Top(s) {
      assert Mid(keep, t, 0, s + [at]) == Cons(x, Mid(keep, rest, Depth(0, x), s + [at]));
    } else {
      var r := Pop(s, at);
      assert Mid(keep, t, 0, r) == Cons(x, Mid(keep, rest, Depth(0, x), r));
      MarkedDedents(|s| - |r|, Mid(keep, t, 0, r));
    }
  }

  /** A comment or a line end at the start of a line. */
  lemma StartSkip(keep: bool, x: Tok, rest: Toks, at: nat, s: Stack)
    requires x.Comment? || x.Newline?
    ensures var later := Marked(Start(keep, rest, if x.Newline? then 0 else at, s));
      Marked(Start(keep, Cons(x, rest), at, s)) == if x.Comment? && keep then Cons(x, later) else later
  {
    hide Mid;
  }

  /** One token inside a line. */
  lemma MidStep(keep: bool, x: Tok, rest: Toks, d: nat, s: Stack)
    requires x.Comment? || x.Newline? || Content(x)
    ensures Marked(Mid(keep, Cons(x, rest), d, s)) ==
      if x.Comment? then (if keep then Cons(x, Marked(Mid(keep, rest, d, s))) else Marked(Mid(keep, rest, d, s)))
      else if x.Newline? then (if d > 0 then Marked(Mid(keep, rest, d, s))
        else Cons(x, Marked(Start(keep, rest, 0, s))))
      else Cons(x, Marked(Mid(keep, rest, Depth(d, x), s)))
  {
    hide Start, Depth;
  }

  lemma AtEndOfText(keep: bool, at: nat, d: nat, s: Stack)
    ensures Marked(Start(keep, End, at, s)) == Marked(Close(s))
    ensures Marked(Mid(keep, End, d, s)) == Cons(Newline, Marked(Close(s)))
  {
  }

  lemma StreamTwo(x: Tok, y: Tok, k: Toks)
    ensures Stream([x, y], k) == Cons(x, Cons(y, k))
  {
    assert [x, y][1..] == [y];
    assert Stream([y], k) == Cons(y, k);
  }

  /** One turn of the loop that pops the stack. */
  lemma PopTurn(s: Stack, at: nat)
    ensures if at < Top(s) then |s| > 1 && Pop(s, at) == Pop(s[..|s| - 1], at) else Pop(s, at) == s
    ensures Repeat(0) == []
  {
  }

  lemma QueueDedents(n: nat, x: Tok, k: Toks)
    ensures Stream(Repeat(n) + [x], k) == Dedents(n, Cons(x, k))
  {
    StreamAppend(Repeat(n), [x], k);
    assert Stream([x], k) == Cons(x, k);
    StreamRepeat(n, Cons(x, k));
  }

  datatype Step = Emit(tok: Tok) | AtEnd | Fail

  class Indent {
    // The scanner: the text it has not read, and the column it has reached.
    var rest: Toks
    var col: nat

    var indents: seq<nat>
    var pending: seq<Tok>
    var pendingHead: nat
    var bracket: nat
    var lineStart: bool
    var emittedEnd: bool
    var keepComments: bool

    ghost predicate Valid()
      reads this
    {
      && IsStack(indents)
      && Physical(rest)
      && (pending == [] ==> pendingHead == 0)
      && (pending != [] ==> pendingHead < |pending|)
      && (lineStart && !emittedEnd ==> bracket == 0)
      && Bad !in pending
      && (forall i :: 0 <= i < |pending| && pending[i] == EndMarker ==> emittedEnd && i == |pending| - 1)
    }

    /** The tokens still to come. */
    ghost function Out(): Toks
      requires Valid()
      reads this
    {
      Stream(pending[pendingHead..], Later())
    }

    /** The tokens to come once the queue is empty. */
    ghost function Later(): Toks
      requires Valid()
      reads this
    {
      if emittedEnd then End
      else if lineStart then Marked(Start(keepComments, rest, col, indents))
      else Marked(Mid(keepComments, rest, bracket, indents))
    }

    constructor (src: Toks, keep: bool)
      requires Physical(src)
      ensures Valid() && Out() == Marked(Start(keep, src, 0, [0]))
    {
      rest, col := src, 0;
      indents, lineStart := [0], true;
      pending, pendingHead, bracket, emittedEnd := [], 0, 0, false;
      keepComments := keep;
    }

    /** The next physical token with its column: blanks and continuations are skipped. */
    method Scan() returns (tok: Option<Tok>, at: nat)
      requires Valid() && !emittedEnd && pending == []
      modifies this`rest, this`col
      ensures Valid()
      ensures tok.None? ==> rest.End?
      ensures tok.Some? ==> var x := tok.value;
        && (Content(x) || x.Newline? || x.Comment?)
        && Len(rest) < Len(old(rest))
        && (x.Comment? ==> rest.End? || rest.hd.Newline?)
        && (x.Newline? ==> col == 0)
      ensures var t := if tok.None? then End else Cons(tok.value, rest);
        old(Later()) ==
          if lineStart then Marked(Start(keepComments, t, at, indents))
            else Marked(Mid(keepComments, t, bracket, indents))
      ensures tok.Some? && tok.value.Comment? ==> col == at
    {
      while rest.Cons? && (rest.hd.Space? || rest.hd.Continuation?)
        invariant Valid() && Len(rest) <= Len(old(rest))
        invariant Later() == old(Later())
        decreases rest
      {
        col := if rest.hd.Space? then col + 1 else 0;
        rest := rest.tl;
      }
      at := col;
      if rest.End? {
        return None, at;
      }
      tok := Some(rest.hd);
      col := if rest.hd.Newline? then 0 else if rest.hd.Comment? then col else col + 1;
      rest := rest.tl;
    }

    method Queue(t: Tok)
      modifies this`pending
      ensures pending == old(pending) + [t]
    {
      pending := pending + [t];
    }

    method Dequeue() returns (t: Tok)
      requires Valid() && pending != []
      modifies this`pending, this`pendingHead
      ensures Valid()
      ensures old(Out()) == Cons(t, Out())
      ensures t == EndMarker ==> Out() == End
      ensures t != Bad
    {
      t := pending[pendingHead];
      ghost var queue := pending[pendingHead..];
      assert queue[0] == t;
      pendingHead := pendingHead + 1;
      if pendingHead == |pending| {
        assert queue[1..] == [];
        pending, pendingHead := [], 0;
      } else {
        assert queue[1..] == pending[pendingHead..];
      }
    }

    method Next() returns (r: Step)
      requires Valid()
      modifies this
      ensures Valid() && keepComments == old(keepComments)
      ensures r.Emit? ==> old(Out()) == Cons(r.tok, Out())
      ensures r.Emit? && r.tok == EndMarker ==> Out() == End
      ensures r.Emit? ==> r.tok != Bad
      ensures r.AtEnd? ==> old(Out()) == End
      ensures r.Fail? ==> old(Out()) == REJECT
    {
      hide Start, Mid, Marked;
      if pending != [] {
        var t := Dequeue();
        return Emit(t);
      }
      if emittedEnd {
        return AtEnd;
      }
      while true
        invariant Valid() && pending == [] && !emittedEnd && keepComments == old(keepComments)
        invariant Out() == old(Out())
        decreases Len(rest)
      {
        var tok, at := Scan();
        if tok.None? {
          AtEndOfText(keepComments, at, bracket, indents);
          var t := FlushAtEnd();
          return Emit(t);
        }
        var x := tok.value;
        if lineStart && !Content(x) {
          StartSkip(keepComments, x, rest, at, indents);
        } else if !lineStart {
          MidStep(keepComments, x, rest, bracket, indents);
        }
        if x.Comment? {
          if keepComments {
            return Emit(x);
          }
          continue;
        }
        var preBracket := bracket;
        if Opens(x) {
          bracket := bracket + 1;
        } else if Closes(x) && bracket > 0 {
          bracket := bracket - 1;
        }
        if x.Newline? {
          if preBracket > 0 || lineStart {
            continue;
          }
          lineStart := true;
          return Emit(x);
        }
        if lineStart {
          lineStart := false;
          r := Dance(x, at);
          return;
        }
        return Emit(x);
      }
    }

    /** Queues the INDENT or DEDENTs that column `at` calls for; false when it fits no level. */
    method Reindent(at: nat) returns (ok: bool)
      requires IsStack(indents) && pending == [] && pendingHead == 0
      modifies this`indents, this`pending
      ensures IsStack(indents)
      ensures var s: Stack := old(indents);
        if at > Top(s) then ok && indents == s + [at] && pending == [Indent]
        else ok == (Top(Pop(s, at)) == at) && indents == Pop(s, at) && pending == Repeat(|s| - |indents|)
    {
      hide Pop, Repeat, Increasing;
      ghost var s0: Stack := indents;
      PopTurn(s0, at);
      ok := true;
      var top := indents[|indents| - 1];
      if at > top {
        PushIsStack(s0, at);
        indents := indents + [at];
        Queue(Indent);
      } else if at < top {
        while at < indents[|indents| - 1]
          invariant IsStack(indents) && |indents| <= |s0| && Pop(indents, at) == Pop(s0, at)
          invariant pending == Repeat(|s0| - |indents|)
          decreases |indents|
        {
          RepeatSnoc(|s0| - |indents|);
          PopTurn(indents, at);
          PopIsStack(indents);
          indents := indents[..|indents| - 1];
          Queue(Dedent);
        }
        PopTurn(indents, at);
        ok := at == indents[|indents| - 1];
      }
    }

    /** The indent dance before the first token x of a line, at column `at`. */
    method Dance(x: Tok, at: nat) returns (r: Step)
      requires Valid() && pending == [] && !emittedEnd && !lineStart && Content(x)
      requires bracket == Depth(0, x)
      modifies this`indents, this`pending, this`pendingHead
      ensures Valid()
      ensures r.Emit? || r.Fail?
      ensures var t := Marked(Start(keepComments, Cons(x, rest), at, old(indents)));
        if r.Emit? then t == Cons(r.tok, Out()) else t == REJECT
      ensures r.Emit? ==> r.tok != Bad && (r.tok == EndMarker ==> Out() == End)
    {
      hide Start, Mid, Marked, Stream, Dedents, Depth, Pop, Repeat, Increasing;
      ghost var s0: Stack := indents;
      StartContent(keepComments, x, rest, at, s0);
      var ok := Reindent(at);
      if at <= Top(s0) {
        RepeatOnly(|s0| - |indents|);
      }
      if !ok {
        return Fail;
      }
      ghost var m := Marked(Mid(keepComments, rest, bracket, indents));
      if at > Top(s0) {
        StreamTwo(Indent, x, m);
        assert [Indent] + [x] == [Indent, x];
      } else {
        QueueDedents(|s0| - |indents|, x, m);
      }
      Queue(x);
      assert pending[pendingHead..] == pending;
      assert Later() == m;
      var t := Dequeue();
      r := Emit(t);
    }

    /** Pops every level but the first, queueing a DEDENT for each. */
    method PopAll()
      requires IsStack(indents)
      modifies this`indents, this`pending
      ensures IsStack(indents) && |indents| == 1
      ensures pending == old(pending) + Repeat(|old(indents)| - 1)
    {
      hide Repeat, Increasing;
      ghost var s0 := indents;
      NoRepeat(pending);
      while |indents| > 1
        invariant IsStack(indents) && |indents| <= |s0|
        invariant pending == old(pending) + Repeat(|s0| - |indents|)
        decreases |indents|
      {
        ghost var n := |s0| - |indents|;
        RepeatSnoc(n);
        assert old(pending) + Repeat(n) + [Dedent] == old(pending) + (Repeat(n) + [Dedent]);
        PopIsStack(indents);
        indents := indents[..|indents| - 1];
        Queue(Dedent);
      }
    }

    /** The end of the input: a last NEWLINE if the line is open, the outstanding dedents, and
        the end marker. */
    method FlushAtEnd() returns (t: Tok)
      requires Valid() && pending == [] && !emittedEnd && rest == End
      modifies this
      ensures Valid() && keepComments == old(keepComments)
      ensures (if old(lineStart) then Marked(Close(old(indents))) else Cons(Newline, Marked(Close(old(indents))))) ==
              Cons(t, Out())
      ensures t == EndMarker ==> Out() == End
      ensures t != Bad
    {
      hide Start, Mid, Marked, Stream, Dedents, Repeat, Flush, Increasing;
      ghost var s0: Stack := indents;
      ghost var n: nat := |s0| - 1;
      ghost var open := !lineStart;
      if !lineStart {
        Queue(Newline);
        lineStart := true;
      }
      PopAll();
      Queue(EndMarker);
      emittedEnd := true;
      Flushed(open, n);
      FlushIs(open, n);
      assert pending[0..] == pending == Flush(open, n);
      t := Dequeue();
    }
  }

  lemma NoRepeat(s: seq<Tok>)
    ensures s + Repeat(0) == s
  {
  }

  /** The queue at the end of the input. */
  function Flush(open: bool, n: nat): seq<Tok> {
    (if open then [Newline] else []) + Repeat(n) + [EndMarker]
  }

  lemma FlushIs(open: bool, n: nat)
    ensures Flush(open, n) == (if open then [Newline] else []) + Repeat(n) + [EndMarker]
  {
  }

  lemma Flushed(open: bool, n: nat)
    ensures Stream(Flush(open, n), End) ==
            if open then Cons(Newline, Marked(Dedents(n, End))) else Marked(Dedents(n, End))
    ensures Bad !in Flush(open, n)
    ensures forall i :: 0 <= i < |Flush(open, n)| && Flush(open, n)[i] == EndMarker ==> i == |Flush(open, n)| - 1
  {
    RepeatOnly(n);
    MarkedDedents(n, End);
    QueueDedents(n, EndMarker, End);
    if open {
      assert [Newline] + Repeat(n) + [EndMarker] == [Newline] + (Repeat(n) + [EndMarker]);
      StreamAppend([Newline], Repeat(n) + [EndMarker], End);
      StreamSnoc([], Newline, Stream(Repeat(n) + [EndMarker], End));
      assert [] + [Newline] == [Newline];
    } else {
      assert [] + Repeat(n) + [EndMarker] == Repeat(n) + [EndMarker];
    }
  }

  lemma {:induction false} MarkedBad(t: Toks)
    ensures Count(Marked(t), Bad) == Count(t, Bad)
    decreases t
  {
    if t.Cons? && !t.hd.Bad? {
      MarkedBad(t.tl);
    }
  }

  lemma {:induction false} BadStays(out: seq<Tok>, k: Toks)
    ensures Count(Stream(out, k), Bad) >= Count(k, Bad)
    decreases out
  {
    if out != [] {
      BadStays(out[1..], k);
    }
  }

  /** Drains the layer: every token of the text up to the end marker, or nothing when the
      text is rejected.  With `keep` this is AllTokens, the run that passes comments through. */
  method All(src: Toks, keep: bool) returns (r: Option<seq<Tok>>)
    requires Physical(src)
    ensures r.Some? <==> Accepted(Start(keep, src, 0, [0]))
    ensures r.Some? ==> Stream(r.value, End) == Marked(Start(keep, src, 0, [0]))
  {
    hide Start, Marked, Stream, Count;
    var it := new Indent(src, keep);
    var out: seq<Tok> := [];
    ghost var whole := Marked(Start(keep, src, 0, [0]));
    MarkedBad(Start(keep, src, 0, [0]));
    StreamNil(whole);
    while true
      invariant fresh(it) && it.Valid() && Bad !in out && EndMarker !in out
      invariant Stream(out, it.Out()) == whole
      decreases Len(it.Out())
    {
      NotOver(out, it.Out(), Start(keep, src, 0, [0]));
      var s := it.Next();
      if s.Fail? {
        RejectCounts();
        BadStays(out, REJECT);
        return None;
      }
      StreamSnoc(out, s.tok, it.Out());
      out := out + [s.tok];
      if s.tok == EndMarker {
        CountAll(out, Bad);
        return Some(out);
      }
    }
  }

  lemma {:induction false} MarkedEnds(t: Toks)
    ensures Count(Marked(t), EndMarker) + Count(Marked(t), Bad) > 0
    decreases t
  {
    if t.Cons? && !t.hd.Bad? {
      MarkedEnds(t.tl);
    }
  }

  lemma {:induction false} CountAll(out: seq<Tok>, x: Tok)
    requires x !in out
    ensures Count(Stream(out, End), x) == 0
    decreases out
  {
    if out != [] {
      CountAll(out[1..], x);
    }
  }

  /** A run is not over before its end marker or its rejection. */
  lemma NotOver(out: seq<Tok>, k: Toks, t: Toks)
    requires Stream(out, k) == Marked(t)
    requires Bad !in out && EndMarker !in out
    ensures k != End
  {
    MarkedEnds(t);
    if k == End {
      CountAll(out, Bad);
      CountAll(out, EndMarker);
    }
  }
}
