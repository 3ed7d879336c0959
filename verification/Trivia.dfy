/** Which statement a comment belongs to (cst/trivia.go): a rule for each comment on its own, and
    the one pass over the tokens that carries it out. */
module Trivia {
  import opened Tokens

  datatype Kind = Remark | LayoutOnly | Real

  /** A token with the line it starts on and the line it ends on. */
  datatype Token = Token(kind: Kind, line: nat, end: nat, text: string)

  /** Where a statement begins and ends.  Statements are listed in pre-order. */
  datatype Span = Span(start: nat, end: nat)

  datatype Position = Leading | Trailing

  datatype Attachment = Attached(line: nat, text: string, position: Position)

  // ----- the rule -----

  /** The line of the last real token before index i. */
  function LineBefore(toks: seq<Token>, i: nat): Option<nat>
    requires i <= |toks|
  {
    if i == 0 then None
    else if toks[i - 1].kind == Real then Some(toks[i - 1].line)
    else LineBefore(toks, i - 1)
  }

  /** The line of the first real token from index i on. */
  function LineAfter(toks: seq<Token>, i: nat): Option<nat>
    requires i <= |toks|
    decreases |toks| - i
  {
    if i == |toks| then None
    else if toks[i].kind == Real then Some(toks[i].line)
    else LineAfter(toks, i + 1)
  }

  predicate IsTrailing(toks: seq<Token>, i: nat)
    requires i < |toks|
  {
    LineBefore(toks, i) == Some(toks[i].line)
  }

  /** k is the innermost statement that ends on the line. */
  ghost predicate Innermost(stmts: seq<Span>, line: nat, k: Option<nat>) {
    match k
    case Some(k) => k < |stmts| && stmts[k].end == line && forall j | k < j < |stmts| :: stmts[j].end != line
    case None => forall j | 0 <= j < |stmts| :: stmts[j].end != line
  }

  /** k is the outermost statement that starts on the line or after it. */
  ghost predicate Outermost(stmts: seq<Span>, line: nat, k: Option<nat>) {
    match k
    case Some(k) => k < |stmts| && stmts[k].start >= line && forall j | 0 <= j < k :: stmts[j].start < line
    case None => forall j | 0 <= j < |stmts| :: stmts[j].start < line
  }

  /** The statement that owns the comment at index i; none when it belongs to the file. */
  ghost predicate Owns(toks: seq<Token>, stmts: seq<Span>, i: nat, k: Option<nat>)
    requires i < |toks|
  {
    if IsTrailing(toks, i) then Innermost(stmts, toks[i].line, k)
    else if LineAfter(toks, i).Some? then Outermost(stmts, LineAfter(toks, i).value, k)
    else k == None
  }

  function Labelled(toks: seq<Token>, i: nat): Attachment
    requires i < |toks|
  {
    Attached(toks[i].line, toks[i].text, if IsTrailing(toks, i) then Trailing else Leading)
  }

  /** The comments before index n that belong to k, in source order. */
  ghost function Share(toks: seq<Token>, stmts: seq<Span>, n: nat, k: Option<nat>): seq<Attachment>
    requires n <= |toks|
  {
    if n == 0 then []
    else
      Share(toks, stmts, n - 1, k) +
      (if toks[n - 1].kind == Remark && Owns(toks, stmts, n - 1, k) then [Labelled(toks, n - 1)] else [])
  }

  lemma OneInnermost(stmts: seq<Span>, line: nat, a: Option<nat>, b: Option<nat>)
    requires Innermost(stmts, line, a) && Innermost(stmts, line, b)
    ensures a == b
  {
  }

  lemma OneOutermost(stmts: seq<Span>, line: nat, a: Option<nat>, b: Option<nat>)
    requires Outermost(stmts, line, a) && Outermost(stmts, line, b)
    ensures a == b
  {
  }

  /** A comment belongs to one place. */
  lemma OneOwner(toks: seq<Token>, stmts: seq<Span>, i: nat, a: Option<nat>, b: Option<nat>)
    requires i < |toks| && Owns(toks, stmts, i, a) && Owns(toks, stmts, i, b)
    ensures a == b
  {
    hide Innermost, Outermost;
    if IsTrailing(toks, i) {
      OneInnermost(stmts, toks[i].line, a, b);
    } else if LineAfter(toks, i).Some? {
      OneOutermost(stmts, LineAfter(toks, i).value, a, b);
    }
  }

  /** The token after a comment that counts is the first real one. */
  lemma {:induction false} NextReal(toks: seq<Token>, i: nat)
    requires i <= |toks|
    ensures LineAfter(toks, i).None? <==> forall j | i <= j < |toks| :: toks[j].kind != Real
    ensures LineAfter(toks, i).Some? ==>
      exists j | i <= j < |toks| :: toks[j].kind == Real && toks[j].line == LineAfter(toks, i).value
                                    && forall m | i <= m < j :: toks[m].kind != Real
    decreases |toks| - i
  {
    if i < |toks| && toks[i].kind != Real {
      NextReal(toks, i + 1);
    }
  }

  /** Statements in pre-order begin in order. */
  predicate Preorder(stmts: seq<Span>) {
    forall j, k | 0 <= j < k < |stmts| :: stmts[j].start <= stmts[k].start
  }

  /** Of statements in pre-order, a comment after code goes to the one that begins last among those that end
      on its line, and a comment before code to the first that begins on the line of that code or later. */
  lemma OwnerIsNext(toks: seq<Token>, stmts: seq<Span>, i: nat, k: Option<nat>)
    requires i < |toks| && Preorder(stmts) && Owns(toks, stmts, i, k)
    ensures IsTrailing(toks, i) && k.Some? ==>
      && k.value < |stmts| && stmts[k.value].end == toks[i].line
      && forall j | 0 <= j < |stmts| && stmts[j].end == toks[i].line :: stmts[j].start <= stmts[k.value].start
    ensures !IsTrailing(toks, i) && k.Some? ==>
      && k.value < |stmts| && LineAfter(toks, i).Some? && stmts[k.value].start >= LineAfter(toks, i).value
      && forall j | 0 <= j < |stmts| && stmts[j].start >= LineAfter(toks, i).value ::
           stmts[k.value].start <= stmts[j].start
  {
    hide LineAfter, IsTrailing;
  }

  // ----- the pass -----

  method InnermostStmtEndingOnLine(stmts: seq<Span>, line: nat) returns (k: Option<nat>)
    ensures Innermost(stmts, line, k)
  {
    k := None;
    for i := 0 to |stmts|
      invariant Innermost(stmts[..i], line, k)
    {
      if stmts[i].end == line {
        k := Some(i);
      }
    }
    assert stmts[..|stmts|] == stmts;
  }

  method OutermostStmtStartingOnOrAfterLine(stmts: seq<Span>, line: nat) returns (k: Option<nat>)
    ensures Outermost(stmts, line, k)
  {
    for i := 0 to |stmts|
      invariant forall j | 0 <= j < i :: stmts[j].start < line
    {
      if stmts[i].start >= line {
        return Some(i);
      }
    }
    k := None;
  }

  /** Lines never go back. */
  predicate InOrder(toks: seq<Token>) {
    forall i, j | 0 <= i < j < |toks| && toks[i].kind != LayoutOnly && toks[j].kind != LayoutOnly ::
      toks[i].line <= toks[j].line
  }

  // ----- which comments are taken to be trailing -----

  /** The line on which the last real token before index i ends. */
  function EndBefore(toks: seq<Token>, i: nat): Option<nat>
    requires i <= |toks|
  {
    if i == 0 then None
    else if toks[i - 1].kind == Real then Some(toks[i - 1].end)
    else EndBefore(toks, i - 1)
  }

  /** Tokens end before others begin. */
  predicate Disjoint(toks: seq<Token>) {
    && (forall i | 0 <= i < |toks| && toks[i].kind != LayoutOnly :: toks[i].line <= toks[i].end)
    && (forall i, j | 0 <= i < j < |toks| && toks[i].kind != LayoutOnly && toks[j].kind != LayoutOnly ::
          toks[i].end <= toks[j].line)
  }

  /** A comment is taken to be trailing exactly when the token before it ends on its line and starts
      there too. */
  lemma TrailingExactly(toks: seq<Token>, i: nat)
    requires Disjoint(toks) && i < |toks| && toks[i].kind == Remark
    ensures IsTrailing(toks, i) <==>
            EndBefore(toks, i) == Some(toks[i].line) && LineBefore(toks, i) == EndBefore(toks, i)
  {
    LastReal(toks, i);
    if LineBefore(toks, i).Some? {
      var r := LastRealAt(toks, i);
      assert toks[r].end <= toks[i].line;
    }
  }

  lemma {:induction false} LastReal(toks: seq<Token>, i: nat)
    requires i <= |toks|
    ensures LineBefore(toks, i).Some? <==> EndBefore(toks, i).Some?
    decreases i
  {
    if i > 0 && toks[i - 1].kind != Real {
      LastReal(toks, i - 1);
    }
  }

  lemma {:induction false} LastRealAt(toks: seq<Token>, i: nat) returns (r: nat)
    requires i <= |toks| && LineBefore(toks, i).Some?
    ensures r < i && toks[r].kind == Real
    ensures LineBefore(toks, i) == Some(toks[r].line) && EndBefore(toks, i) == Some(toks[r].end)
    decreases i
  {
    if toks[i - 1].kind == Real {
      r := i - 1;
    } else {
      r := LastRealAt(toks, i - 1);
    }
  }

  /** A comment on the last line of a string that spans two lines is taken to lead what follows. */
  lemma AfterLongToken(stmts: seq<Span>, text: string, note: string)
    ensures var toks := [Token(Real, 1, 2, text), Token(Remark, 2, 2, note)];
            && Disjoint(toks) && EndBefore(toks, 1) == Some(toks[1].line)
            && Labelled(toks, 1) == Attached(2, note, Leading)
            && Owns(toks, stmts, 1, None)
  {
    var toks := [Token(Real, 1, 2, text), Token(Remark, 2, 2, note)];
    assert LineBefore(toks, 1) == Some(1) && LineAfter(toks, 2) == None && LineAfter(toks, 1) == None;
  }

  // ----- the comments that wait -----

  /** The comments from index m up to i are all leading and no real token has come since. */
  predicate Waiting(toks: seq<Token>, m: nat, i: nat)
    requires i <= |toks|
  {
    && m <= i
    && (forall j | m <= j < i :: toks[j].kind != Real)
    && (forall j | m <= j < i && toks[j].kind == Remark :: !IsTrailing(toks, j))
  }

  function Buffered(toks: seq<Token>, m: nat, i: nat): seq<Attachment>
    requires m <= i <= |toks|
  {
    if m == i then []
    else Buffered(toks, m, i - 1) + (if toks[i - 1].kind == Remark then [Labelled(toks, i - 1)] else [])
  }

  lemma {:induction false} LineAfterWait(toks: seq<Token>, j: nat, i: nat)
    requires j <= i <= |toks| && forall x | j <= x < i :: toks[x].kind != Real
    ensures LineAfter(toks, j) == LineAfter(toks, i)
    decreases i - j
  {
    if j < i {
      LineAfterWait(toks, j + 1, i);
    }
  }

  lemma {:induction false} LineBeforeWait(toks: seq<Token>, j: nat, i: nat)
    requires j <= i <= |toks| && forall x | j <= x < i :: toks[x].kind != Real
    ensures LineBefore(toks, j) == LineBefore(toks, i)
    decreases i - j
  {
    if j < i {
      LineBeforeWait(toks, j, i - 1);
    }
  }

  lemma {:induction false} BeforeIsReal(toks: seq<Token>, i: nat) returns (r: nat)
    requires i <= |toks| && LineBefore(toks, i).Some?
    ensures r < i && toks[r].kind == Real && toks[r].line == LineBefore(toks, i).value
    decreases i
  {
    if toks[i - 1].kind == Real {
      r := i - 1;
    } else {
      r := BeforeIsReal(toks, i - 1);
    }
  }

  /** While a comment waits, none is trailing. */
  lemma NoTrailing(toks: seq<Token>, m: nat, i: nat)
    requires InOrder(toks) && i < |toks| && Waiting(toks, m, i) && toks[i].kind == Remark && IsTrailing(toks, i)
    ensures forall j | m <= j < i :: toks[j].kind != Remark
    ensures Buffered(toks, m, i) == []
  {
    forall j | m <= j < i
      ensures toks[j].kind != Remark
    {
      if toks[j].kind == Remark {
        LineBeforeWait(toks, j, i);
        var r := BeforeIsReal(toks, j);
      }
    }
    NoneBuffered(toks, m, i);
  }

  lemma {:induction false} NoneBuffered(toks: seq<Token>, m: nat, i: nat)
    requires m <= i <= |toks| && forall j | m <= j < i :: toks[j].kind != Remark
    ensures Buffered(toks, m, i) == []
    decreases i
  {
    if m < i {
      NoneBuffered(toks, m, i - 1);
    }
  }

  lemma {:induction false} NoShare(toks: seq<Token>, stmts: seq<Span>, m: nat, i: nat, k: Option<nat>)
    requires m <= i <= |toks| && forall j | m <= j < i :: toks[j].kind != Remark || !Owns(toks, stmts, j, k)
    ensures Share(toks, stmts, i, k) == Share(toks, stmts, m, k)
    decreases i
  {
    hide Owns;
    if m < i {
      NoShare(toks, stmts, m, i - 1, k);
    }
  }

  lemma {:induction false} AllShare(toks: seq<Token>, stmts: seq<Span>, m: nat, i: nat, k: Option<nat>)
    requires m <= i <= |toks| && forall j | m <= j < i :: toks[j].kind == Remark ==> Owns(toks, stmts, j, k)
    ensures Share(toks, stmts, i, k) == Share(toks, stmts, m, k) + Buffered(toks, m, i)
    decreases i
  {
    hide Owns;
    if m < i {
      AllShare(toks, stmts, m, i - 1, k);
    }
  }

  /** The comments from m up to i all belong to `owner`. */
  lemma Drained(toks: seq<Token>, stmts: seq<Span>, m: nat, i: nat, owner: Option<nat>, k: Option<nat>)
    requires i <= |toks| && Waiting(toks, m, i)
    requires LineAfter(toks, i).Some? ==> Outermost(stmts, LineAfter(toks, i).value, owner)
    requires LineAfter(toks, i).None? ==> owner == None
    ensures Share(toks, stmts, i, k) == Share(toks, stmts, m, k) + if k == owner then Buffered(toks, m, i) else []
  {
    hide Innermost, Outermost, Share;
    forall j | m <= j < i && toks[j].kind == Remark
      ensures Owns(toks, stmts, j, owner)
    {
      LineAfterWait(toks, j, i);
    }
    if k == owner {
      AllShare(toks, stmts, m, i, k);
    } else {
      forall j | m <= j < i && toks[j].kind == Remark
        ensures !Owns(toks, stmts, j, k)
      {
        if Owns(toks, stmts, j, k) {
          OneOwner(toks, stmts, j, k, owner);
        }
      }
      NoShare(toks, stmts, m, i, k);
    }
  }

  function Held(byNode: map<nat, seq<Attachment>>, file: seq<Attachment>, k: Option<nat>): seq<Attachment> {
    match k
    case None => file
    case Some(k) => if k in byNode then byNode[k] else []
  }

  /** The table of comments. */
  class Table {
    var byNode: map<nat, seq<Attachment>>
    var file: seq<Attachment>

    constructor ()
      ensures byNode == map[] && file == []
    {
      byNode, file := map[], [];
    }

    function Of(k: Option<nat>): seq<Attachment>
      reads this
    {
      Held(byNode, file, k)
    }

    method Append(owner: Option<nat>, cs: seq<Attachment>)
      modifies this
      ensures forall k :: Of(k) == Held(old(byNode), old(file), k) + if k == owner then cs else []
    {
      match owner
      case None =>
        file := file + cs;
      case Some(k) =>
        byNode := byNode[k := (if k in byNode then byNode[k] else []) + cs];
    }

    /** The table holds the comments before index n. */
    ghost predicate Holds(toks: seq<Token>, stmts: seq<Span>, n: nat)
      requires n <= |toks|
      reads this
    {
      forall k :: Of(k) == Share(toks, stmts, n, k)
    }
  }

  lemma AtFirst(toks: seq<Token>, stmts: seq<Span>)
    ensures forall k :: Share(toks, stmts, 0, k) == []
  {
  }

  lemma TrailingIs(toks: seq<Token>, i: nat)
    requires i < |toks|
    ensures IsTrailing(toks, i) <==> LineBefore(toks, i) == Some(toks[i].line)
  {
  }

  /** AttachComments: every statement's list, and the file's, is exactly the comments that belong
      to it, in source order. */
  method AttachComments(toks: seq<Token>, stmts: seq<Span>) returns (trivia: Table)
    requires InOrder(toks)
    ensures fresh(trivia)
    ensures forall k :: trivia.Of(k) == Share(toks, stmts, |toks|, k)
  {
    hide Share, Owns, InOrder, Innermost, Outermost, IsTrailing;
    trivia := new Table();
    var pending: seq<Attachment> := [];
    var prev: Option<nat> := None;
    ghost var m := 0;
    AtFirst(toks, stmts);
    for i := 0 to |toks|
      invariant fresh(trivia) && m <= |toks|
      invariant prev == LineBefore(toks, i)
      invariant Waiting(toks, m, i) && pending == Buffered(toks, m, i)
      invariant trivia.Holds(toks, stmts, m)
    {
      var tk := toks[i];
      match tk.kind
      case Remark =>
        TrailingIs(toks, i);
        if prev == Some(tk.line) {
          var owner := InnermostStmtEndingOnLine(stmts, tk.line);
          NoTrailing(toks, m, i);
          trivia.Append(owner, [Attached(tk.line, tk.text, Trailing)]);
          forall k
            ensures trivia.Of(k) == Share(toks, stmts, i + 1, k)
          {
            NoShare(toks, stmts, m, i, k);
            LastShare(toks, stmts, i, owner, k);
          }
          m := i + 1;
          pending := [];
        } else {
          pending := pending + [Attached(tk.line, tk.text, Leading)];
        }
      case LayoutOnly =>
      case Real =>
        if |pending| > 0 {
          var owner := OutermostStmtStartingOnOrAfterLine(stmts, tk.line);
          trivia.Append(owner, pending);
          forall k
            ensures trivia.Of(k) == Share(toks, stmts, i, k)
          {
            Drained(toks, stmts, m, i, owner, k);
          }
          pending := [];
        } else {
          NothingWaits(toks, m, i);
          forall k
            ensures trivia.Of(k) == Share(toks, stmts, i, k)
          {
            NoShare(toks, stmts, m, i, k);
          }
        }
        forall k
          ensures trivia.Of(k) == Share(toks, stmts, i + 1, k)
        {
          NoShare(toks, stmts, i, i + 1, k);
        }
        m := i + 1;
        prev := Some(tk.line);
    }
    if |pending| > 0 {
      trivia.Append(None, pending);
    }
    forall k
      ensures trivia.Of(k) == Share(toks, stmts, |toks|, k)
    {
      Drained(toks, stmts, m, |toks|, None, k);
    }
  }

  lemma {:induction false} NothingWaits(toks: seq<Token>, m: nat, i: nat)
    requires m <= i <= |toks| && Buffered(toks, m, i) == []
    ensures forall j | m <= j < i :: toks[j].kind != Remark
    decreases i
  {
    if m < i {
      NothingWaits(toks, m, i - 1);
    }
  }

  lemma LastShare(toks: seq<Token>, stmts: seq<Span>, i: nat, owner: Option<nat>, k: Option<nat>)
    requires i < |toks| && toks[i].kind == Remark && IsTrailing(toks, i) && Innermost(stmts, toks[i].line, owner)
    ensures Share(toks, stmts, i + 1, k) ==
            Share(toks, stmts, i, k) + if k == owner then [Attached(toks[i].line, toks[i].text, Trailing)] else []
  {
    hide Innermost, Outermost;
    if Owns(toks, stmts, i, k) {
      OneOwner(toks, stmts, i, k, owner);
    }
  }

  // ----- what the rule gives -----

  function Remarks(toks: seq<Token>, n: nat): seq<Attachment>
    requires n <= |toks|
  {
    if n == 0 then []
    else Remarks(toks, n - 1) + (if toks[n - 1].kind == Remark then [Labelled(toks, n - 1)] else [])
  }

  /** The comments of statements before the k-th, and of the file. */
  ghost function Shares(toks: seq<Token>, stmts: seq<Span>, n: nat, k: nat): multiset<Attachment>
    requires n <= |toks|
  {
    if k == 0 then multiset(Share(toks, stmts, n, None))
    else Shares(toks, stmts, n, k - 1) + multiset(Share(toks, stmts, n, Some(k - 1)))
  }

  /** Every comment has an owner among the statements and the file. */
  lemma HasOwner(toks: seq<Token>, stmts: seq<Span>, i: nat) returns (k: Option<nat>)
    requires i < |toks|
    ensures Owns(toks, stmts, i, k) && (k.Some? ==> k.value < |stmts|)
  {
    k := None;
    if IsTrailing(toks, i) {
      k := LastEnding(stmts, |stmts|, toks[i].line);
    } else if LineAfter(toks, i).Some? {
      k := FirstStarting(stmts, 0, LineAfter(toks, i).value);
    }
  }

  lemma {:induction false} LastEnding(stmts: seq<Span>, n: nat, line: nat) returns (k: Option<nat>)
    requires n <= |stmts| && forall j | n <= j < |stmts| :: stmts[j].end != line
    ensures Innermost(stmts, line, k)
    decreases n
  {
    if n == 0 {
      k := None;
    } else if stmts[n - 1].end == line {
      k := Some(n - 1);
    } else {
      k := LastEnding(stmts, n - 1, line);
    }
  }

  lemma {:induction false} FirstStarting(stmts: seq<Span>, n: nat, line: nat) returns (k: Option<nat>)
    requires n <= |stmts| && forall j | 0 <= j < n :: stmts[j].start < line
    ensures Outermost(stmts, line, k)
    decreases |stmts| - n
  {
    if n == |stmts| {
      k := None;
    } else if stmts[n].start >= line {
      k := Some(n);
    } else {
      k := FirstStarting(stmts, n + 1, line);
    }
  }

  /** Each comment is placed exactly once: the lists together are the comments of the stream. */
  lemma {:induction false} Conservation(toks: seq<Token>, stmts: seq<Span>, n: nat)
    requires n <= |toks|
    ensures Shares(toks, stmts, n, |stmts|) == multiset(Remarks(toks, n))
    decreases n
  {
    hide Owns;
    if n == 0 {
      NoShares(toks, stmts, |stmts|);
    } else {
      Conservation(toks, stmts, n - 1);
      var owner := HasOwner(toks, stmts, n - 1);
      OneMore(toks, stmts, n, |stmts|, owner);
      if toks[n - 1].kind == Remark {
        assert multiset(Remarks(toks, n)) == multiset(Remarks(toks, n - 1)) + multiset{Labelled(toks, n - 1)};
      }
    }
  }

  lemma {:induction false} NoShares(toks: seq<Token>, stmts: seq<Span>, k: nat)
    ensures Shares(toks, stmts, 0, k) == multiset{}
    decreases k
  {
    if k > 0 {
      NoShares(toks, stmts, k - 1);
    }
  }

  /** One x, if c. */
  ghost function One(c: bool, x: Attachment): multiset<Attachment> {
    if c then multiset{x} else multiset{}
  }

  lemma SumStep(a: multiset<Attachment>, s: multiset<Attachment>, t: multiset<Attachment>, a1: multiset<Attachment>,
      s1: multiset<Attachment>, t1: multiset<Attachment>, c: bool, d: bool, x: Attachment)
    requires !(c && d) && a1 == a + One(c, x) && s1 == s + One(d, x) && t == a + s && t1 == a1 + s1
    ensures t1 == t + One(c || d, x)
  {
  }

  lemma {:induction false} OneMore(toks: seq<Token>, stmts: seq<Span>, n: nat, k: nat, owner: Option<nat>)
    requires 0 < n <= |toks| && Owns(toks, stmts, n - 1, owner)
    ensures Shares(toks, stmts, n, k) == Shares(toks, stmts, n - 1, k) +
              One(toks[n - 1].kind == Remark && (owner.Some? ==> owner.value < k), Labelled(toks, n - 1))
    decreases k
  {
    hide Share, Owns, One;
    ShareStep(toks, stmts, n, if k == 0 then None else Some(k - 1), owner);
    if k > 0 {
      OneMore(toks, stmts, n, k - 1, owner);
      var remark := toks[n - 1].kind == Remark;
      var c, d := remark && (owner.Some? ==> owner.value < k - 1), remark && owner == Some(k - 1);
      SumStep(Shares(toks, stmts, n - 1, k - 1), multiset(Share(toks, stmts, n - 1, Some(k - 1))),
        Shares(toks, stmts, n - 1, k),
        Shares(toks, stmts, n, k - 1), multiset(Share(toks, stmts, n, Some(k - 1))), Shares(toks, stmts, n, k),
        c, d, Labelled(toks, n - 1));
      assert (c || d) <==> remark && (owner.Some? ==> owner.value < k);
    }
  }

  lemma ShareStep(toks: seq<Token>, stmts: seq<Span>, n: nat, k: Option<nat>, owner: Option<nat>)
    requires 0 < n <= |toks| && Owns(toks, stmts, n - 1, owner)
    ensures multiset(Share(toks, stmts, n, k)) == multiset(Share(toks, stmts, n - 1, k)) +
              One(toks[n - 1].kind == Remark && k == owner, Labelled(toks, n - 1))
  {
    hide Owns;
    if Owns(toks, stmts, n - 1, k) {
      OneOwner(toks, stmts, n - 1, k, owner);
    }
  }
}
