/** The two layout machines side by side. */
module LayoutAgreement {
  import opened Tokens
  import opened Layout
  import LexIndent
  import StmtScanner

  lemma {:induction false} SameTokens(a: seq<Tok>, b: seq<Tok>)
    requires Stream(a, End) == LexIndent.Marked(Stream(b, End)) && Bad !in b
    ensures a == b + [EndMarker]
    decreases b
  {
    if b == [] {
      assert a[1..] == [];
    } else {
      assert a[0] == b[0];
      SameTokens(a[1..], b[1..]);
      assert a == [a[0]] + a[1..] && b == [b[0]] + b[1..];
    }
  }

  lemma {:induction false} BadCounts(b: seq<Tok>)
    requires Bad in b
    ensures Count(Stream(b, End), Bad) > 0
    decreases b
  {
    if b[0] != Bad {
      BadCounts(b[1..]);
    }
  }

  /** On every space-indented text the lexer of package lex and the v2 scanner reject alike, and
      otherwise hand out the same tokens, those of the line-based specification; the former
      adds its end marker.  Keeping comments adds the comments and nothing else. */
  method Compare(src: Toks) returns (lex: Option<seq<Tok>>, v2: Option<seq<Tok>>, kept: Option<seq<Tok>>)
    requires Physical(src)
    ensures lex.Some? <==> v2.Some?
    ensures v2.Some? <==> Accepted(Emit(Lines(src, 0), [0]))
    ensures v2.Some? ==> lex == Some(v2.value + [EndMarker])
    ensures v2.Some? ==> Stream(v2.value, End) == Emit(Lines(src, 0), [0])
    ensures v2.Some? ==> |v2.value| <= 2 * Len(src) + 1
    ensures kept.Some? <==> v2.Some?
    ensures v2.Some? ==> WithoutComments(kept.value) == lex.value
  {
    hide Start, Emit, Lines, Stream, LexIndent.Marked, Count;
    lex := LexIndent.All(src, false);
    var calls;
    v2, calls := StmtScanner.Run(src);
    kept := LexIndent.All(src, true);
    LogicalIsLineBased(src);
    LogicalLaws(src);
    CommentsOnly(src, 0, 0, [0]);
    UncommentedBad(Start(true, src, 0, [0]));
    if v2.Some? {
      if Bad in v2.value {
        BadCounts(v2.value);
      }
      SameTokens(lex.value, v2.value);
      StreamLen(v2.value);
      KeptStream(kept.value, Start(true, src, 0, [0]));
      StreamInjective(WithoutComments(kept.value), lex.value);
    }
  }

  function WithoutComments(s: seq<Tok>): seq<Tok> {
    if s == [] then []
    else (if s[0].Comment? then [] else [s[0]]) + WithoutComments(s[1..])
  }

  lemma {:induction false} UncommentedBad(t: Toks)
    ensures Count(Uncommented(t), Bad) == Count(t, Bad)
    decreases t
  {
    if t.Cons? {
      UncommentedBad(t.tl);
    }
  }

  lemma {:induction false} StreamLen(s: seq<Tok>)
    ensures Len(Stream(s, End)) == |s|
    decreases s
  {
    if s != [] {
      StreamLen(s[1..]);
    }
  }

  lemma {:induction false} StreamInjective(a: seq<Tok>, b: seq<Tok>)
    requires Stream(a, End) == Stream(b, End)
    ensures a == b
    decreases a
  {
    if a != [] && b != [] {
      StreamInjective(a[1..], b[1..]);
      assert a == [a[0]] + a[1..] && b == [b[0]] + b[1..];
    }
  }

  lemma {:induction false} KeptStream(s: seq<Tok>, t: Toks)
    requires Stream(s, End) == LexIndent.Marked(t) && Accepted(t)
    ensures Stream(WithoutComments(s), End) == LexIndent.Marked(Uncommented(t))
    decreases s
  {
    if t.End? {
      assert s[1..] == [];
      assert WithoutComments(s) == [EndMarker];
    } else {
      KeptStream(s[1..], t.tl);
      assert s[0] == t.hd;
      if s[0].Comment? {
        assert WithoutComments(s) == WithoutComments(s[1..]);
      } else {
        assert WithoutComments(s)[0] == s[0] && WithoutComments(s)[1..] == WithoutComments(s[1..]);
      }
    }
  }
}
