/** Patterns as people write them and the printer does not: sequences in parentheses or without any,
    and commas before a closing bracket (parser/stmt.go). */
module PatternSpellings {
  import opened Tokens
  import opened Ast
  import opened Unparse
  import opened Grammar
  import opened Patterns
  import opened PatternRoundTrip

  /** The end of a list, after a comma or not. */
  function Ending(comma: bool, end: Toks): Toks {
    if comma then Cons(Comma, end) else end
  }

  /** The token after a list of patterns, in brackets or at the end of a case. */
  predicate ListStop(end: Toks) {
    At0(end, RPar) || At0(end, RBrk) || At0(end, RBrc) || At0(end, Colon) || IsKw(end, KwIf)
  }

  /** The text of a list after its first item. */
  lemma MoreText(ps: seq<Pattern>, comma: bool, end: Toks)
    ensures PrintList(ps, false, Ending(comma, end)) ==
            if ps == [] then Ending(comma, end)
            else Cons(Comma, PrintPattern(ps[0], PrintList(ps[1..], false, Ending(comma, end))))
    ensures ListStop(end) ==> !Extends(PrintList(ps, false, Ending(comma, end)))
    ensures ListStop(end) && (ps != [] || comma) ==> At0(PrintList(ps, false, Ending(comma, end)), Comma)
  {
    hide PrintPattern;
  }

  /** An item of a list is read up to the comma or the end after it, and begins with neither. */
  lemma ItemRead(p: Pattern, k: Toks)
    requires WfItem(p) && Faithful(p) && !Extends(k)
    ensures ParseMaybeStar(PrintPattern(p, k)) == Ok(p, k)
    ensures !ListStop(PrintPattern(p, k))
  {
    hide Faithful, ParseMaybeStar, PrintPattern;
    ReadItem(p, k);
    if p.MatchStar? {
      StarText(p, k);
    } else {
      Starts(p, k);
    }
  }

  lemma StarText(p: Pattern, k: Toks)
    requires p.MatchStar?
    ensures At0(PrintPattern(p, k), Star)
  {
  }

  lemma ListParts(ps: seq<Pattern>)
    requires WfItems(ps) && AllFaithful(ps) && ps != []
    ensures WfItem(ps[0]) && Faithful(ps[0]) && WfItems(ps[1..]) && AllFaithful(ps[1..]) && [ps[0]] + ps[1..] == ps
  {
  }

  // ----- one turn of each loop -----

  lemma GroupTurn(t: Toks)
    requires !At0(t, RPar)
    ensures var r := ParseMaybeStar(t);
            GroupTail(Cons(Comma, t)) ==
              if r.Err? then Err
              else var m := GroupTail(r.rest); if m.Err? then Err else Ok([r.v] + m.v, m.rest)
  {
    hide ParseMaybeStar;
  }

  lemma OpenTurn(t: Toks)
    requires !At0(t, Colon) && !IsKw(t, KwIf)
    ensures var r := ParseMaybeStar(t);
            OpenTail(Cons(Comma, t)) ==
              if r.Err? then Err
              else var m := OpenTail(r.rest); if m.Err? then Err else Ok([r.v] + m.v, m.rest)
  {
    hide ParseMaybeStar;
  }

  lemma LoopEnds(comma: bool, k: Toks)
    ensures GroupTail(Ending(comma, Cons(RPar, k))) == Ok([], Cons(RPar, k))
    ensures At0(k, Colon) || IsKw(k, KwIf) ==> OpenTail(Ending(comma, k)) == Ok([], k)
  {
  }

  lemma {:induction false} GroupLoop(ps: seq<Pattern>, comma: bool, k: Toks)
    requires WfItems(ps) && AllFaithful(ps)
    ensures var end := Cons(RPar, k); GroupTail(PrintList(ps, false, Ending(comma, end))) == Ok(ps, end)
    decreases ps
  {
    hide PrintPattern, PrintList, ParseMaybeStar, GroupTail, WfItem, WfItems, Faithful, AllFaithful, Extends;
    var end := Cons(RPar, k);
    MoreText(ps, comma, end);
    if ps == [] {
      LoopEnds(comma, k);
    } else {
      ListParts(ps);
      var more := PrintList(ps[1..], false, Ending(comma, end));
      MoreText(ps[1..], comma, end);
      ItemRead(ps[0], more);
      GroupLoop(ps[1..], comma, k);
      GroupTurn(PrintPattern(ps[0], more));
    }
  }

  lemma {:induction false} OpenLoop(ps: seq<Pattern>, comma: bool, k: Toks)
    requires WfItems(ps) && AllFaithful(ps) && (At0(k, Colon) || IsKw(k, KwIf))
    ensures OpenTail(PrintList(ps, false, Ending(comma, k))) == Ok(ps, k)
    decreases ps
  {
    hide PrintPattern, PrintList, ParseMaybeStar, OpenTail, WfItem, WfItems, Faithful, AllFaithful, Extends;
    MoreText(ps, comma, k);
    if ps == [] {
      LoopEnds(comma, k);
    } else {
      ListParts(ps);
      var more := PrintList(ps[1..], false, Ending(comma, k));
      MoreText(ps[1..], comma, k);
      ItemRead(ps[0], more);
      OpenLoop(ps[1..], comma, k);
      OpenTurn(PrintPattern(ps[0], more));
    }
  }

  // ----- sequences -----

  lemma GroupFirst(t: Toks)
    requires !At0(t, RPar)
    ensures var r := ParseMaybeStar(t);
            && (r.Ok? && At0(r.rest, Comma) ==>
                  var m := GroupTail(r.rest);
                  m.Ok? && At0(m.rest, RPar) ==>
                    ParseClosed(Cons(LPar, t)) == Ok(MatchSequence([r.v] + m.v), Rest(m.rest)))
            && (r.Ok? && At0(r.rest, RPar) ==>
                  ParseClosed(Cons(LPar, t)) ==
                    Ok(if r.v.MatchStar? then MatchSequence([r.v]) else r.v, Rest(r.rest)))
  {
    hide ParseMaybeStar, GroupTail;
    assert ParseClosed(Cons(LPar, t)) == ParseGroup(t);
  }

  /** A sequence in parentheses is the sequence in brackets: two items or more, with a comma at the end
      or not, or one item that is starred or has a comma after it. */
  lemma ParenSequence(ps: seq<Pattern>, comma: bool, k: Toks)
    requires WfItems(ps) && AllFaithful(ps)
    requires |ps| >= 2 || (|ps| == 1 && (comma || ps[0].MatchStar?))
    ensures var end := Cons(RPar, k);
            && ParseClosed(Cons(LPar, PrintList(ps, true, Ending(comma, end)))) == Ok(MatchSequence(ps), k)
            && ParseClosed(PrintPattern(MatchSequence(ps), k)) == Ok(MatchSequence(ps), k)
  {
    hide PrintPattern, PrintList, ParseMaybeStar, GroupTail, ParseClosed, WfItem, WfItems, Faithful, AllFaithful,
      Extends;
    var end := Cons(RPar, k);
    var more := PrintList(ps[1..], false, Ending(comma, end));
    ListParts(ps);
    ListPrinted(ps, Ending(comma, end));
    MoreText(ps[1..], comma, end);
    ItemRead(ps[0], more);
    GroupLoop(ps[1..], comma, k);
    GroupFirst(PrintPattern(ps[0], more));
    ReadSequence(ps, k);
    SequenceFaithful(ps);
    assert ps[1..] == [] ==> ps == [ps[0]];
  }

  lemma SequenceFaithful(ps: seq<Pattern>)
    ensures Faithful(MatchSequence(ps)) == AllFaithful(ps)
  {
    hide AllFaithful;
  }

  /** One pattern in parentheses without a comma is that pattern, and nothing is the empty sequence. */
  lemma ParenOne(p: Pattern, k: Toks)
    requires WfPattern(p) && Faithful(p)
    ensures ParseClosed(Cons(LPar, PrintPattern(p, Cons(RPar, k)))) == Ok(p, k)
    ensures ParseClosed(Cons(LPar, Cons(RPar, k))) == Ok(MatchSequence([]), k)
  {
    hide PrintPattern, ParseAs, Faithful;
    ReadWrapped(p, k);
  }

  /** A case without brackets: two items or more, or one with a comma after it, are the sequence of them. */
  lemma OpenSequence(ps: seq<Pattern>, comma: bool, k: Toks)
    requires WfItems(ps) && AllFaithful(ps) && (|ps| >= 2 || (|ps| == 1 && comma))
    requires At0(k, Colon) || IsKw(k, KwIf)
    ensures ParsePatterns(PrintList(ps, true, Ending(comma, k))) == Ok(MatchSequence(ps), k)
    ensures ParsePatterns(PrintPattern(MatchSequence(ps), k)) == Ok(MatchSequence(ps), k)
  {
    hide PrintPattern, PrintList, ParseMaybeStar, OpenTail, WfItem, WfItems, Faithful, AllFaithful, Extends;
    var more := PrintList(ps[1..], false, Ending(comma, k));
    ListParts(ps);
    ListPrinted(ps, Ending(comma, k));
    MoreText(ps[1..], comma, k);
    ItemRead(ps[0], more);
    OpenLoop(ps[1..], comma, k);
    SequenceFaithful(ps);
    SequenceCase(ps, k);
  }

  lemma SequenceCase(ps: seq<Pattern>, k: Toks)
    requires WfItems(ps) && AllFaithful(ps) && (At0(k, Colon) || IsKw(k, KwIf))
    ensures ParsePatterns(PrintPattern(MatchSequence(ps), k)) == Ok(MatchSequence(ps), k)
  {
    hide PrintPattern, Faithful, WfItems, AllFaithful, ParsePatterns;
    SequenceFaithful(ps);
    PatternRoundTripExactly(MatchSequence(ps), k);
  }

  // ----- commas before a closing bracket -----

  lemma BracketEnds(k: Toks)
    ensures BracketItems(Cons(RBrk, k)) == Ok([], Cons(RBrk, k))
  {
  }

  lemma {:induction false} BracketComma(ps: seq<Pattern>, k: Toks)
    requires WfItems(ps) && AllFaithful(ps) && ps != []
    ensures var end := Cons(RBrk, k); BracketItems(PrintList(ps, true, Cons(Comma, end))) == Ok(ps, end)
    decreases ps
  {
    hide PrintPattern, PrintList, ParseMaybeStar, BracketItems, WfItem, WfItems, Faithful, AllFaithful, Extends;
    var end := Cons(RBrk, k);
    assert Ending(true, end) == Cons(Comma, end);
    var more := PrintList(ps[1..], false, Cons(Comma, end));
    ListParts(ps);
    ListPrinted(ps, Cons(Comma, end));
    MoreText(ps[1..], true, end);
    ItemRead(ps[0], more);
    ItemsStep(PrintPattern(ps[0], more));
    if ps[1..] == [] {
      BracketEnds(k);
    } else {
      ListRest(ps[1..], Cons(Comma, end));
      BracketComma(ps[1..], k);
    }
  }

  /** A comma before the closing bracket of a sequence changes nothing. */
  lemma BracketSequence(ps: seq<Pattern>, k: Toks)
    requires WfItems(ps) && AllFaithful(ps) && ps != []
    ensures ParseClosed(Cons(LBrk, PrintList(ps, true, Cons(Comma, Cons(RBrk, k))))) == Ok(MatchSequence(ps), k)
  {
    hide PrintList, BracketItems, WfItems, AllFaithful;
    BracketComma(ps, k);
  }

  /** The end of a mapping with a comma before its brace. */
  lemma MappingEnds(rest: Option<string>, k: Toks)
    requires RestFits(rest)
    ensures rest.Some? ==>
      MappingItems(PrintRest(rest, true, Cons(Comma, Cons(RBrc, k)))) == Ok(MapItems([], rest), Cons(RBrc, k))
    ensures MappingItems(Cons(RBrc, k)) == Ok(MapItems([], None), Cons(RBrc, k))
  {
    hide ParseAs, ParseKey;
  }

  lemma EntryParts(es: seq<Entry>)
    requires WfEntries(es) && EntriesFaithful(es) && es != []
    ensures WfEntry(es[0]) && EntryFaithful(es[0]) && WfEntries(es[1..]) && EntriesFaithful(es[1..])
    ensures IsKey(es[0].key) && [es[0]] + es[1..] == es && Entry(es[0].key, es[0].pattern) == es[0]
  {
  }

  /** A comma before the closing brace of a mapping changes nothing, after `**rest` too. */
  lemma {:induction false} MappingComma(es: seq<Entry>, rest: Option<string>, k: Toks)
    requires WfEntries(es) && EntriesFaithful(es) && RestFits(rest) && (es != [] || rest.Some?)
    ensures var end := Cons(RBrc, k);
            MappingItems(PrintEntries(es, true, PrintRest(rest, es == [], Cons(Comma, end)))) ==
            Ok(MapItems(es, rest), end)
    decreases es
  {
    hide Print, PrintPattern, ParseKey, ParseAs, EntryFaithful, EntriesFaithful, WfEntry, WfEntries, PrintEntries,
      PrintRest, MappingItems, RestFits, IsKey, Extends;
    var end := Cons(Comma, Cons(RBrc, k));
    MappingEnds(rest, k);
    if es == [] {
      EntriesPrinted([], PrintRest(rest, true, end));
    } else {
      var e, later := es[0], es[1..];
      var more := PrintRest(rest, false, end);
      var k' := PrintEntries(later, false, more);
      var u := PrintPattern(e.pattern, k');
      EntryParts(es);
      EntriesRest(later, rest, end);
      EntriesPrinted(es, more);
      KeyBack(e.key, Cons(Colon, u));
      CommaNext(k');
      ReadEntryPattern(e, k');
      EntryStep(e.key, Print(e.key, P_TEST, Cons(Colon, u)), u);
      if later != [] || rest != None {
        MappingComma(later, rest, k);
      }
    }
  }

  lemma CommaNext(k: Toks)
    ensures At0(k, Comma) ==> !Extends(k) && !At0(k, Assign)
  {
  }

  lemma ArgumentsEnd(seenKw: bool, k: Toks)
    ensures ClassItems(seenKw, Cons(RPar, k)) == Ok(ClassArgs([], []), Cons(RPar, k))
  {
  }

  lemma KwParts(kws: seq<KwPattern>)
    requires WfKwPatterns(kws) && KwsFaithful(kws) && kws != []
    ensures WfKwPattern(kws[0]) && KwFaithful(kws[0]) && WfKwPatterns(kws[1..]) && KwsFaithful(kws[1..])
    ensures [kws[0]] + kws[1..] == kws && KwPattern(kws[0].attr, kws[0].pattern) == kws[0]
  {
  }

  lemma {:induction false} KeywordsComma(seenKw: bool, kws: seq<KwPattern>, k: Toks)
    requires WfKwPatterns(kws) && KwsFaithful(kws) && kws != []
    ensures var end := Cons(RPar, k);
            ClassItems(seenKw, PrintKwPatterns(kws, true, Cons(Comma, end))) == Ok(ClassArgs([], kws), end)
    decreases kws
  {
    hide PrintPattern, PrintKwPatterns, ParseAs, KwFaithful, KwsFaithful, WfKwPattern, WfKwPatterns, ClassItems,
      ClassNext, Extends;
    var end := Cons(Comma, Cons(RPar, k));
    var kw, later := kws[0], kws[1..];
    var more := PrintKwPatterns(later, false, end);
    KwParts(kws);
    KwRest(later, end);
    KwPrinted(kws, end);
    CommaNext(more);
    ReadKwPattern(kw, more);
    KwStep(seenKw, kw.attr, PrintPattern(kw.pattern, more));
    NextStep(true, ClassArgs([], [kw]), more);
    NoneBefore(ClassArgs([], kws));
    if later == [] {
      ArgumentsEnd(true, k);
      assert [kw] + [] == kws;
    } else {
      KeywordsComma(true, later, k);
    }
  }

  lemma PatternParts(ps: seq<Pattern>)
    requires WfPatterns(ps) && AllFaithful(ps) && ps != []
    ensures WfPattern(ps[0]) && Faithful(ps[0]) && WfPatterns(ps[1..]) && AllFaithful(ps[1..])
    ensures [ps[0]] + ps[1..] == ps
  {
  }

  /** A positional argument before a comma, given how what follows is read. */
  lemma PositionalTurn(p: Pattern, t: Toks, more: Toks, a: ClassArgs, end: Toks)
    requires !At0(t, RPar) && !(AtPlainName(t) && At0(Rest(t), Assign)) && ParseAs(t) == Ok(p, more)
    requires At0(more, Comma) && ClassItems(false, Rest(more)) == Ok(a, end)
    ensures ClassItems(false, t) == Ok(ClassArgs([p] + a.positional, a.keywords), end)
  {
    hide ParseAs, ClassItems, ClassNext;
    PositionalStep(t);
    NextStep(false, ClassArgs([p], []), more);
    NoneBefore(a);
  }

  /** A comma before the closing parenthesis of a class pattern changes nothing. */
  lemma {:induction false} ClassComma(ps: seq<Pattern>, kws: seq<KwPattern>, k: Toks)
    requires WfPatterns(ps) && AllFaithful(ps) && WfKwPatterns(kws) && KwsFaithful(kws) && (ps != [] || kws != [])
    ensures var end := Cons(RPar, k);
            ClassItems(false, PrintList(ps, true, PrintKwPatterns(kws, ps == [], Cons(Comma, end)))) ==
            Ok(ClassArgs(ps, kws), end)
    decreases ps
  {
    hide PrintPattern, PrintList, PrintKwPatterns, ParseAs, Faithful, AllFaithful, WfPattern, WfPatterns, ClassItems,
      ClassNext, KwsFaithful, WfKwPatterns, Extends;
    var end := Cons(Comma, Cons(RPar, k));
    if ps == [] {
      ListPrinted(ps, PrintKwPatterns(kws, true, end));
      KeywordsComma(false, kws, k);
    } else {
      var p, later := ps[0], ps[1..];
      var words := PrintKwPatterns(kws, false, end);
      var more := PrintList(later, false, words);
      PatternParts(ps);
      ListPrinted(ps, words);
      ListRest(later, words);
      KwRest(kws, end);
      CommaNext(more);
      Starts(p, more);
      ReadAs(p, more);
      if later == [] && kws == [] {
        ArgumentsEnd(false, k);
      } else {
        ListPrinted(later, PrintKwPatterns(kws, later == [], end));
        ClassComma(later, kws, k);
      }
      PositionalTurn(p, PrintPattern(p, more), more, ClassArgs(later, kws), Cons(RPar, k));
    }
  }

  // ----- what is refused -----

  /** A star alone at the head of a case. */
  lemma StarAlone(n: Option<string>, k: Toks)
    requires !At0(k, Comma)
    ensures ParsePatterns(PrintPattern(MatchStar(n), k)).Err?
  {
  }

  /** `p as _`, and `as` without a name. */
  lemma WildcardAs(p: Pattern, k: Toks)
    requires WfPattern(p) && Faithful(p) && !(p.MatchAs? && p.pattern.Some?)
    ensures ParseAs(PrintPattern(p, Cons(Nm(KwAs), Cons(Nm(Ident(WILDCARD)), k)))).Err?
  {
    hide PrintPattern, ParseAlternatives, Faithful, WfPattern;
    var k' := Cons(Nm(KwAs), Cons(Nm(Ident(WILDCARD)), k));
    ReadOr(p, k');
  }

  /** A positional argument of a class after one with a keyword. */
  lemma PositionalLate(p: Pattern, k: Toks)
    requires WfPattern(p) && !At0(k, Assign)
    ensures ClassItems(true, PrintPattern(p, k)).Err?
  {
    hide PrintPattern, ParseAs;
    Starts(p, k);
  }

  /** A word of the language is no capture. */
  lemma NoCapture(w: Word, k: Toks)
    requires !w.Ident? && w != KwNone && w != KwTrue && w != KwFalse && !At0(k, Dot) && !At0(k, LPar)
    ensures ParseClosed(Cons(Nm(w), k)).Err?
  {
  }
}
