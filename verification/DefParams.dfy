/** Parameter lists of definitions: what the printer writes, the parser reads back.

    Defaults are aligned to the right across positional-only and ordinary parameters, a bare `*`
    or `*args` starts the keyword-only ones, each of which keeps its own default. */
module DefParams {
  import opened Tokens
  import opened Ast
  import opened Unparse
  import opened Grammar
  import opened Reading
  import opened Descent
  import opened RoundTrip
  import opened StmtGrammar
  import opened StmtReading

  /** What the parameter loop collects from positional parameter i on, given what it has. */
  function Collect(a: Arguments, i: nat, acc: Arguments): Option<Arguments>
    requires i <= PosCount(a)
    decreases PosCount(a) - i
  {
    if i == PosCount(a) then
      var v :- ReParamOpt(a.vararg);
      CollectKw(a, 0, acc.(vararg := v))
    else
      var p :- ReParam(Positional(a, i));
      var d :- ReOpt(PosDefault(a, i));
      Collect(a, i + 1, Slashed(i + 1 == |a.posonly|, AddParam(acc, false, p, d)))
  }

  /** The positional-only marker, when it is due. */
  function Slashed(due: bool, acc: Arguments): Arguments {
    if due then acc.(posonly := acc.posonly + acc.args, args := []) else acc
  }

  function CollectKw(a: Arguments, i: nat, acc: Arguments): Option<Arguments>
    requires i <= |a.kwonly|
    decreases |a.kwonly| - i
  {
    if i == |a.kwonly| then
      var v :- ReParamOpt(a.kwarg);
      Some(acc.(kwarg := v))
    else
      var p :- ReParam(a.kwonly[i]);
      var d :- ReOpt(KwDefault(a, i));
      CollectKw(a, i + 1, AddParam(acc, true, p, d))
  }

  /** A parameter ends at a comma or at the closing parenthesis. */
  predicate ParamStop(k: Toks) {
    At0(k, Comma) || At0(k, RPar)
  }

  /** What begins a parameter is neither a comma nor the closing parenthesis. */
  predicate Open(t: Toks) {
    t.Cons? && t.hd != RPar && t.hd != Comma
  }

  /** The end of a parameter list: the closing parenthesis, after a comma or not. */
  predicate ListEnd(k: Toks) {
    At0(k, RPar) || (At0(k, Comma) && At0(Rest(k), RPar))
  }

  function Closing(k: Toks): Toks {
    if At0(k, Comma) then Rest(k) else k
  }

  lemma NextMore(acc: Arguments, st: ParamState, t: Toks)
    requires Open(t)
    ensures ParamNext(acc, st, Cons(Comma, t)) == ParamLoop(acc, st, t)
  {
    hide ParamLoop;
  }

  lemma NextEnd(acc: Arguments, st: ParamState, t: Toks)
    requires ListEnd(t)
    ensures ParamNext(acc, st, t) == Ok(acc, Closing(t))
  {
  }

  // ----- one parameter -----

  lemma {:induction false} ReadOneParam(v: Param, k: Toks)
    requires WfParam(v) && (ParamStop(k) || At0(k, Assign))
    ensures ParseParam(PrintParam(v, k)) == Of(ReParam(v), k)
    ensures At0(PrintParam(v, k), Nm(Ident(v.name)))
  {
    hide Print, Reparse, ParseStarOrExpr;
    if v.ann.Some? {
      ReadElt(v.ann.value, k);
      ReOptSome(v.ann.value);
    } else {
      ReOptNone();
    }
  }

  lemma {:induction false} ReadDefault(d: Option<Expr>, k: Toks)
    requires WfOpt(d) && ParamStop(k)
    ensures ParseDefault(PrintDefault(d, k)) == Of(ReOpt(d), k)
    ensures ParamStop(PrintDefault(d, k)) || At0(PrintDefault(d, k), Assign)
  {
    hide Print, Reparse, ParseExpr;
    if d.Some? {
      ReadExpr(d.value, 1, k);
      ReOptSome(d.value);
    } else {
      ReOptNone();
    }
  }

  /** A name, its annotation and its default. */
  lemma {:induction false} ReadParam(acc: Arguments, st: ParamState, v: Param, d: Option<Expr>, k: Toks)
    requires WfParam(v) && WfOpt(d) && ParamStop(k)
    ensures var t := PrintParam(v, PrintDefault(d, k));
            Open(t) &&
            ParamLoop(acc, st, t) ==
              if ReParam(v).None? || ReOpt(d).None? then Err
              else ParamNext(AddParam(acc, st == AfterStar, ReParam(v).value, ReOpt(d).value), st, k)
  {
    hide PrintParam, PrintDefault, ReParam, ReOpt, ParseParam, ParseDefault, AddParam, ParamNext, WfOpt, WfParam;
    ReadDefault(d, k);
    ReadOneParam(v, PrintDefault(d, k));
  }

  lemma {:induction false} ReadVararg(acc: Arguments, v: Param, k: Toks)
    requires WfParam(v) && ParamStop(k)
    ensures ParamLoop(acc, Normal, Cons(Star, PrintParam(v, k))) ==
      match ReParam(v) case None => Err case Some(v') => ParamNext(acc.(vararg := Some(v')), AfterStar, k)
  {
    hide PrintParam, ReParam, ParseParam, ParamNext, WfParam;
    ReadOneParam(v, k);
  }

  lemma {:induction false} ReadKwarg(acc: Arguments, st: ParamState, v: Param, k: Toks)
    requires WfParam(v) && ListEnd(k)
    ensures ParamLoop(acc, st, Cons(DStar, PrintParam(v, k))) ==
      match ReParam(v) case None => Err case Some(v') => Ok(acc.(kwarg := Some(v')), Closing(k))
  {
    hide PrintParam, ReParam, ParseParam, WfParam, AddParam, ParseDefault, ParamNext, ListEnd;
    EndStops(k);
    ReadOneParam(v, k);
    if ReParam(v).Some? {
      NextEnd(acc.(kwarg := ReParam(v)), Done, k);
    }
  }

  lemma EndStops(k: Toks)
    requires ListEnd(k)
    ensures ParamStop(k)
  {
  }

  lemma BareStar(acc: Arguments, t: Toks)
    requires At0(t, Comma)
    ensures ParamLoop(acc, Normal, Cons(Star, t)) == ParamNext(acc, AfterStar, t)
  {
    hide ParamNext;
  }

  lemma ReadSlash(acc: Arguments, k: Toks)
    ensures ParamNext(acc, Normal, Cons(Comma, Cons(Slash, k))) == ParamNext(Slashed(true, acc), Normal, k)
  {
    hide ParamNext;
    assert ParamLoop(acc, Normal, Cons(Slash, k)) == ParamNext(Slashed(true, acc), Normal, k);
    NextMore(acc, Normal, Cons(Slash, k));
  }

  // ----- the keyword-only part -----

  lemma WfParamAt(ps: seq<Param>, i: nat)
    requires WfParamList(ps) && i < |ps|
    ensures WfParam(ps[i])
    decreases ps
  {
    if i > 0 {
      WfParamAt(ps[1..], i - 1);
    }
  }

  lemma KwHead(a: Arguments, i: nat, k: Toks)
    requires i <= |a.kwonly| && ListEnd(k)
    ensures ParamStop(PrintKwOnly(a, i, false, k))
    ensures i < |a.kwonly| ==> At0(PrintKwOnly(a, i, false, k), Comma)
  {
    hide Print, PrintParam;
  }

  lemma PrintKwEnd(a: Arguments, first: bool, k: Toks)
    ensures PrintKwOnly(a, |a.kwonly|, first, k) ==
      match a.kwarg case None => k case Some(v) => Sep(first, Cons(DStar, PrintParam(v, k)))
  {
    hide PrintParam;
  }

  /** From keyword-only parameter i on, each after a comma. */
  lemma {:induction false} ReadKeywordOnly(a: Arguments, i: nat, acc: Arguments, st: ParamState, k: Toks)
    requires WfParams(a) && i <= |a.kwonly| && ListEnd(k)
    requires i < |a.kwonly| ==> st == AfterStar
    requires acc.kwarg.None?
    ensures ParamNext(acc, st, PrintKwOnly(a, i, false, k)) == Of(CollectKw(a, i, acc), Closing(k))
    decreases |a.kwonly| - i
  {
    hide PrintParam, PrintDefault, ReParam, ReOpt, ParamLoop, ParamNext, AddParam, PrintKwOnly, WfParam, WfOpt;
    if i == |a.kwonly| {
      PrintKwEnd(a, false, k);
      if a.kwarg.Some? {
        NextMore(acc, st, Cons(DStar, PrintParam(a.kwarg.value, k)));
        ReadKwarg(acc, st, a.kwarg.value, k);
      } else {
        NextEnd(acc, st, k);
      }
    } else {
      var rest := PrintKwOnly(a, i + 1, false, k);
      var v, d := a.kwonly[i], KwDefault(a, i);
      PrintKwStep(a, i, false, k);
      WfOptsAt(a.kwdefaults, i);
      WfParamAt(a.kwonly, i);
      KwHead(a, i + 1, k);
      ReadParam(acc, st, v, d, rest);
      NextMore(acc, st, PrintParam(v, PrintDefault(d, rest)));
      if ReParam(v).Some? && ReOpt(d).Some? {
        AddKeeps(acc, true, ReParam(v).value, ReOpt(d).value);
        ReadKeywordOnly(a, i + 1, AddParam(acc, true, ReParam(v).value, ReOpt(d).value), st, k);
      }
    }
  }

  /** After the positional parameters; `first` when there are none. */
  lemma {:induction false} ReadStarPart(a: Arguments, acc: Arguments, first: bool, k: Toks)
    requires WfParams(a) && ListEnd(k)
    requires acc.kwarg.None? && acc.vararg.None?
    ensures var r := match ReParamOpt(a.vararg)
                     case None => Err
                     case Some(v) => Of(CollectKw(a, 0, acc.(vararg := v)), Closing(k));
            var t := PrintStar(a, first, k);
            if !first then ParamNext(acc, Normal, t) == r
            else if t == k then r == Ok(acc, Closing(k))
            else Open(t) && ParamLoop(acc, Normal, t) == r
    ensures !first ==> ParamStop(PrintStar(a, first, k))
    ensures first && PrintStar(a, first, k) == k ==> a.vararg.None? && a.kwonly == [] && a.kwarg.None?
  {
    hide PrintParam, PrintKwOnly, ReParam, ParamLoop, ParamNext, CollectKw, WfParam;
    var rest := PrintKwOnly(a, 0, false, k);
    KwHead(a, 0, k);
    if a.vararg.Some? {
      var v := a.vararg.value;
      ReadVararg(acc, v, rest);
      NextMore(acc, Normal, Cons(Star, PrintParam(v, rest)));
      if ReParam(v).Some? {
        ReadKeywordOnly(a, 0, acc.(vararg := Some(ReParam(v).value)), AfterStar, k);
      }
    } else {
      assert acc.(vararg := None) == acc;
      if a.kwonly != [] {
        ReadKeywordOnly(a, 0, acc, AfterStar, k);
        BareStar(acc, rest);
        NextMore(acc, Normal, Cons(Star, rest));
      } else {
        ReadKeywordOnly(a, 0, acc, Normal, k);
        NoStar(a, acc, k);
      }
    }
  }

  /** No keyword-only parameters and no `*`. */
  lemma NoStar(a: Arguments, acc: Arguments, k: Toks)
    requires a.kwonly == [] && ListEnd(k)
    ensures var t := PrintKwOnly(a, 0, true, k);
            if a.kwarg.None? then t == k && PrintKwOnly(a, 0, false, k) == k
              && ParamNext(acc, Normal, k) == Ok(acc, Closing(k))
            else Open(t) && t != k && ParamLoop(acc, Normal, t) == ParamNext(acc, Normal, PrintKwOnly(a, 0, false, k))
  {
    hide PrintParam, ParamLoop, ParamNext;
    PrintKwEnd(a, true, k);
    PrintKwEnd(a, false, k);
    if a.kwarg.Some? {
      NextMore(acc, Normal, Cons(DStar, PrintParam(a.kwarg.value, k)));
    } else {
      NextEnd(acc, Normal, k);
    }
  }

  // ----- the positional part -----

  lemma WfPositional(a: Arguments, i: nat)
    requires WfParams(a) && i < PosCount(a)
    ensures WfParam(Positional(a, i)) && WfOpt(PosDefault(a, i))
  {
    hide WfParam, WfOpt;
    if i < |a.posonly| {
      WfParamAt(a.posonly, i);
    } else {
      WfParamAt(a.args, i - |a.posonly|);
    }
    var j := i - (PosCount(a) - |a.defaults|);
    if j >= 0 {
      WfAllAt(a.defaults, j);
    }
    WfOptOf(PosDefault(a, i));
  }

  lemma WfOptOf(o: Option<Expr>)
    ensures WfOpt(o) == (o.Some? ==> Wf(o.value))
  {
    hide Wf;
  }

  lemma AddKeepsState(acc: Arguments, p: Param, d: Option<Expr>, due: bool)
    ensures var r := Slashed(due, AddParam(acc, false, p, d));
            r.kwarg == acc.kwarg && r.vararg == acc.vararg
  {
  }

  lemma {:induction false} ReadPositions(a: Arguments, i: nat, acc: Arguments, k: Toks)
    requires WfParams(a) && i <= PosCount(a) && ListEnd(k)
    requires acc.kwarg.None? && acc.vararg.None?
    ensures var t := PrintPositional(a, i, k);
            var r := Of(Collect(a, i, acc), Closing(k));
            if i > 0 then ParamNext(acc, Normal, t) == r
            else if t == k then r == Ok(acc, Closing(k))
            else Open(t) && ParamLoop(acc, Normal, t) == r
    ensures i > 0 ==> ParamStop(PrintPositional(a, i, k))
    ensures i == 0 && PrintPositional(a, i, k) == k ==> !HasParams(a)
    decreases PosCount(a) - i
  {
    hide PrintParam, PrintDefault, PrintPositional, PrintStar, ParamLoop, ParamNext, AddParam, ReParam, ReOpt,
      CollectKw, PosDefault, Positional, WfParam, WfOpt, WfParams, Slashed;
    if i == PosCount(a) {
      PrintPosEnd(a, i, k);
      ReadStarPart(a, acc, i == 0, k);
    } else {
      var due := i + 1 == |a.posonly|;
      var rest := PrintPositional(a, i + 1, k);
      var v, d := Positional(a, i), PosDefault(a, i);
      var rest' := SlashIf(due, rest);
      PrintPosStep(a, i, k);
      WfPositional(a, i);
      if ReParam(v).Some? && ReOpt(d).Some? {
        var acc1 := AddParam(acc, false, ReParam(v).value, ReOpt(d).value);
        AddKeepsState(acc, ReParam(v).value, ReOpt(d).value, due);
        ReadPositions(a, i + 1, Slashed(due, acc1), k);
        ReadSlash(acc1, rest);
        NotSlashed(acc1);
      } else {
        ReadPositions(a, i + 1, acc, k);
      }
      ReadParam(acc, Normal, v, d, rest');
      NextMore(acc, Normal, PrintParam(v, PrintDefault(d, rest')));
      NotEnd(PrintParam(v, PrintDefault(d, rest')), k);
    }
  }

  lemma NotSlashed(acc: Arguments)
    ensures Slashed(false, acc) == acc
  {
  }

  lemma NotEnd(t: Toks, k: Toks)
    requires Open(t) && ListEnd(k)
    ensures t != k
  {
  }

  // ----- what the loop collects is the list re-read part by part -----

  lemma ParamListCons(ps: seq<Param>)
    ensures ps == [] ==> ReParamList(ps) == Some([])
    ensures ps != [] ==>
      (ReParamList(ps) ==
       if ReParam(ps[0]).None? || ReParamList(ps[1..]).None? then None
       else Some([ReParam(ps[0]).value] + ReParamList(ps[1..]).value))
  {
    hide ReParam;
  }

  lemma CollectKwAll(a: Arguments, i: nat, acc: Arguments)
    requires i <= |a.kwonly| && |a.kwdefaults| == |a.kwonly|
    ensures var ps, ds, kw := ReParamList(a.kwonly[i..]), ReOpts(a.kwdefaults[i..]), ReParamOpt(a.kwarg);
            CollectKw(a, i, acc) ==
              if ps.None? || ds.None? || kw.None? then None
              else Some(acc.(kwonly := acc.kwonly + ps.value, kwdefaults := acc.kwdefaults + ds.value,
                kwarg := kw.value))
    decreases |a.kwonly| - i
  {
    hide ReOpt, ReOpts, ReParam, ReParamList, ReParamOpt;
    ReOptsCons(a.kwdefaults[i..]);
    ParamListCons(a.kwonly[i..]);
    if i == |a.kwonly| {
      assert acc.kwonly + [] == acc.kwonly && acc.kwdefaults + [] == acc.kwdefaults;
    } else {
      assert a.kwdefaults[i..][1..] == a.kwdefaults[i + 1..];
      assert a.kwonly[i..][1..] == a.kwonly[i + 1..];
      var p, d := ReParam(a.kwonly[i]), ReOpt(a.kwdefaults[i]);
      if p.Some? && d.Some? {
        var acc1 := AddParam(acc, true, p.value, d.value);
        CollectKwAll(a, i + 1, acc1);
        var ps, ds := ReParamList(a.kwonly[i + 1..]), ReOpts(a.kwdefaults[i + 1..]);
        if ps.Some? && ds.Some? {
          assert acc1.kwonly + ps.value == acc.kwonly + ([p.value] + ps.value);
          assert acc1.kwdefaults + ds.value == acc.kwdefaults + ([d.value] + ds.value);
        }
      }
    }
  }

  /** The parameters collected before number i, given all of them re-read. */
  function Before(a: Arguments, i: nat, r: Arguments): Arguments
    requires i <= PosCount(a) && |r.posonly| == |a.posonly| && |r.args| == |a.args|
    requires |r.defaults| == |a.defaults| <= PosCount(a)
  {
    var n0 := |a.posonly|;
    var acc := NO_ARGS.(defaults := r.defaults[..Used(a, i)]);
    if i < n0 || n0 == 0 then acc.(args := (r.posonly + r.args)[..i])
    else acc.(posonly := r.posonly, args := r.args[..i - n0])
  }

  lemma ParamListAt(ps: seq<Param>, i: nat)
    requires ReParamList(ps).Some?
    ensures |ReParamList(ps).value| == |ps|
    ensures i < |ps| ==> ReParam(ps[i]) == Some(ReParamList(ps).value[i])
    decreases ps
  {
    hide ReParam;
    if ps != [] {
      ParamListAt(ps[1..], if i > 0 then i - 1 else 0);
    }
  }

  lemma ReAllAt(es: seq<Expr>, i: nat)
    requires ReAll(es).Some?
    ensures |ReAll(es).value| == |es|
    ensures i < |es| ==> Reparse(es[i]) == Some(ReAll(es).value[i])
    decreases es
  {
    hide Reparse;
    if es != [] {
      ReAllAt(es[1..], if i > 0 then i - 1 else 0);
    }
  }

  /** One more positional parameter. */
  lemma BeforeStep(a: Arguments, i: nat, r: Arguments, p: Param, d: Option<Expr>)
    requires i < PosCount(a) && |r.posonly| == |a.posonly| && |r.args| == |a.args|
    requires |r.defaults| == |a.defaults| <= PosCount(a)
    requires p == Positional(r, i) && d == PosDefault(r, i)
    ensures Slashed(i + 1 == |a.posonly|, AddParam(Before(a, i, r), false, p, d)) == Before(a, i + 1, r)
  {
    var n0 := |a.posonly|;
    var ps := r.posonly + r.args;
    assert ps[i] == p;
    assert ps[..i] + [p] == ps[..i + 1];
    if i >= n0 {
      assert r.args[..i - n0] + [p] == r.args[..i + 1 - n0];
      assert ps[..i + 1 - n0] == r.args[..i + 1 - n0] || n0 > 0;
    } else if i + 1 == n0 {
      assert [] + ps[..n0] == r.posonly;
      assert r.args[..0] == [];
    }
    if d.Some? {
      assert r.defaults[..Used(a, i)] + [d.value] == r.defaults[..Used(a, i + 1)];
    } else {
      assert Used(a, i) == Used(a, i + 1);
      assert r.defaults[..Used(a, i)] + [] == r.defaults[..Used(a, i)];
    }
  }

  /** All positional parameters can be re-read, and give r. */
  predicate Reads(a: Arguments, r: Arguments) {
    && ReParamList(a.posonly) == Some(r.posonly) && ReParamList(a.args) == Some(r.args)
    && ReAll(a.defaults) == Some(r.defaults)
  }

  lemma ReadsAt(a: Arguments, r: Arguments, i: nat)
    requires Reads(a, r) && |a.defaults| <= PosCount(a)
    ensures |r.posonly| == |a.posonly| && |r.args| == |a.args| && |r.defaults| == |a.defaults|
    ensures i < PosCount(a) ==> ReParam(Positional(a, i)) == Some(Positional(r, i))
    ensures i < PosCount(a) ==> ReOpt(PosDefault(a, i)) == Some(PosDefault(r, i))
  {
    hide Reparse, ReParam, ReAll, ReParamList, ReOpt;
    var n0 := |a.posonly|;
    ParamListAt(a.posonly, i);
    ParamListAt(a.args, if i >= n0 then i - n0 else 0);
    var j := i - (PosCount(a) - |a.defaults|);
    ReAllAt(a.defaults, if j >= 0 then j else 0);
    if i < PosCount(a) {
      if j >= 0 {
        ReOptSome(a.defaults[j]);
      } else {
        ReOptNone();
      }
    }
  }

  lemma CollectAll(a: Arguments, i: nat, r: Arguments)
    requires Reads(a, r) && |a.defaults| <= PosCount(a) && i <= PosCount(a)
    requires |r.posonly| == |a.posonly| && |r.args| == |a.args| && |r.defaults| == |a.defaults|
    ensures Collect(a, i, Before(a, i, r)) == Collect(a, PosCount(a), Before(a, PosCount(a), r))
    decreases PosCount(a) - i
  {
    hide Reads, ReParam, ReOpt, Before, Slashed, AddParam, Positional, PosDefault, CollectKw;
    if i < PosCount(a) {
      ReadsAt(a, r, i);
      BeforeStep(a, i, r, Positional(r, i), PosDefault(r, i));
      CollectAll(a, i + 1, r);
    }
  }

  lemma CollectFails(a: Arguments, i: nat, acc: Arguments, j: nat)
    requires i <= j < PosCount(a)
    requires ReParam(Positional(a, j)).None? || ReOpt(PosDefault(a, j)).None?
    ensures Collect(a, i, acc).None?
    decreases PosCount(a) - i
  {
    hide ReParam, ReOpt, Slashed, AddParam, Positional, PosDefault, CollectKw;
    if i < j && ReParam(Positional(a, i)).Some? && ReOpt(PosDefault(a, i)).Some? {
      CollectFails(a, i + 1, Slashed(i + 1 == |a.posonly|,
        AddParam(acc, false, ReParam(Positional(a, i)).value, ReOpt(PosDefault(a, i)).value)), j);
    }
  }

  lemma FirstFailure(ps: seq<Param>) returns (i: nat)
    requires ReParamList(ps).None?
    ensures i < |ps| && ReParam(ps[i]).None?
  {
    hide ReParam;
    ParamListCons(ps);
    if ReParam(ps[0]).None? {
      i := 0;
    } else {
      i := FirstFailure(ps[1..]);
      i := i + 1;
    }
  }

  lemma FirstDefault(es: seq<Expr>) returns (i: nat)
    requires ReAll(es).None?
    ensures i < |es| && Reparse(es[i]).None?
  {
    hide Reparse;
    ReAllEmpty();
    ReAllCons(es);
    if Reparse(es[0]).None? {
      i := 0;
    } else {
      i := FirstDefault(es[1..]);
      i := i + 1;
    }
  }

  /** A list one of whose positional parts cannot be re-read is rejected. */
  lemma CollectRejects(a: Arguments, acc: Arguments)
    requires |a.defaults| <= PosCount(a)
    requires ReParamList(a.posonly).None? || ReParamList(a.args).None? || ReAll(a.defaults).None?
    ensures Collect(a, 0, acc).None?
  {
    hide ReParam, Reparse, ReParamList, ReAll, ReOpt, Collect;
    if ReParamList(a.posonly).None? {
      var j := FirstFailure(a.posonly);
      CollectFails(a, 0, acc, j);
    } else if ReParamList(a.args).None? {
      var j := FirstFailure(a.args);
      assert Positional(a, |a.posonly| + j) == a.args[j];
      CollectFails(a, 0, acc, |a.posonly| + j);
    } else {
      var j := FirstDefault(a.defaults);
      var i := PosCount(a) - |a.defaults| + j;
      assert PosDefault(a, i) == Some(a.defaults[j]);
      ReOptSome(a.defaults[j]);
      CollectFails(a, 0, acc, i);
    }
  }

  lemma CollectIsReParams(a: Arguments)
    requires WfParams(a)
    ensures Collect(a, 0, NO_ARGS) == ReParams(a)
  {
    hide ReParam, Reparse, ReParamList, ReAll, ReOpt, Collect, CollectKw, ReOpts, ReParamOpt, WfParam, WfParamList,
      WfAll, WfOpts;
    var po, ar, ds := ReParamList(a.posonly), ReParamList(a.args), ReAll(a.defaults);
    if po.None? || ar.None? || ds.None? {
      CollectRejects(a, NO_ARGS);
    } else {
      var r := NO_ARGS.(posonly := po.value, args := ar.value, defaults := ds.value);
      ReadsAt(a, r, 0);
      CollectAll(a, 0, r);
      BeforeEnds(a, r);
      CollectEnd(a, r);
      assert a.kwonly[0..] == a.kwonly && a.kwdefaults[0..] == a.kwdefaults;
      if ReParamOpt(a.vararg).Some? {
        CollectKwAll(a, 0, r.(vararg := ReParamOpt(a.vararg).value));
        if ReParamList(a.kwonly).Some? && ReOpts(a.kwdefaults).Some? {
          assert [] + ReParamList(a.kwonly).value == ReParamList(a.kwonly).value;
          assert [] + ReOpts(a.kwdefaults).value == ReOpts(a.kwdefaults).value;
        }
      }
    }
  }

  lemma BeforeEnds(a: Arguments, r: Arguments)
    requires |r.posonly| == |a.posonly| && |r.args| == |a.args| && |r.defaults| == |a.defaults| <= PosCount(a)
    requires r == NO_ARGS.(posonly := r.posonly, args := r.args, defaults := r.defaults)
    ensures Before(a, 0, r) == NO_ARGS
    ensures Before(a, PosCount(a), r) == r
  {
    assert r.args[..|r.args|] == r.args && r.defaults[..|r.defaults|] == r.defaults;
    if a.posonly == [] {
      assert (r.posonly + r.args)[..|r.args|] == r.args;
    }
  }

  lemma CollectEnd(a: Arguments, acc: Arguments)
    ensures Collect(a, PosCount(a), acc) ==
      match ReParamOpt(a.vararg) case None => None case Some(v) => CollectKw(a, 0, acc.(vararg := v))
  {
    hide CollectKw, ReParamOpt;
  }

  /** The parameter list of a definition, printed and read up to its closing parenthesis; after a
      parameter of any kind there may be a comma before that. */
  lemma ParamsRoundTrip(a: Arguments, k: Toks)
    requires WfParams(a) && ListEnd(k) && (At0(k, Comma) ==> HasParams(a))
    ensures ParseParams(PrintArguments(a, k)) == Of(ReParams(a), Closing(k))
  {
    hide PrintPositional, Collect, ReParams, ParamLoop, WfParams;
    ReadPositions(a, 0, NO_ARGS, k);
    CollectIsReParams(a);
  }
}
