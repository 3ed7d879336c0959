/** The dead-store pass of the fixer (legacy/linter/fix.go): a store of a constant goes when the next
    statement binds the same name again. */
module DeadStores {
  import opened Tokens

  datatype Expr =
    | Constant(c: int)
    | Name(id: string)
    | Operation(op: string, left: Expr, right: Expr)

  datatype Context = Load | Store

  datatype Target = NameTarget(id: string, ctx: Context, pos: nat) | OtherTarget(code: nat)

  datatype Stmt =
    | Assign(targets: seq<Target>, value: Expr)
    | AnnAssign(target: Target, annotated: Option<Expr>)
    | OtherStmt(code: nat)

  datatype Diagnostic = Diagnostic(pos: nat, name: string)

  /** constantStoreName: the name in `name = CONSTANT`. */
  function ConstantStoreName(s: Stmt): Option<string> {
    if s.Assign? && |s.targets| == 1 && s.targets[0].NameTarget? && s.targets[0].ctx == Store && s.value.Constant? then
      Some(s.targets[0].id)
    else None
  }

  /** nextRebindPos: where the statement binds the wanted name again. */
  function NextRebindPos(s: Stmt, want: string): Option<nat> {
    match s
    case Assign(ts, _) =>
      if |ts| == 1 && ts[0].NameTarget? && ts[0].id == want && ts[0].ctx == Store then Some(ts[0].pos) else None
    case AnnAssign(t, v) =>
      if v.Some? && t.NameTarget? && t.id == want then Some(t.pos) else None
    case OtherStmt(_) => None
  }

  predicate Dead(s: Stmt, next: Stmt) {
    ConstantStoreName(s).Some? && NextRebindPos(next, ConstantStoreName(s).value).Some?
  }

  /** The body without its dead stores. */
  function Kept(b: seq<Stmt>): seq<Stmt> {
    if |b| < 2 then b
    else if Dead(b[0], b[1]) then Kept(b[1..])
    else [b[0]] + Kept(b[1..])
  }

  /** What is reported, one for each store that goes. */
  function Removed(b: seq<Stmt>): seq<Diagnostic> {
    if |b| < 2 then []
    else if Dead(b[0], b[1]) then
      var name := ConstantStoreName(b[0]).value;
      [Diagnostic(NextRebindPos(b[1], name).value, name)] + Removed(b[1..])
    else Removed(b[1..])
  }

  /** `x = c`. */
  function ConstantStore(x: string, p: nat, c: int): Stmt {
    Stmt.Assign([NameTarget(x, Store, p)], Constant(c))
  }

  /** `x = e`, or `x: T = e`, with the name at q. */
  ghost predicate Rebinds(s: Stmt, x: string, q: nat) {
    || (exists e :: s == Stmt.Assign([NameTarget(x, Store, q)], e))
    || (exists ctx, e :: s == AnnAssign(NameTarget(x, ctx, q), Some(e)))
  }

  /** s stores a constant in x, and the statement after it binds x again, at q. */
  ghost predicate Replaced(s: Stmt, next: Stmt, x: string, q: nat) {
    (exists p, c :: s == ConstantStore(x, p, c)) && Rebinds(next, x, q)
  }

  lemma DeadExactly(s: Stmt, next: Stmt)
    ensures Dead(s, next) <==> exists x, q: nat :: Replaced(s, next, x, q)
    ensures forall x, q: nat | Replaced(s, next, x, q) ::
      ConstantStoreName(s) == Some(x) && NextRebindPos(next, x) == Some(q)
  {
    if Dead(s, next) {
      var x := ConstantStoreName(s).value;
      var q := NextRebindPos(next, x).value;
      assert s == ConstantStore(x, s.targets[0].pos, s.value.c);
      if next.Assign? {
        assert next == Stmt.Assign([NameTarget(x, Store, q)], next.value);
      } else {
        assert next == AnnAssign(NameTarget(x, next.target.ctx, q), Some(next.annotated.value));
      }
      assert Replaced(s, next, x, q);
    }
  }

  /** From every body exactly the constant stores go after which the next statement binds the name again,
      with a report each; everything else stays, in its order. */
  lemma DropsExactly(b: seq<Stmt>)
    ensures |b| < 2 ==> Kept(b) == b && Removed(b) == []
    ensures |b| >= 2 && (forall x, q: nat :: !Replaced(b[0], b[1], x, q)) ==>
      Kept(b) == [b[0]] + Kept(b[1..]) && Removed(b) == Removed(b[1..])
    ensures forall x, q: nat | |b| >= 2 && Replaced(b[0], b[1], x, q) ::
      Kept(b) == Kept(b[1..]) && Removed(b) == [Diagnostic(q, x)] + Removed(b[1..])
  {
    hide Replaced, ConstantStoreName, NextRebindPos;
    if |b| >= 2 {
      DeadExactly(b[0], b[1]);
    }
  }

  class Fixer {
    var fixed: seq<Diagnostic>

    constructor ()
      ensures fixed == []
    {
      fixed := [];
    }

    /** scanDeadStoreLiteral. */
    method ScanDeadStoreLiteral(b: seq<Stmt>) returns (out: seq<Stmt>)
      modifies this
      ensures out == Kept(b)
      ensures fixed == old(fixed) + Removed(b)
    {
      hide ConstantStoreName, NextRebindPos;
      out := [];
      assert b[0..] == b;
      for i := 0 to |b|
        invariant out + Kept(b[i..]) == Kept(b)
        invariant fixed + Removed(b[i..]) == old(fixed) + Removed(b)
      {
        var s := b[i];
        assert b[i..][0] == s && b[i..][1..] == b[i + 1..];
        if i + 1 < |b| {
          assert b[i..][1] == b[i + 1];
          var name := ConstantStoreName(s);
          if name.Some? {
            var pos := NextRebindPos(b[i + 1], name.value);
            if pos.Some? {
              ghost var was, rest := fixed, Removed(b[i + 1..]);
              fixed := fixed + [Diagnostic(pos.value, name.value)];
              assert fixed + rest == was + ([Diagnostic(pos.value, name.value)] + rest);
              continue;
            }
          }
        }
        ghost var kept := out;
        out := out + [s];
        assert out + Kept(b[i + 1..]) == kept + ([s] + Kept(b[i + 1..]));
      }
    }
  }

  /** One report for each statement that goes. */
  lemma {:induction false} OneFixEach(b: seq<Stmt>)
    ensures |Kept(b)| + |Removed(b)| == |b|
    decreases b
  {
    if |b| >= 2 {
      OneFixEach(b[1..]);
    }
  }

  // ----- the pass leaves nothing for a second pass -----

  /** The name that a statement binds, when it binds just one. */
  function Binds(s: Stmt): Option<string> {
    match s
    case Assign(ts, _) => if |ts| == 1 && ts[0].NameTarget? then Some(ts[0].id) else None
    case AnnAssign(t, _) => if t.NameTarget? then Some(t.id) else None
    case OtherStmt(_) => None
  }

  lemma DeadBinds(s: Stmt, next: Stmt)
    ensures Dead(s, next) ==> Binds(s).Some? && Binds(s) == Binds(next)
  {
  }

  /** The first statement kept is the first of the body, or binds the same name. */
  lemma {:induction false} FirstKept(b: seq<Stmt>)
    requires b != []
    ensures Kept(b) != [] && (Kept(b)[0] == b[0] || (Binds(b[0]).Some? && Binds(Kept(b)[0]) == Binds(b[0])))
    decreases b
  {
    hide Dead, Binds;
    if |b| >= 2 && Dead(b[0], b[1]) {
      FirstKept(b[1..]);
      DeadBinds(b[0], b[1]);
    }
  }

  /** A constant store followed by something else than a rebinding is not dead before anything that
      is kept instead of it. */
  lemma StillLive(s: Stmt, next: Stmt, later: Stmt)
    requires !Dead(s, next) && Binds(next).Some? && Binds(later) == Binds(next) && next.Assign?
    requires ConstantStoreName(next).Some?
    ensures !Dead(s, later)
  {
  }

  /** The first statement kept in place of a dropped one; the dropped one is a constant store. */
  lemma FirstDropped(b: seq<Stmt>)
    requires b != [] && Kept(b) != [] && Kept(b)[0] != b[0]
    ensures b[0].Assign? && ConstantStoreName(b[0]).Some?
  {
  }

  /** A second pass finds nothing to drop and nothing to report. */
  lemma {:induction false} Idempotent(b: seq<Stmt>)
    ensures Kept(Kept(b)) == Kept(b) && Removed(Kept(b)) == []
    decreases b
  {
    hide Dead, Binds, ConstantStoreName, NextRebindPos;
    if |b| >= 2 {
      Idempotent(b[1..]);
      if !Dead(b[0], b[1]) {
        var k := Kept(b[1..]);
        FirstKept(b[1..]);
        if k[0] != b[1] {
          FirstDropped(b[1..]);
          StillLive(b[0], b[1], k[0]);
        }
        assert Kept(b)[1..] == k;
      }
    }
  }

  // ----- what the bodies do -----

  /** The variables of a function and the world outside it. */
  datatype State = State(vars: map<string, int>, world: int)

  /** A body goes on, or it is left, by an exception or by a return; what is then left of its
      variables is what others can see. */
  datatype Outcome = Goes(state: State) | Leaves(seen: map<string, int>, world: int)

  /** A value with the state after it; None when the evaluation raises. */
  datatype Valued = Valued(value: Option<int>, state: State)

  /** The meaning of operators and calls, and of the other statements.  An operator is given its two
      operands and, of the variables, those that others share; it may change these and the world. */
  datatype Machine = Machine(
    apply: (string, int, int, State) -> Valued,
    other: (Stmt, State) -> Outcome)

  /** The shared variables.  A name is shared when code outside the function's own expressions can
      reach it: cells of nested functions, names declared global or nonlocal (the Cell, Free and
      Global marks of the symbol table), and every name where the body calls for its locals. */
  function Seen(shared: set<string>, vars: map<string, int>): map<string, int> {
    map x | x in vars && x in shared :: vars[x]
  }

  /** Variables after an operator has done what it likes with the shared ones. */
  function Merged(shared: set<string>, vars: map<string, int>, seen: map<string, int>): map<string, int> {
    map x | x in vars.Keys + seen.Keys && (if x in shared then x in seen else x in vars) ::
      if x in shared then seen[x] else vars[x]
  }

  function Apply(m: Machine, shared: set<string>, op: string, l: int, r: int, s: State): Valued {
    var v := m.apply(op, l, r, State(Seen(shared, s.vars), s.world));
    Valued(v.value, State(Merged(shared, s.vars, v.state.vars), v.state.world))
  }

  function Eval(m: Machine, shared: set<string>, e: Expr, s: State): Valued {
    match e
    case Constant(c) => Valued(Some(c), s)
    case Name(x) => Valued(if x in s.vars then Some(s.vars[x]) else None, s)
    case Operation(op, l, r) =>
      var a := Eval(m, shared, l, s);
      if a.value.None? then a
      else
        var b := Eval(m, shared, r, a.state);
        if b.value.None? then b else Apply(m, shared, op, a.value.value, b.value.value, b.state)
  }

  function Bind(m: Machine, shared: set<string>, x: string, e: Expr, s: State): Outcome {
    var v := Eval(m, shared, e, s);
    match v.value
    case None => Leaves(Seen(shared, v.state.vars), v.state.world)
    case Some(n) => Goes(State(v.state.vars[x := n], v.state.world))
  }

  function Exec(m: Machine, shared: set<string>, st: Stmt, s: State): Outcome {
    if st.Assign? && |st.targets| == 1 && st.targets[0].NameTarget? && st.targets[0].ctx == Store then
      Bind(m, shared, st.targets[0].id, st.value, s)
    else if st.AnnAssign? && st.annotated.Some? && st.target.NameTarget? then
      Bind(m, shared, st.target.id, st.annotated.value, s)
    else m.other(st, s)
  }

  function Run(m: Machine, shared: set<string>, b: seq<Stmt>, s: State): Outcome {
    if b == [] then Goes(s)
    else
      match Exec(m, shared, b[0], s)
      case Leaves(seen, w) => Leaves(seen, w)
      case Goes(t) => Run(m, shared, b[1..], t)
  }

  /** The names that an expression reads by itself. */
  function Reads(e: Expr): set<string> {
    match e
    case Constant(_) => {}
    case Name(x) => {x}
    case Operation(_, l, r) => Reads(l) + Reads(r)
  }

  function ValueOf(s: Stmt): Expr
    requires s.Assign? || (s.AnnAssign? && s.annotated.Some?)
  {
    if s.Assign? then s.value else s.annotated.value
  }

  /** The right-hand side that replaces x neither reads it nor, where x is shared, does anything that
      could look at x or raise before it is bound again. */
  predicate Unseen(shared: set<string>, x: string, e: Expr) {
    x !in Reads(e) && (x in shared ==> e.Constant?)
  }

  /** Every store that goes is unseen by the statement after it. */
  predicate Safe(shared: set<string>, b: seq<Stmt>) {
    |b| >= 2 ==>
      && (Dead(b[0], b[1]) ==> Unseen(shared, ConstantStoreName(b[0]).value, ValueOf(b[1])))
      && Safe(shared, b[1..])
  }

  /** The two states are the same but for an x that is not shared. */
  ghost predicate Alike(x: string, s: State, t: State) {
    && s.world == t.world
    && forall y | y != x :: (y in s.vars <==> y in t.vars) && (y in s.vars && y in t.vars ==> s.vars[y] == t.vars[y])
  }

  lemma SeenAlike(shared: set<string>, x: string, s: State, t: State)
    requires x !in shared && Alike(x, s, t)
    ensures Seen(shared, s.vars) == Seen(shared, t.vars)
  {
  }

  lemma ApplyAlike(m: Machine, shared: set<string>, op: string, l: int, r: int, x: string, s: State, t: State)
    requires x !in shared && Alike(x, s, t)
    ensures Apply(m, shared, op, l, r, s).value == Apply(m, shared, op, l, r, t).value
    ensures Alike(x, Apply(m, shared, op, l, r, s).state, Apply(m, shared, op, l, r, t).state)
  {
    SeenAlike(shared, x, s, t);
  }

  /** An expression that does not read x, where x is not shared, is evaluated alike whatever x is. */
  lemma {:induction false} Ignores(m: Machine, shared: set<string>, e: Expr, x: string, s: State, t: State)
    requires x !in Reads(e) && x !in shared && Alike(x, s, t)
    ensures Eval(m, shared, e, s).value == Eval(m, shared, e, t).value
    ensures Alike(x, Eval(m, shared, e, s).state, Eval(m, shared, e, t).state)
    decreases e
  {
    match e
    case Constant(_) =>
    case Name(y) =>
    case Operation(op, l, r) =>
      hide Apply, Alike;
      Ignores(m, shared, l, x, s, t);
      var a, b := Eval(m, shared, l, s), Eval(m, shared, l, t);
      if a.value.Some? {
        Ignores(m, shared, r, x, a.state, b.state);
        var c, d := Eval(m, shared, r, a.state), Eval(m, shared, r, b.state);
        if c.value.Some? {
          ApplyAlike(m, shared, op, a.value.value, c.value.value, x, c.state, d.state);
        }
      }
  }

  /** Two statements, the first of them a dead store that the second does not see. */
  lemma DropOne(m: Machine, shared: set<string>, s: Stmt, next: Stmt, start: State)
    requires Dead(s, next) && Unseen(shared, ConstantStoreName(s).value, ValueOf(next))
    ensures var r := Exec(m, shared, s, start);
            r.Goes? && Exec(m, shared, next, r.state) == Exec(m, shared, next, start)
  {
    hide Eval, Seen, Reads;
    var x, e := ConstantStoreName(s).value, ValueOf(next);
    var t := State(start.vars[x := s.value.c], start.world);
    StoreOne(m, shared, s, start);
    RebindOne(m, shared, s, next, start);
    RebindOne(m, shared, s, next, t);
    RebindAlike(m, shared, x, e, start, s.value.c);
  }

  lemma StoreOne(m: Machine, shared: set<string>, s: Stmt, start: State)
    requires ConstantStoreName(s).Some?
    ensures Exec(m, shared, s, start) == Goes(State(start.vars[ConstantStoreName(s).value := s.value.c], start.world))
  {
  }

  lemma RebindOne(m: Machine, shared: set<string>, s: Stmt, next: Stmt, start: State)
    requires Dead(s, next)
    ensures Exec(m, shared, next, start) == Bind(m, shared, ConstantStoreName(s).value, ValueOf(next), start)
  {
    hide Bind;
  }

  lemma RebindAlike(m: Machine, shared: set<string>, x: string, e: Expr, start: State, c: int)
    requires Unseen(shared, x, e)
    ensures Bind(m, shared, x, e, State(start.vars[x := c], start.world)) == Bind(m, shared, x, e, start)
  {
    var t := State(start.vars[x := c], start.world);
    if x in shared {
      assert start.vars[x := c][x := e.c] == start.vars[x := e.c];
    } else {
      Ignores(m, shared, e, x, start, t);
      var a, b := Eval(m, shared, e, start), Eval(m, shared, e, t);
      SeenAlike(shared, x, a.state, b.state);
      if a.value.Some? {
        BoundAlike(x, a.state, b.state, a.value.value);
      }
    }
  }

  lemma BoundAlike(x: string, s: State, t: State, n: int)
    requires Alike(x, s, t)
    ensures s.vars[x := n] == t.vars[x := n]
  {
  }

  /** The pass keeps what a body does, exceptions and what they leave behind included, from every
      state and for every meaning of its operators and of its other statements. */
  lemma {:induction false} PassPreserves(m: Machine, shared: set<string>, b: seq<Stmt>, start: State)
    requires Safe(shared, b)
    ensures Run(m, shared, Kept(b), start) == Run(m, shared, b, start)
    decreases b
  {
    hide Dead, ConstantStoreName, NextRebindPos, Exec, Unseen;
    if |b| >= 2 {
      if Dead(b[0], b[1]) {
        PassPreserves(m, shared, b[1..], start);
        DropOne(m, shared, b[0], b[1], start);
        RunCons(m, shared, b, start);
        RunCons(m, shared, b[1..], start);
        RunCons(m, shared, b[1..], Exec(m, shared, b[0], start).state);
      } else {
        var t := Exec(m, shared, b[0], start);
        assert Kept(b)[1..] == Kept(b[1..]);
        if t.Goes? {
          PassPreserves(m, shared, b[1..], t.state);
        }
      }
    }
  }

  lemma RunCons(m: Machine, shared: set<string>, b: seq<Stmt>, start: State)
    requires b != []
    ensures Run(m, shared, b, start) == match Exec(m, shared, b[0], start)
                                        case Leaves(seen, w) => Leaves(seen, w)
                                        case Goes(t) => Run(m, shared, b[1..], t)
  {
    hide Exec;
  }

  /** Dropping s before `next` is right in every context. */
  ghost predicate Droppable(shared: set<string>, s: Stmt, next: Stmt) {
    forall m: Machine, before: seq<Stmt>, after: seq<Stmt>, start: State ::
      Run(m, shared, before + [next] + after, start) == Run(m, shared, before + [s, next] + after, start)
  }

  lemma {:induction false} RunPlus(m: Machine, shared: set<string>, a: seq<Stmt>, b: seq<Stmt>, start: State)
    ensures Run(m, shared, a + b, start) == match Run(m, shared, a, start)
                                            case Leaves(seen, w) => Leaves(seen, w)
                                            case Goes(t) => Run(m, shared, b, t)
    decreases a
  {
    hide Exec;
    if a == [] {
      assert a + b == b;
    } else {
      assert (a + b)[0] == a[0] && (a + b)[1..] == a[1..] + b;
      var t := Exec(m, shared, a[0], start);
      if t.Goes? {
        RunPlus(m, shared, a[1..], b, t.state);
      }
    }
  }

  lemma RunOne(m: Machine, shared: set<string>, s: Stmt, start: State)
    ensures Run(m, shared, [s], start) == Exec(m, shared, s, start)
  {
    hide Exec;
    assert [s][1..] == [];
  }

  lemma RunTwo(m: Machine, shared: set<string>, s: Stmt, next: Stmt, start: State)
    ensures Run(m, shared, [next], start) == Exec(m, shared, next, start)
    ensures Run(m, shared, [s, next], start) == match Exec(m, shared, s, start)
                                                case Leaves(seen, w) => Leaves(seen, w)
                                                case Goes(t) => Exec(m, shared, next, t)
  {
    hide Exec;
    assert [next][1..] == [] && [s, next][1..] == [next];
    RunOne(m, shared, next, start);
    var r := Exec(m, shared, s, start);
    if r.Goes? {
      RunOne(m, shared, next, r.state);
    }
  }

  /** Of the pairs that the pass looks for, those that may be shortened are exactly the ones whose
      second statement does not read the name and, where the name is shared, binds it to a constant. */
  lemma DroppableExactly(shared: set<string>, s: Stmt, next: Stmt)
    requires Dead(s, next)
    ensures Droppable(shared, s, next) <==> Unseen(shared, ConstantStoreName(s).value, ValueOf(next))
  {
    hide Exec, Run, Unseen;
    if Unseen(shared, ConstantStoreName(s).value, ValueOf(next)) {
      forall m: Machine, before: seq<Stmt>, after: seq<Stmt>, start: State
        ensures Run(m, shared, before + [next] + after, start) == Run(m, shared, before + [s, next] + after, start)
      {
        InContext(m, shared, before, s, next, after, start);
      }
    } else {
      var m, start := Witness(shared, s, next);
      Apart(m, shared, s, next, start);
      assert [] + [next] + [] == [next] && [] + [s, next] + [] == [s, next];
      assert Run(m, shared, [] + [next] + [], start) != Run(m, shared, [] + [s, next] + [], start);
    }
  }

  lemma Apart(m: Machine, shared: set<string>, s: Stmt, next: Stmt, start: State)
    requires Dead(s, next)
    requires var r := Exec(m, shared, s, start);
             r.Goes? && Exec(m, shared, next, r.state) != Exec(m, shared, next, start)
    ensures Run(m, shared, [next], start) != Run(m, shared, [s, next], start)
  {
    hide Exec, Run, Dead;
    RunTwo(m, shared, s, next, start);
  }

  /** A machine and a state that tell the two bodies apart. */
  lemma Witness(shared: set<string>, s: Stmt, next: Stmt) returns (m: Machine, start: State)
    requires Dead(s, next) && !Unseen(shared, ConstantStoreName(s).value, ValueOf(next))
    ensures var r := Exec(m, shared, s, start);
            r.Goes? && Exec(m, shared, next, r.state) != Exec(m, shared, next, start)
  {
    hide Eval, Seen, Reads;
    var x, e := ConstantStoreName(s).value, ValueOf(next);
    var succeeds := (op: string, l: int, r: int, st: State) => Valued(Some(0), st);
    var raises := (op: string, l: int, r: int, st: State) => Valued(None, st);
    if x in Reads(e) {
      m := Machine(succeeds, (st, t) => Goes(t));
      start := State(map y | y in Reads(e) && y != x :: 0, 0);
    } else {
      m := Machine(raises, (st, t) => Goes(t));
      start := State(map[], 0);
    }
    StoreOne(m, shared, s, start);
    RebindOne(m, shared, s, next, start);
    var mid := State(start.vars[x := s.value.c], 0);
    RebindOne(m, shared, s, next, mid);
    if x in Reads(e) {
      Unbound(m, shared, e, start, x);
      Total(m, shared, e, mid);
    } else {
      Raises(m, shared, e, start, x);
      Raises(m, shared, e, mid, x);
      SeenStore(shared, x, s.value.c);
    }
  }

  lemma SeenStore(shared: set<string>, x: string, c: int)
    requires x in shared
    ensures Seen(shared, map[x := c]) != Seen(shared, map[])
  {
    assert x in Seen(shared, map[x := c]);
  }

  lemma InContext(m: Machine, shared: set<string>, before: seq<Stmt>, s: Stmt, next: Stmt, after: seq<Stmt>,
                  start: State)
    requires Dead(s, next) && Unseen(shared, ConstantStoreName(s).value, ValueOf(next))
    ensures Run(m, shared, before + [next] + after, start) == Run(m, shared, before + [s, next] + after, start)
  {
    hide Dead, ConstantStoreName, Unseen, Exec, Run;
    RunPlus(m, shared, before + [next], after, start);
    RunPlus(m, shared, before + [s, next], after, start);
    RunPlus(m, shared, before, [next], start);
    RunPlus(m, shared, before, [s, next], start);
    var t := Run(m, shared, before, start);
    if t.Goes? {
      RunTwo(m, shared, s, next, t.state);
      DropOne(m, shared, s, next, t.state);
    }
  }

  lemma MergedSeen(shared: set<string>, vars: map<string, int>)
    ensures Merged(shared, vars, Seen(shared, vars)) == vars
  {
  }

  /** Where operators leave the shared variables alone, reading an unbound x raises. */
  lemma {:induction false} Unbound(m: Machine, shared: set<string>, e: Expr, s: State, x: string)
    requires x in Reads(e) && x !in s.vars
    requires forall op, l, r, st :: m.apply(op, l, r, st) == Valued(Some(0), st)
    ensures Eval(m, shared, e, s) == Valued(None, s)
    decreases e
  {
    if e.Operation? {
      if x in Reads(e.left) {
        Unbound(m, shared, e.left, s, x);
      } else {
        Steady(m, shared, e.left, s);
        if Eval(m, shared, e.left, s).value.Some? {
          Unbound(m, shared, e.right, s, x);
        }
      }
    }
  }

  lemma {:induction false} Steady(m: Machine, shared: set<string>, e: Expr, s: State)
    requires forall op, l, r, st :: m.apply(op, l, r, st) == Valued(Some(0), st)
    ensures Eval(m, shared, e, s).state == s
    decreases e
  {
    if e.Operation? {
      Steady(m, shared, e.left, s);
      Steady(m, shared, e.right, s);
      MergedSeen(shared, s.vars);
    }
  }

  lemma {:induction false} Total(m: Machine, shared: set<string>, e: Expr, s: State)
    requires forall y :: y in Reads(e) ==> y in s.vars
    requires forall op, l, r, st :: m.apply(op, l, r, st) == Valued(Some(0), st)
    ensures Eval(m, shared, e, s).value.Some?
    decreases e
  {
    if e.Operation? {
      Total(m, shared, e.left, s);
      Steady(m, shared, e.left, s);
      Total(m, shared, e.right, s);
    }
  }

  /** With no variable but x, which e does not read, and operators that raise, all but a constant
      raises and leaves everything as it was. */
  lemma {:induction false} Raises(m: Machine, shared: set<string>, e: Expr, s: State, x: string)
    requires !e.Constant? && x !in Reads(e) && forall y :: y in s.vars ==> y == x
    requires forall op, l, r, st :: m.apply(op, l, r, st) == Valued(None, st)
    ensures Eval(m, shared, e, s) == Valued(None, s)
    decreases e
  {
    if e.Operation? {
      MergedSeen(shared, s.vars);
      if !e.left.Constant? {
        Raises(m, shared, e.left, s, x);
      } else if !e.right.Constant? {
        Raises(m, shared, e.right, s, x);
      }
    }
  }

  // ----- inputs -----

  function StoreName(x: string, e: Expr): Stmt {
    Stmt.Assign([NameTarget(x, Store, 0)], e)
  }

  /** `x = f()` where the call leaves its surroundings alone. */
  lemma StoreCall(m: Machine, shared: set<string>, x: string, op: string, f: Expr, a: int, v: Option<int>, s: State)
    requires Eval(m, shared, f, s) == Valued(Some(a), s)
    requires var seen := State(Seen(shared, s.vars), s.world); m.apply(op, a, 0, seen) == Valued(v, seen)
    ensures Exec(m, shared, StoreName(x, Operation(op, f, Constant(0))), s) ==
      match v
      case None => Leaves(Seen(shared, s.vars), s.world)
      case Some(n) => Goes(State(s.vars[x := n], s.world))
  {
    hide Seen, Merged;
    MergedSeen(shared, s.vars);
    var e := Operation(op, f, Constant(0));
    assert Eval(m, shared, Constant(0), s) == Valued(Some(0), s);
    assert Apply(m, shared, op, a, 0, s) == Valued(v, s);
    assert Eval(m, shared, e, s) == Valued(v, s);
    assert Exec(m, shared, StoreName(x, e), s) == Bind(m, shared, x, e, s);
  }

  /** `x = 1` before `x = x + x` is dropped all the same: from a state without x, the body that ran
      now raises. */
  lemma StaleRead(m: Machine)
    requires m.apply("+", 1, 1, State(map[], 0)) == Valued(Some(2), State(map[], 0))
    ensures var b := [StoreName("x", Constant(1)), StoreName("x", Operation("+", Name("x"), Name("x")))];
            && Kept(b) == b[1..]
            && Run(m, {}, b, State(map[], 0)) == Goes(State(map["x" := 2], 0))
            && Run(m, {}, Kept(b), State(map[], 0)) == Leaves(map[], 0)
  {
    var first, second := StoreName("x", Constant(1)), StoreName("x", Operation("+", Name("x"), Name("x")));
    var b := [first, second];
    assert b[1..] == [second] && Kept([second]) == [second];
    var none, one := State(map[], 0), State(map["x" := 1], 0);
    RunTwo(m, {}, first, second, none);
    assert Exec(m, {}, first, none) == Goes(one);
    assert Seen({}, one.vars) == map[] && Seen({}, none.vars) == map[];
    assert Eval(m, {}, Name("x"), one) == Valued(Some(1), one) && Eval(m, {}, Name("x"), none) == Valued(None, none);
    assert Merged({}, one.vars, map[]) == one.vars;
    assert map["x" := 1]["x" := 2] == map["x" := 2];
  }

  /** `x = 1` before `x = h()`, where h is a closure over x: the store goes although h reads it.  The
      body that bound x to its old value and one now raises. */
  lemma CapturedRead(m: Machine)
    requires forall s: State :: m.apply("lambda: x", 0, 0, s) == Valued(Some(7), s)
    requires forall s: State ::
               m.apply("call", 7, 0, s) == Valued(if "x" in s.vars then Some(s.vars["x"] + 1) else None, s)
    ensures var b := [StoreName("h", Operation("lambda: x", Constant(0), Constant(0))), StoreName("x", Constant(1)),
                      StoreName("x", Operation("call", Name("h"), Constant(0)))];
            && Kept(b) == [b[0], b[2]]
            && Run(m, {"x"}, b, State(map[], 0)) == Goes(State(map["h" := 7, "x" := 2], 0))
            && Run(m, {"x"}, Kept(b), State(map[], 0)) == Leaves(map[], 0)
  {
    var h := StoreName("h", Operation("lambda: x", Constant(0), Constant(0)));
    var first, second := StoreName("x", Constant(1)), StoreName("x", Operation("call", Name("h"), Constant(0)));
    var b := [h, first, second];
    assert b[1..] == [first, second] && [first, second][1..] == [second];
    assert Kept([second]) == [second] && Kept([first, second]) == [second];
    assert Kept(b) == [h] + [second] == [h, second];
    var s0, s1, s2 := State(map[], 0), State(map["h" := 7], 0), State(map["h" := 7, "x" := 1], 0);
    assert [h, second][1..] == [second];
    assert Seen({"x"}, s0.vars) == map[] && Seen({"x"}, s1.vars) == map[] && Seen({"x"}, s2.vars) == map["x" := 1];
    assert s1.vars["x" := 1] == s2.vars && s2.vars["x" := 2] == map["h" := 7, "x" := 2];
    StoreCall(m, {"x"}, "h", "lambda: x", Constant(0), 0, Some(7), s0);
    StoreOne(m, {"x"}, first, s1);
    StoreCall(m, {"x"}, "x", "call", Name("h"), 7, None, s1);
    StoreCall(m, {"x"}, "x", "call", Name("h"), 7, Some(2), s2);
    hide Exec, Run, Seen, Kept;
    RunCons(m, {"x"}, b, s0);
    RunCons(m, {"x"}, [h, second], s0);
    RunTwo(m, {"x"}, first, second, s1);
  }

  /** `x = 1` before `x = g()` in a function that declares x global: when g raises, the body used to
      leave 1 behind and now leaves what was there before. */
  lemma GlobalLeft(m: Machine, was: int)
    requires forall s: State :: m.apply("call", 7, 0, s) == Valued(None, s)
    ensures var b := [StoreName("x", Constant(1)), StoreName("x", Operation("call", Constant(7), Constant(0)))];
            && Kept(b) == b[1..]
            && Run(m, {"x"}, b, State(map["x" := was], 0)) == Leaves(map["x" := 1], 0)
            && Run(m, {"x"}, Kept(b), State(map["x" := was], 0)) == Leaves(map["x" := was], 0)
  {
    var first, second := StoreName("x", Constant(1)), StoreName("x", Operation("call", Constant(7), Constant(0)));
    var b := [first, second];
    assert b[1..] == [second] && Kept([second]) == [second];
    var s0, s1 := State(map["x" := was], 0), State(map["x" := 1], 0);
    assert s0.vars["x" := 1] == s1.vars;
    assert Seen({"x"}, s0.vars) == s0.vars && Seen({"x"}, s1.vars) == s1.vars;
    StoreOne(m, {"x"}, first, s0);
    StoreCall(m, {"x"}, "x", "call", Constant(7), 7, None, s0);
    StoreCall(m, {"x"}, "x", "call", Constant(7), 7, None, s1);
    RunTwo(m, {"x"}, first, second, s0);
  }
}
