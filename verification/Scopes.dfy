/** Scope trees and the resolution of names in them (section 4.2.2 of the Python Language
    Reference), as definitions.  A tree is a sequence of scopes that refer to each other by
    number; the module scope is number 0. */
module Scopes {
  import opened Tokens

  datatype Kind = ModuleScope | FunctionScope | ClassScope | LambdaScope | CompScope
  datatype Flag = FBound | FUsed | FParam | FGlobal | FNonlocal | FAnnotation | FFree | FCell

  datatype Scope = Scope(kind: Kind, parent: Option<nat>, children: seq<nat>, symbols: map<string, set<Flag>>)

  type Tree = seq<Scope>

  /** Scopes whose names a nested scope may capture, and which may capture names. */
  predicate FunctionLike(s: Scope) {
    s.kind != ModuleScope && s.kind != ClassScope
  }

  /** Parents and children are inverse, every scope lists a child once, and parents come first. */
  predicate WellFormed(t: Tree) {
    |t| > 0 && Rooted(t) && Upward(t) && Downward(t)
  }

  /** Scope 0 is the module and the only scope without a parent. */
  predicate Rooted(t: Tree) {
    forall i | 0 <= i < |t| :: (t[i].kind == ModuleScope <==> i == 0) && (t[i].parent.None? <==> i == 0)
  }

  predicate Upward(t: Tree)
    requires Rooted(t)
  {
    forall i | 0 < i < |t| :: t[i].parent.value < i && i in t[t[i].parent.value].children
  }

  predicate Downward(t: Tree) {
    forall i | 0 <= i < |t| :: Kids(t, i)
  }

  predicate Kids(t: Tree, i: nat)
    requires i < |t|
  {
    && (forall k | 0 <= k < |t[i].children| :: i < t[i].children[k] < |t| && t[t[i].children[k]].parent == Some(i))
    && (forall k, m | 0 <= k < m < |t[i].children| :: t[i].children[k] < t[i].children[m])
  }

  /** Only symbols differ. */
  ghost predicate SameShape(t: Tree, r: Tree) {
    && |t| == |r|
    && forall i | 0 <= i < |t| :: r[i].kind == t[i].kind && r[i].parent == t[i].parent && r[i].children == t[i].children
  }

  lemma SameShapeWellFormed(t: Tree, r: Tree)
    requires WellFormed(t) && SameShape(t, r)
    ensures WellFormed(r)
  {
    assert Rooted(r);
    assert Upward(r);
    forall i | 0 <= i < |r|
      ensures Kids(r, i)
    {
      assert Kids(t, i);
    }
  }

  predicate Has(s: Scope, n: string, f: Flag) {
    n in s.symbols && f in s.symbols[n]
  }

  // ----- ancestors -----

  /** Scope j is scope i or lies below it. */
  predicate Under(t: Tree, i: nat, j: nat)
    requires WellFormed(t) && j < |t|
    decreases j
  {
    j == i || (t[j].parent.Some? && Under(t, i, t[j].parent.value))
  }

  lemma {:induction false} UnderUp(t: Tree, i: nat, j: nat)
    requires WellFormed(t) && j < |t| && Under(t, i, j)
    ensures i <= j
    decreases j
  {
    if j != i {
      UnderUp(t, i, t[j].parent.value);
    }
  }

  lemma {:induction false} UnderTrans(t: Tree, i: nat, j: nat, k: nat)
    requires WellFormed(t) && j < |t| && k < |t| && Under(t, i, j) && Under(t, j, k)
    ensures Under(t, i, k)
    decreases k
  {
    if k != j {
      UnderTrans(t, i, j, t[k].parent.value);
    }
  }

  lemma {:induction false} RootAbove(t: Tree, j: nat)
    requires WellFormed(t) && j < |t|
    ensures Under(t, 0, j)
    decreases j
  {
    if j > 0 {
      RootAbove(t, t[j].parent.value);
    }
  }

  // ----- lookups -----

  /** The scope from `at` upwards that a nested function captures n from; class scopes are
      passed over, and the module scope ends the search empty-handed. */
  function Owner(t: Tree, at: Option<nat>, n: string): (r: Option<nat>)
    requires WellFormed(t) && (at.Some? ==> at.value < |t|)
    ensures r.Some? ==> r.value < |t| && FunctionLike(t[r.value]) && Has(t[r.value], n, FBound)
    decreases if at.Some? then at.value + 1 else 0
  {
    if at.None? then None
    else
      var s := t[at.value];
      if s.kind == ClassScope || !Has(s, n, FBound) then Owner(t, s.parent, n)
      else if s.kind == ModuleScope then None
      else at
  }

  /** The same search as a definition: the nearest scope, other than classes, that binds n. */
  predicate Nearest(t: Tree, o: nat, p: nat, n: string)
    requires WellFormed(t) && o < |t| && p < |t|
  {
    && Under(t, o, p) && t[o].kind != ClassScope && Has(t[o], n, FBound)
    && forall q | 0 <= q < |t| && q != o && Under(t, o, q) && Under(t, q, p) ::
         t[q].kind == ClassScope || !Has(t[q], n, FBound)
  }

  lemma {:induction false} OwnerIsNearest(t: Tree, p: nat, n: string, o: nat)
    requires WellFormed(t) && p < |t| && o < |t|
    ensures Owner(t, Some(p), n) == Some(o) <==> Nearest(t, o, p, n) && t[o].kind != ModuleScope
    decreases p
  {
    var s := t[p];
    if s.kind == ClassScope || !Has(s, n, FBound) {
      if s.parent.Some? {
        OwnerIsNearest(t, s.parent.value, n, o);
        NearestUp(t, o, p, n);
      }
    } else {
      if o != p && Under(t, o, p) {
        assert Under(t, p, p);
      }
      if o == p {
        forall q | 0 <= q < |t| && q != o && Under(t, o, q) && Under(t, q, p)
          ensures false
        {
          UnderUp(t, o, q);
          UnderUp(t, q, p);
        }
      }
    }
  }

  /** A scope that is passed over changes nothing. */
  lemma NearestUp(t: Tree, o: nat, p: nat, n: string)
    requires WellFormed(t) && o < |t| && p < |t| && t[p].parent.Some?
    requires t[p].kind == ClassScope || !Has(t[p], n, FBound)
    ensures Nearest(t, o, p, n) <==> Nearest(t, o, t[p].parent.value, n)
  {
    var u := t[p].parent.value;
    if Nearest(t, o, u, n) {
      forall q | 0 <= q < |t| && q != o && Under(t, o, q) && Under(t, q, p)
        ensures t[q].kind == ClassScope || !Has(t[q], n, FBound)
      {
        assert q == p || Under(t, q, u);
      }
    }
    if Nearest(t, o, p, n) {
      assert o != p;
      forall q | 0 <= q < |t| && q != o && Under(t, o, q) && Under(t, q, u)
        ensures t[q].kind == ClassScope || !Has(t[q], n, FBound)
      {
        assert Under(t, q, p);
      }
    }
  }

  /** Resolve: the scope that a name read in scope `from` refers to, and whether a function-like
      scope was left on the way. */
  function Lookup(t: Tree, from: nat, at: Option<nat>, crossed: bool, n: string): (r: Option<(bool, nat)>)
    requires WellFormed(t) && (at.Some? ==> at.value < |t|)
    ensures r.Some? ==> r.value.1 < |t|
    decreases if at.Some? then at.value + 1 else 0
  {
    if at.None? then None
    else
      var s := t[at.value];
      if at.value != from && s.kind == ClassScope then Lookup(t, from, s.parent, crossed, n)
      else if Has(s, n, FBound) || Has(s, n, FGlobal) || Has(s, n, FNonlocal) then Some((crossed, at.value))
      else Lookup(t, from, s.parent, crossed || FunctionLike(s), n)
  }

  /** Scope q can end the lookup of n that begins in scope `from`: it binds or declares n, and is no class
      but the one where the name is read. */
  predicate Counts(t: Tree, from: nat, q: nat, n: string)
    requires q < |t|
  {
    (q == from || t[q].kind != ClassScope) && (Has(t[q], n, FBound) || Has(t[q], n, FGlobal) || Has(t[q], n, FNonlocal))
  }

  /** The nearest scope from p upwards that counts. */
  predicate Found(t: Tree, from: nat, p: nat, o: nat, n: string)
    requires WellFormed(t) && o < |t| && p < |t|
  {
    && Under(t, o, p) && Counts(t, from, o, n)
    && forall q | 0 <= q < |t| && q != o && Under(t, o, q) && Under(t, q, p) :: !Counts(t, from, q, n)
  }

  /** A function-like scope is left on the way from p up to o. */
  predicate Crosses(t: Tree, p: nat, o: nat)
    requires WellFormed(t) && o < |t| && p < |t|
  {
    exists q | 0 <= q < |t| :: q != o && Under(t, o, q) && Under(t, q, p) && FunctionLike(t[q])
  }

  /** Resolve, as a definition: a name is found in the nearest scope that counts, across a function-like
      scope or not. */
  lemma LookupExactly(t: Tree, from: nat, n: string, o: nat)
    requires WellFormed(t) && from < |t| && o < |t|
    ensures var r := Lookup(t, from, Some(from), false, n);
            && (r.Some? && r.value.1 == o <==> Found(t, from, from, o, n))
            && (Found(t, from, from, o, n) ==> (r.value.0 <==> Crosses(t, from, o)))
  {
    LookupFrom(t, from, from, false, n, o);
  }

  lemma {:induction false} LookupFrom(t: Tree, from: nat, p: nat, c: bool, n: string, o: nat)
    requires WellFormed(t) && p < |t| && o < |t|
    ensures var r := Lookup(t, from, Some(p), c, n);
            && (r.Some? && r.value.1 == o <==> Found(t, from, p, o, n))
            && (Found(t, from, p, o, n) ==> (r.value.0 <==> c || Crosses(t, p, o)))
    decreases p
  {
    hide WellFormed;
    if Counts(t, from, p, n) {
      StaysHere(t, from, p, n, o);
    } else {
      Upwards(t, p);
      if t[p].parent.Some? {
        var u := t[p].parent.value;
        LookupFrom(t, from, u, c || FunctionLike(t[p]), n, o);
        FoundUp(t, from, p, n, o);
      }
    }
  }

  lemma Upwards(t: Tree, i: nat)
    requires WellFormed(t) && i < |t|
    ensures t[i].parent.Some? ==> t[i].parent.value < i
  {
  }

  lemma StaysHere(t: Tree, from: nat, p: nat, n: string, o: nat)
    requires WellFormed(t) && p < |t| && o < |t| && Counts(t, from, p, n)
    ensures Found(t, from, p, o, n) <==> o == p
    ensures !Crosses(t, p, p)
  {
    assert Under(t, p, p);
    forall q | 0 <= q < |t| && Under(t, p, q) && Under(t, q, p)
      ensures q == p
    {
      UnderUp(t, p, q);
      UnderUp(t, q, p);
    }
  }

  /** A scope that does not count is passed over. */
  lemma FoundUp(t: Tree, from: nat, p: nat, n: string, o: nat)
    requires WellFormed(t) && p < |t| && o < |t| && t[p].parent.Some? && !Counts(t, from, p, n)
    ensures var u := t[p].parent.value;
            && (Found(t, from, p, o, n) <==> Found(t, from, u, o, n))
            && (Found(t, from, u, o, n) ==> (Crosses(t, p, o) <==> FunctionLike(t[p]) || Crosses(t, u, o)))
  {
    hide Counts, FunctionLike;
    var u := t[p].parent.value;
    forall q | 0 <= q < |t|
      ensures Under(t, q, p) <==> q == p || Under(t, q, u)
    {
    }
    if Under(t, o, u) {
      UnderUp(t, o, u);
    }
  }

  // ----- free and cell -----

  /** n is read in scope i but belongs to an enclosing function-like scope. */
  predicate IsFree(t: Tree, i: nat, n: string)
    requires WellFormed(t) && i < |t|
  {
    && FunctionLike(t[i]) && Has(t[i], n, FUsed)
    && !Has(t[i], n, FBound) && !Has(t[i], n, FGlobal) && !Has(t[i], n, FNonlocal)
    && Owner(t, t[i].parent, n).Some?
  }

  /** Some scope below captures n from scope i. */
  predicate IsCell(t: Tree, i: nat, n: string)
    requires WellFormed(t) && i < |t|
  {
    exists j | 0 <= j < |t| :: IsFree(t, j, n) && Owner(t, t[j].parent, n) == Some(i)
  }

  /** Scope o is the nearest scope around scope j, classes aside, that binds n, and is not the module. */
  predicate Captures(t: Tree, j: nat, o: nat, n: string)
    requires WellFormed(t) && j < |t| && o < |t|
  {
    t[j].parent.Some? && Nearest(t, o, t[j].parent.value, n) && t[o].kind != ModuleScope
  }

  lemma CapturesIsOwner(t: Tree, j: nat, o: nat, n: string)
    requires WellFormed(t) && j < |t| && o < |t|
    ensures Captures(t, j, o, n) <==> Owner(t, t[j].parent, n) == Some(o)
  {
    if t[j].parent.Some? {
      OwnerIsNearest(t, t[j].parent.value, n, o);
    }
  }

  /** In flags: what is free is read in a function-like scope that neither binds it nor declares it
      global or nonlocal, and bound by a function-like scope around that one. */
  lemma FreeExactly(t: Tree, i: nat, n: string)
    requires WellFormed(t) && i < |t|
    ensures IsFree(t, i, n) <==>
            && FunctionLike(t[i]) && Has(t[i], n, FUsed)
            && !Has(t[i], n, FBound) && !Has(t[i], n, FGlobal) && !Has(t[i], n, FNonlocal)
            && exists o | 0 <= o < |t| :: Captures(t, i, o, n)
  {
    hide Nearest;
    var r := Owner(t, t[i].parent, n);
    if r.Some? {
      CapturesIsOwner(t, i, r.value, n);
    }
    forall o | 0 <= o < |t| && Captures(t, i, o, n)
      ensures r.Some?
    {
      CapturesIsOwner(t, i, o, n);
    }
  }

  /** A free name has a cell, and only free names give one: in the nearest scope around the reader
      that binds the name, classes aside. */
  lemma CellExactly(t: Tree, i: nat, n: string)
    requires WellFormed(t) && i < |t|
    ensures IsCell(t, i, n) <==> exists j | 0 <= j < |t| :: IsFree(t, j, n) && Captures(t, j, i, n)
  {
    hide Nearest, IsFree, Owner;
    forall j | 0 <= j < |t|
      ensures Captures(t, j, i, n) <==> Owner(t, t[j].parent, n) == Some(i)
    {
      CapturesIsOwner(t, j, i, n);
    }
  }

  /** A free name has a cell: the nearest scope above its reader that binds it, classes aside. */
  lemma FreeHasCell(t: Tree, i: nat, n: string)
    requires WellFormed(t) && i < |t| && IsFree(t, i, n)
    ensures exists o | 0 <= o < |t| :: Captures(t, i, o, n) && IsCell(t, o, n)
  {
    hide Nearest, IsFree, IsCell, Owner;
    FreeExactly(t, i, n);
    var o :| 0 <= o < |t| && Captures(t, i, o, n);
    CellExactly(t, o, n);
  }

  /** No name is both free and a cell of one scope, and a cell is bound by a function-like scope. */
  lemma FreeIsNotCell(t: Tree, i: nat, n: string)
    requires WellFormed(t) && i < |t|
    ensures !(IsFree(t, i, n) && IsCell(t, i, n))
    ensures IsCell(t, i, n) ==> FunctionLike(t[i]) && Has(t[i], n, FBound)
  {
  }

  /** A name read in a function-like scope is free exactly when the lookup leaves a function-like
      scope on its way and from where it ends the name can be captured.  It is captured from that
      very scope exactly when that scope binds it; a scope that only declares it ends the lookup,
      while the marks search on. */
  lemma FreeByLookup(t: Tree, i: nat, n: string)
    requires WellFormed(t) && i < |t| && FunctionLike(t[i]) && Has(t[i], n, FUsed)
    ensures var r := Lookup(t, i, Some(i), false, n);
            && (IsFree(t, i, n) <==> r.Some? && r.value.0 && Owner(t, Some(r.value.1), n).Some?)
            && (IsFree(t, i, n) ==> (Captures(t, i, r.value.1, n) <==> Has(t[r.value.1], n, FBound)))
  {
    LookupIsOwner(t, i, t[i].parent, n);
    if IsFree(t, i, n) {
      CapturesIsOwner(t, i, Lookup(t, i, Some(i), false, n).value.1, n);
    }
  }

  lemma {:induction false} LookupIsOwner(t: Tree, from: nat, at: Option<nat>, n: string)
    requires WellFormed(t) && (at.Some? ==> at.value < |t| && at.value < from)
    ensures var r := Lookup(t, from, at, true, n);
            && (r.Some? ==> r.value.0 && r.value.1 < |t| && Owner(t, at, n) == Owner(t, Some(r.value.1), n))
            && (r.None? ==> Owner(t, at, n).None?)
            && (r.Some? && Has(t[r.value.1], n, FBound) ==>
                  Owner(t, at, n) == if t[r.value.1].kind == ModuleScope then None else Some(r.value.1))
    decreases if at.Some? then at.value + 1 else 0
  {
    if at.Some? {
      LookupIsOwner(t, from, t[at.value].parent, n);
    }
  }

  /** Scopes of `def f(): x = 1; def g(): global x; def h(): return x`. */
  function GlobalBetween(n: string): Tree {
    [Scope(ModuleScope, None, [1], map[]),
     Scope(FunctionScope, Some(0), [2], map[n := {FBound}]),
     Scope(FunctionScope, Some(1), [3], map[n := {FGlobal}]),
     Scope(FunctionScope, Some(2), [], map[n := {FUsed}])]
  }

  /** The lookup and the marks part: the name that `g` declares global is found in `g`, and it is
      marked as captured from `f`. */
  lemma DeclaredBetween(n: string)
    ensures var t := GlobalBetween(n);
            && WellFormed(t)
            && Lookup(t, 3, Some(3), false, n) == Some((true, 2))
            && IsFree(t, 3, n) && IsCell(t, 1, n) && !IsFree(t, 2, n) && !IsCell(t, 2, n)
  {
    var t := GlobalBetween(n);
    assert forall i | 0 <= i < |t| :: Kids(t, i);
    assert Lookup(t, 3, Some(2), true, n) == Some((true, 2));
    assert Owner(t, Some(1), n) == Some(1);
    assert Owner(t, Some(2), n) == Some(1);
  }

  // ----- what a pass over part of the tree has marked -----

  /** The tree t with Free and Cell put in for the names of p that have been visited. */
  ghost predicate Marked(t: Tree, p: iset<(nat, string)>, now: Tree)
    requires WellFormed(t)
  {
    |now| == |t| && forall i | 0 <= i < |t| :: MarkedScope(t, p, now[i], i)
  }

  ghost predicate MarkedScope(t: Tree, p: iset<(nat, string)>, s: Scope, i: nat)
    requires WellFormed(t) && i < |t|
  {
    && s.kind == t[i].kind && s.parent == t[i].parent && s.children == t[i].children
    && s.symbols.Keys == t[i].symbols.Keys
    && forall n | n in t[i].symbols :: s.symbols[n] == t[i].symbols[n] + Marks(t, p, i, n)
  }

  ghost function Marks(t: Tree, p: iset<(nat, string)>, i: nat, n: string): set<Flag>
    requires WellFormed(t) && i < |t|
  {
    (if (i, n) in p && IsFree(t, i, n) then {FFree} else {}) + (if CellBy(t, p, i, n) then {FCell} else {})
  }

  ghost predicate CellBy(t: Tree, p: iset<(nat, string)>, i: nat, n: string)
    requires WellFormed(t) && i < |t|
  {
    exists j | 0 <= j < |t| :: (j, n) in p && IsFree(t, j, n) && Owner(t, t[j].parent, n) == Some(i)
  }

  ghost predicate Unmarked(t: Tree) {
    forall i, n | 0 <= i < |t| :: !Has(t[i], n, FFree) && !Has(t[i], n, FCell)
  }

  lemma MarkedWellFormed(t: Tree, p: iset<(nat, string)>, now: Tree)
    requires WellFormed(t) && Marked(t, p, now)
    ensures WellFormed(now)
  {
    hide WellFormed, Marks;
    forall i | 0 <= i < |t|
      ensures now[i].kind == t[i].kind && now[i].parent == t[i].parent && now[i].children == t[i].children
    {
      assert MarkedScope(t, p, now[i], i);
    }
    SameShapeWellFormed(t, now);
  }

  /** Marks do not move owners or change what is free. */
  lemma {:induction false} MarkedOwner(t: Tree, p: iset<(nat, string)>, now: Tree, at: Option<nat>, n: string)
    requires WellFormed(t) && Marked(t, p, now) && WellFormed(now) && (at.Some? ==> at.value < |t|)
    ensures Owner(now, at, n) == Owner(t, at, n)
    decreases if at.Some? then at.value + 1 else 0
  {
    if at.Some? {
      var i := at.value;
      assert MarkedScope(t, p, now[i], i);
      assert Has(now[i], n, FBound) == Has(t[i], n, FBound);
      MarkedOwner(t, p, now, t[i].parent, n);
    }
  }

  /** Everything below and including scope i. */
  ghost function Below(t: Tree, i: nat): iset<(nat, string)>
    requires WellFormed(t)
  {
    iset j: nat, n: string | j < |t| && Under(t, i, j) && n in t[j].symbols :: (j, n)
  }

  /** A scope below i is i or lies below one of its children. */
  lemma {:induction false} UnderChild(t: Tree, i: nat, j: nat)
    requires WellFormed(t) && i < |t| && j < |t| && Under(t, i, j) && i != j
    ensures exists k | 0 <= k < |t[i].children| :: Under(t, t[i].children[k], j)
    decreases j
  {
    var p := t[j].parent.value;
    if p == i {
      var k :| 0 <= k < |t[i].children| && t[i].children[k] == j;
      assert Under(t, t[i].children[k], j);
    } else {
      UnderChild(t, i, p);
      var k :| 0 <= k < |t[i].children| && Under(t, t[i].children[k], p);
      assert Under(t, t[i].children[k], j);
    }
  }

  lemma ChildUnder(t: Tree, i: nat, k: nat, j: nat)
    requires WellFormed(t) && i < |t| && k < |t[i].children| && j < |t| && Under(t, t[i].children[k], j)
    ensures Under(t, i, j)
  {
    assert Kids(t, i);
    assert Under(t, i, t[i].children[k]);
    UnderTrans(t, i, t[i].children[k], j);
  }

  /** After the whole tree: Free and Cell mean what they are defined to mean. */
  lemma MarkedAll(t: Tree, now: Tree)
    requires WellFormed(t) && Unmarked(t) && Marked(t, Below(t, 0), now)
    ensures forall i, n | 0 <= i < |t| :: Has(now[i], n, FFree) <==> IsFree(t, i, n)
    ensures forall i, n | 0 <= i < |t| :: Has(now[i], n, FCell) <==> IsCell(t, i, n)
  {
    forall i, n | 0 <= i < |t|
      ensures Has(now[i], n, FFree) <==> IsFree(t, i, n)
      ensures Has(now[i], n, FCell) <==> IsCell(t, i, n)
    {
      MarkedAt(t, now, i, n);
    }
  }

  lemma MarkedAt(t: Tree, now: Tree, i: nat, n: string)
    requires WellFormed(t) && Unmarked(t) && Marked(t, Below(t, 0), now) && i < |t|
    ensures Has(now[i], n, FFree) <==> IsFree(t, i, n)
    ensures Has(now[i], n, FCell) <==> IsCell(t, i, n)
  {
    hide Owner;
    assert !Has(t[i], n, FFree) && !Has(t[i], n, FCell);
    assert MarkedScope(t, Below(t, 0), now[i], i);
    RootAbove(t, i);
    if IsCell(t, i, n) {
      var j :| 0 <= j < |t| && IsFree(t, j, n) && Owner(t, t[j].parent, n) == Some(i);
      RootAbove(t, j);
      assert (j, n) in Below(t, 0);
      FreeIsNotCell(t, i, n);
    }
  }
}
