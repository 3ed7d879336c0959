/** Lint configurations (linter/config.go) and the key that a cached result is stored under
    (configHash and sortedCopy in linter/cache.go). */
module LintConfig {
  import opened Tokens

  datatype Config = Config(select: seq<string>, ignored: seq<string>, perFile: map<string, seq<string>>)

  predicate ContainsCode(codes: seq<string>, code: string) {
    exists i | 0 <= i < |codes| :: codes[i] == code
  }

  predicate Enabled(c: Config, code: string) {
    (|c.select| > 0 ==> ContainsCode(c.select, code)) && !ContainsCode(c.ignored, code)
  }

  /** Enabled, and not ignored by a pattern that matches the file; `matches` is the matching of
      patterns with paths. */
  predicate EnabledFor(c: Config, matches: (string, string) -> bool, file: string, code: string) {
    Enabled(c, code) && forall g | g in c.perFile :: !(ContainsCode(c.perFile[g], code) && matches(g, file))
  }

  /** A report for the file may name the code: it is among the selected ones, if any are, it is not
      ignored, and no pattern that matches the file lists it. */
  ghost predicate Reportable(c: Config, matches: (string, string) -> bool, file: string, code: string) {
    && (c.select == [] || code in c.select)
    && code !in c.ignored
    && forall g | g in c.perFile && matches(g, file) :: code !in c.perFile[g]
  }

  lemma EnabledExactly(c: Config, matches: (string, string) -> bool, file: string, code: string)
    ensures EnabledFor(c, matches, file, code) <==> Reportable(c, matches, file, code)
  {
    assert forall g | g in c.perFile :: ContainsCode(c.perFile[g], code) <==> code in c.perFile[g];
  }

  // ----- the normal form that is hashed -----

  /** The order of strings that sorting uses. */
  predicate Le(a: string, b: string) {
    a == "" || (b != "" && (a[0] < b[0] || (a[0] == b[0] && Le(a[1..], b[1..]))))
  }

  lemma {:induction false} LeTotal(a: string, b: string)
    ensures Le(a, b) || Le(b, a)
    decreases a
  {
    if a != "" && b != "" {
      LeTotal(a[1..], b[1..]);
    }
  }

  lemma {:induction false} LeAntisymmetric(a: string, b: string)
    requires Le(a, b) && Le(b, a)
    ensures a == b
    decreases a
  {
    if a != "" && b != "" {
      LeAntisymmetric(a[1..], b[1..]);
      assert a == [a[0]] + a[1..] && b == [b[0]] + b[1..];
    }
  }

  lemma {:induction false} LeTransitive(a: string, b: string, c: string)
    requires Le(a, b) && Le(b, c)
    ensures Le(a, c)
    decreases a
  {
    if a != "" && a[0] == b[0] && b[0] == c[0] {
      LeTransitive(a[1..], b[1..], c[1..]);
    }
  }

  predicate Sorted(s: seq<string>) {
    forall i, j | 0 <= i < j < |s| :: Le(s[i], s[j])
  }

  lemma SortedTail(s: seq<string>)
    requires Sorted(s) && s != []
    ensures Sorted(s[1..]) && forall x | x in s[1..] :: Le(s[0], x)
  {
    forall x | x in s[1..]
      ensures Le(s[0], x)
    {
      var i :| 0 <= i < |s[1..]| && s[1..][i] == x;
      assert s[i + 1] == x;
    }
  }

  /** There is one sorted arrangement of a bag of strings. */
  lemma {:induction false} SortedUnique(a: seq<string>, b: seq<string>)
    requires Sorted(a) && Sorted(b) && multiset(a) == multiset(b)
    ensures a == b
    decreases a
  {
    hide Sorted, Le;
    assert |a| == |multiset(a)| && |b| == |multiset(b)|;
    if a != [] {
      SameSmallest(a, b);
      SameTails(a, b);
      SortedTail(a);
      SortedTail(b);
      SortedUnique(a[1..], b[1..]);
      assert a == [a[0]] + a[1..] && b == [b[0]] + b[1..];
    }
  }

  lemma SameSmallest(a: seq<string>, b: seq<string>)
    requires Sorted(a) && Sorted(b) && multiset(a) == multiset(b) && a != [] && b != []
    ensures a[0] == b[0]
  {
    hide Sorted, Le;
    assert a[0] in multiset(a) && b[0] in multiset(b);
    SmallestFirst(a, b[0]);
    SmallestFirst(b, a[0]);
    LeAntisymmetric(a[0], b[0]);
  }

  lemma SameTails(a: seq<string>, b: seq<string>)
    requires multiset(a) == multiset(b) && a != [] && b != [] && a[0] == b[0]
    ensures multiset(a[1..]) == multiset(b[1..])
  {
    assert a == [a[0]] + a[1..] && b == [b[0]] + b[1..];
    assert multiset(a) == multiset{a[0]} + multiset(a[1..]);
    assert multiset(b) == multiset{b[0]} + multiset(b[1..]);
    assert multiset(a[1..]) == multiset(a) - multiset{a[0]};
    assert multiset(b[1..]) == multiset(b) - multiset{b[0]};
  }

  lemma SmallestFirst(s: seq<string>, x: string)
    requires Sorted(s) && s != [] && x in s
    ensures Le(s[0], x)
  {
    if x == s[0] {
      LeTotal(x, x);
    }
  }

  /** Where x goes in a sorted sequence. */
  method Place(s: seq<string>, x: string) returns (k: nat)
    requires Sorted(s)
    ensures k <= |s|
    ensures forall i | 0 <= i < k :: Le(s[i], x)
    ensures forall i | k <= i < |s| :: Le(x, s[i])
  {
    k := 0;
    while k < |s| && Le(s[k], x)
      invariant k <= |s|
      invariant forall i | 0 <= i < k :: Le(s[i], x)
    {
      k := k + 1;
    }
    if k < |s| {
      LeTotal(s[k], x);
      forall i | k <= i < |s|
        ensures Le(x, s[i])
      {
        if i > k {
          LeTransitive(x, s[k], s[i]);
        }
      }
    }
  }

  /** sortedCopy: the elements of s in order. */
  method SortedCopy(s: seq<string>) returns (r: seq<string>)
    ensures Sorted(r) && multiset(r) == multiset(s)
  {
    r := [];
    for i := 0 to |s|
      invariant Sorted(r) && multiset(r) == multiset(s[..i])
    {
      var k := Place(r, s[i]);
      InsertSorted(r, s[i], k);
      assert s[..i + 1] == s[..i] + [s[i]];
      assert r == r[..k] + r[k..];
      assert multiset(r[..k] + [s[i]] + r[k..]) == multiset(r) + multiset{s[i]};
      r := r[..k] + [s[i]] + r[k..];
    }
    assert s[..|s|] == s;
  }

  lemma InsertSorted(s: seq<string>, x: string, k: nat)
    requires Sorted(s) && k <= |s|
    requires forall i | 0 <= i < k :: Le(s[i], x)
    requires forall i | k <= i < |s| :: Le(x, s[i])
    ensures Sorted(s[..k] + [x] + s[k..])
  {
    var r := s[..k] + [x] + s[k..];
    forall i, j | 0 <= i < j < |r|
      ensures Le(r[i], r[j])
    {
      if i < k && j > k {
        assert r[j] == s[j - 1] && r[i] == s[i];
      } else if i > k {
        assert r[j] == s[j - 1] && r[i] == s[i - 1];
      }
    }
  }

  /** What is hashed: every list sorted.  The hash is taken to be injective on these. */
  datatype Key = Key(select: seq<string>, ignored: seq<string>, perFile: map<string, seq<string>>)

  /** k is the normal form of c. */
  predicate Normalizes(c: Config, k: Key) {
    && Arranges(c.select, k.select) && Arranges(c.ignored, k.ignored)
    && c.perFile.Keys == k.perFile.Keys
    && forall g | g in c.perFile :: Arranges(c.perFile[g], k.perFile[g])
  }

  predicate Arranges(s: seq<string>, r: seq<string>) {
    Sorted(r) && multiset(r) == multiset(s)
  }

  /** configHash, up to the hash itself. */
  method ConfigKey(c: Config) returns (k: Key)
    ensures Normalizes(c, k)
  {
    var sel := SortedCopy(c.select);
    var ign := SortedCopy(c.ignored);
    var per: map<string, seq<string>> := map[];
    var globs := c.perFile.Keys;
    while globs != {}
      invariant globs <= c.perFile.Keys && per.Keys == c.perFile.Keys - globs
      invariant forall g | g in per :: g in c.perFile && Arranges(c.perFile[g], per[g])
      decreases |globs|
    {
      var g :| g in globs;
      var v := SortedCopy(c.perFile[g]);
      per := per[g := v];
      globs := globs - {g};
    }
    k := Key(sel, ign, per);
  }

  /** A configuration has one key, whatever the order in which its lists are written. */
  lemma KeyIsFunction(c: Config, d: Config, k: Key, m: Key)
    requires Normalizes(c, k) && Normalizes(d, m)
    ensures k == m <==>
      && multiset(c.select) == multiset(d.select) && multiset(c.ignored) == multiset(d.ignored)
      && c.perFile.Keys == d.perFile.Keys
      && forall g | g in c.perFile :: multiset(c.perFile[g]) == multiset(d.perFile[g])
  {
    if && multiset(c.select) == multiset(d.select) && multiset(c.ignored) == multiset(d.ignored)
       && c.perFile.Keys == d.perFile.Keys
       && forall g | g in c.perFile :: multiset(c.perFile[g]) == multiset(d.perFile[g])
    {
      SortedUnique(k.select, m.select);
      SortedUnique(k.ignored, m.ignored);
      forall g | g in k.perFile
        ensures g in m.perFile && k.perFile[g] == m.perFile[g]
      {
        assert g in c.perFile.Keys;
        SortedUnique(k.perFile[g], m.perFile[g]);
      }
      assert k.perFile == m.perFile;
    }
  }

  lemma SameBag(a: seq<string>, b: seq<string>, code: string)
    requires multiset(a) == multiset(b)
    ensures |a| == |b| && (ContainsCode(a, code) <==> ContainsCode(b, code))
  {
    assert |a| == |multiset(a)| && |b| == |multiset(b)|;
    assert ContainsCode(a, code) <==> code in multiset(a);
    assert ContainsCode(b, code) <==> code in multiset(b);
  }

  /** Configurations with the same key enable the same codes in the same files. */
  lemma KeyDecides(c: Config, d: Config, k: Key, matches: (string, string) -> bool, file: string, code: string)
    requires Normalizes(c, k) && Normalizes(d, k)
    ensures EnabledFor(c, matches, file, code) <==> EnabledFor(d, matches, file, code)
    ensures Reportable(c, matches, file, code) <==> Reportable(d, matches, file, code)
  {
    EnabledExactly(c, matches, file, code);
    EnabledExactly(d, matches, file, code);
    KeyIsFunction(c, d, k, k);
    SameBag(c.select, d.select, code);
    SameBag(c.ignored, d.ignored, code);
    forall g | g in c.perFile || g in d.perFile
      ensures g in c.perFile && g in d.perFile
        && (ContainsCode(c.perFile[g], code) <==> ContainsCode(d.perFile[g], code))
    {
      assert g in c.perFile.Keys && g in d.perFile.Keys;
      SameBag(c.perFile[g], d.perFile[g], code);
    }
  }
}
