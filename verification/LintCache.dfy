/** One file linted, with and without the result cache (linter/cache.go, lintOneFile in
    linter/parallel.go). */
module LintCache {
  import opened Tokens
  import opened LintConfig

  datatype Result<+T> = Ok(value: T) | Error(message: string)
  datatype Info = Info(mtime: int, size: int)
  datatype Diagnostic = Diagnostic(code: string, text: string)

  /** The files, which stay as they are during a run, and what is computed from them. */
  datatype World = World(
    stat: string -> Result<Info>,
    read: string -> Result<string>,
    lint: (string, string) -> Result<seq<Diagnostic>>,
    abs: string -> Option<string>,
    matches: (string, string) -> bool)

  type Outcome = Result<seq<Diagnostic>>

  /** The diagnostics that a configuration lets through. */
  function Filter(w: World, c: Config, path: string, ds: seq<Diagnostic>): seq<Diagnostic> {
    if ds == [] then []
    else (if EnabledFor(c, w.matches, path, ds[0].code) then [ds[0]] else []) + Filter(w, c, path, ds[1..])
  }

  /** Reading and linting a file, without any cache. */
  function Work(w: World, c: Config, path: string): Outcome {
    match w.read(path)
    case Error(m) => Error(m)
    case Ok(src) =>
      match w.lint(path, src)
      case Error(m) => Error(m)
      case Ok(ds) => Ok(Filter(w, c, path, ds))
  }

  /** What a serial run without a cache reports for a file. */
  function Fresh(w: World, c: Config, path: string): Outcome {
    match w.stat(path)
    case Error(m) => Error(m)
    case Ok(_) => Work(w, c, path)
  }

  lemma {:induction false} FilterByKey(w: World, c: Config, d: Config, k: Key, path: string, ds: seq<Diagnostic>)
    requires Normalizes(c, k) && Normalizes(d, k)
    ensures Filter(w, c, path, ds) == Filter(w, d, path, ds)
    decreases ds
  {
    if ds != [] {
      KeyDecides(c, d, k, w.matches, path, ds[0].code);
      FilterByKey(w, c, d, k, path, ds[1..]);
    }
  }

  // ----- what a report holds -----

  /** out holds the diagnostics of ds at the places idx, which are those of the reportable ones, in
      order: none is lost, repeated or moved. */
  ghost predicate Picks(w: World, c: Config, path: string, ds: seq<Diagnostic>, out: seq<Diagnostic>, idx: seq<int>) {
    Drawn(ds, out, idx) && forall i | 0 <= i < |ds| :: i in idx <==> Reportable(c, w.matches, path, ds[i].code)
  }

  ghost predicate Drawn(ds: seq<Diagnostic>, out: seq<Diagnostic>, idx: seq<int>) {
    && |idx| == |out|
    && (forall k | 0 <= k < |idx| :: 0 <= idx[k] < |ds| && out[k] == ds[idx[k]])
    && (forall j, k | 0 <= j < k < |idx| :: idx[j] < idx[k])
  }

  /** The first failure, or the reportable ones of what linting the file finds. */
  ghost predicate Reports(w: World, c: Config, path: string, r: Outcome) {
    match w.stat(path)
    case Error(m) => r == Error(m)
    case Ok(_) =>
      match w.read(path)
      case Error(m) => r == Error(m)
      case Ok(src) =>
        match w.lint(path, src)
        case Error(m) => r == Error(m)
        case Ok(ds) => r.Ok? && exists idx :: Picks(w, c, path, ds, r.value, idx)
  }

  function Shift(idx: seq<int>, d: int): (r: seq<int>)
    ensures |r| == |idx| && forall k | 0 <= k < |idx| :: r[k] == idx[k] + d
  {
    seq(|idx|, k requires 0 <= k < |idx| => idx[k] + d)
  }

  lemma {:induction false} FilterPicks(w: World, c: Config, path: string, ds: seq<Diagnostic>) returns (idx: seq<int>)
    ensures Picks(w, c, path, ds, Filter(w, c, path, ds), idx)
    decreases ds
  {
    hide EnabledFor, Reportable, Drawn;
    if ds == [] {
      idx := [];
      NoneDrawn();
    } else {
      var rest := FilterPicks(w, c, path, ds[1..]);
      EnabledExactly(c, w.matches, path, ds[0].code);
      var keep := EnabledFor(c, w.matches, path, ds[0].code);
      idx := (if keep then [0] else []) + Shift(rest, 1);
      DrawnMore(ds, Filter(w, c, path, ds[1..]), rest, keep);
      forall i | 0 <= i < |ds|
        ensures i in idx <==> Reportable(c, w.matches, path, ds[i].code)
      {
        Placed(ds, rest, keep, i);
      }
    }
  }

  lemma NoneDrawn()
    ensures Drawn([], [], [])
  {
  }

  lemma DrawnMore(ds: seq<Diagnostic>, out: seq<Diagnostic>, idx: seq<int>, keep: bool)
    requires ds != [] && Drawn(ds[1..], out, idx)
    ensures Drawn(ds, (if keep then [ds[0]] else []) + out, (if keep then [0] else []) + Shift(idx, 1))
    ensures 0 !in Shift(idx, 1)
  {
  }

  lemma Placed(ds: seq<Diagnostic>, idx: seq<int>, keep: bool, i: nat)
    requires i < |ds| && 0 !in Shift(idx, 1)
    ensures i in (if keep then [0] else []) + Shift(idx, 1) <==> if i == 0 then keep else i - 1 in idx
    ensures i > 0 ==> ds[1..][i - 1] == ds[i]
  {
    ShiftHas(idx, 1, i);
  }

  lemma ShiftHas(idx: seq<int>, d: int, i: int)
    ensures i in Shift(idx, d) <==> i - d in idx
  {
    if i - d in idx {
      var k :| 0 <= k < |idx| && idx[k] == i - d;
      assert Shift(idx, d)[k] == i;
    }
  }

  lemma {:induction false} PicksIsFilter(w: World, c: Config, path: string, ds: seq<Diagnostic>, out: seq<Diagnostic>,
                                         idx: seq<int>)
    requires Picks(w, c, path, ds, out, idx)
    ensures out == Filter(w, c, path, ds)
    decreases ds
  {
    hide EnabledFor, Reportable, Drawn;
    if ds == [] {
      NothingDrawn(ds, out, idx);
    } else {
      EnabledExactly(c, w.matches, path, ds[0].code);
      var keep := 0 in idx;
      var rest, tail := DrawnLess(ds, out, idx);
      forall i | 0 <= i < |ds[1..]|
        ensures i in tail <==> Reportable(c, w.matches, path, ds[1..][i].code)
      {
        assert ds[1..][i] == ds[i + 1];
      }
      PicksIsFilter(w, c, path, ds[1..], rest, tail);
    }
  }

  lemma NothingDrawn(ds: seq<Diagnostic>, out: seq<Diagnostic>, idx: seq<int>)
    requires Drawn(ds, out, idx)
    ensures ds == [] ==> out == []
  {
    if |idx| > 0 {
      assert 0 <= idx[0] < |ds|;
    }
  }

  /** Without the first diagnostic, which is drawn if place 0 is. */
  lemma DrawnLess(ds: seq<Diagnostic>, out: seq<Diagnostic>, idx: seq<int>)
      returns (rest: seq<Diagnostic>, places: seq<int>)
    requires ds != [] && Drawn(ds, out, idx)
    ensures Drawn(ds[1..], rest, places) && out == (if 0 in idx then [ds[0]] else []) + rest
    ensures forall i | i >= 0 :: i in places <==> i + 1 in idx
  {
    hide Drawn, Shift;
    FirstPlace(ds, out, idx);
    var later := if 0 in idx then idx[1..] else idx;
    rest, places := if 0 in idx then out[1..] else out, Shift(later, -1);
    DrawnDown(ds, rest, later);
    PlacesDown(idx, later);
  }

  lemma PlacesDown(idx: seq<int>, later: seq<int>)
    requires later == idx || (idx != [] && idx[0] == 0 && later == idx[1..])
    ensures forall i | i >= 0 :: i in Shift(later, -1) <==> i + 1 in idx
  {
    forall i | i >= 0
      ensures i in Shift(later, -1) <==> i + 1 in idx
    {
      ShiftHas(later, -1, i);
      if later != idx {
        assert idx == [0] + later;
      }
    }
  }

  /** Place 0 can only come first. */
  lemma FirstPlace(ds: seq<Diagnostic>, out: seq<Diagnostic>, idx: seq<int>)
    requires Drawn(ds, out, idx)
    ensures 0 in idx ==> idx[0] == 0 && out != [] && out[0] == ds[0] && out == [out[0]] + out[1..]
    ensures 0 in idx ==> Drawn(ds, out[1..], idx[1..]) && 0 !in idx[1..]
  {
  }

  lemma DrawnDown(ds: seq<Diagnostic>, out: seq<Diagnostic>, idx: seq<int>)
    requires ds != [] && Drawn(ds, out, idx) && 0 !in idx
    ensures Drawn(ds[1..], out, Shift(idx, -1))
  {
    var r := Shift(idx, -1);
    forall k | 0 <= k < |r|
      ensures 0 <= r[k] < |ds[1..]| && out[k] == ds[1..][r[k]]
    {
      assert idx[k] in idx;
    }
  }

  /** A run without a cache reports, for every file and every configuration, the first failure or the
      diagnostics whose code is selected, not ignored, and not listed by a pattern that matches the
      file, in the order in which linting finds them and as often; and no other result is that. */
  lemma ReportedExactly(w: World, c: Config, path: string, r: Outcome)
    ensures r == Fresh(w, c, path) <==> Reports(w, c, path, r)
  {
    hide Filter, Picks;
    if w.stat(path).Ok? && w.read(path).Ok? && w.lint(path, w.read(path).value).Ok? {
      var ds := w.lint(path, w.read(path).value).value;
      var idx := FilterPicks(w, c, path, ds);
      forall idx | r.Ok? && Picks(w, c, path, ds, r.value, idx)
        ensures r.value == Filter(w, c, path, ds)
      {
        PicksIsFilter(w, c, path, ds, r.value, idx);
      }
    }
  }

  // ----- the cache -----

  datatype Entry = Entry(key: Key, info: Info, diags: seq<Diagnostic>)
  type Entries = map<string, Entry>

  /** The stored diagnostics for a path, when its entry has the file's times and the key. */
  function Find(w: World, es: Entries, path: string, info: Info, k: Key): Option<seq<Diagnostic>> {
    match w.abs(path)
    case None => None
    case Some(a) =>
      if a in es && es[a].key == k && es[a].info == info then Some(es[a].diags) else None
  }

  function Put(w: World, es: Entries, path: string, info: Info, k: Key, ds: seq<Diagnostic>): Entries {
    match w.abs(path)
    case None => es
    case Some(a) => es[a := Entry(k, info, ds)]
  }

  /** An entry is true of a path: if the file is still the one that was linted, the entry holds what
      linting it gives under every configuration with the entry's key. */
  ghost predicate TrueOf(w: World, e: Entry, path: string) {
    w.stat(path) == Ok(e.info) ==> forall c | Normalizes(c, e.key) :: Work(w, c, path) == Ok(e.diags)
  }

  /** Every entry is true of the paths that it is looked up for. */
  ghost predicate Honest(w: World, es: Entries, paths: seq<string>) {
    forall a, p | a in es && p in paths && w.abs(p) == Some(a) :: TrueOf(w, es[a], p)
  }

  /** Where one file has two paths, what linting it gives for the one it gives for the other: one
      spelling for each file is enough. */
  ghost predicate OneSpelling(w: World, c: Config, paths: seq<string>) {
    forall p, q | p in paths && q in paths && SameFile(w, p, q) && Work(w, c, p).Ok? :: Work(w, c, q) == Work(w, c, p)
  }

  /** Two paths share a cache entry, and a stored result for the one is found for the other. */
  predicate SameFile(w: World, p: string, q: string) {
    w.abs(p).Some? && w.abs(p) == w.abs(q) && w.stat(p).Ok? && w.stat(p) == w.stat(q)
  }

  /** A caller can see to it by giving no file two paths. */
  lemma DistinctFiles(w: World, c: Config, paths: seq<string>)
    requires forall p, q | p in paths && q in paths && w.abs(p).Some? && w.abs(p) == w.abs(q) :: p == q
    ensures OneSpelling(w, c, paths)
  {
  }

  lemma FoundIsFresh(w: World, es: Entries, paths: seq<string>, c: Config, k: Key, path: string, info: Info)
    requires Honest(w, es, paths) && path in paths && Normalizes(c, k) && w.stat(path) == Ok(info)
    ensures Find(w, es, path, info, k).Some? ==> Fresh(w, c, path) == Ok(Find(w, es, path, info, k).value)
  {
    if Find(w, es, path, info, k).Some? {
      assert TrueOf(w, es[w.abs(path).value], path);
    }
  }

  lemma PutIsHonest(w: World, es: Entries, paths: seq<string>, c: Config, k: Key, path: string, info: Info,
                    ds: seq<Diagnostic>)
    requires Honest(w, es, paths) && OneSpelling(w, c, paths) && path in paths
    requires Normalizes(c, k) && w.stat(path) == Ok(info) && Work(w, c, path) == Ok(ds)
    ensures Honest(w, Put(w, es, path, info, k, ds), paths)
  {
    var r := Put(w, es, path, info, k, ds);
    forall a, p | a in r && p in paths && w.abs(p) == Some(a)
      ensures TrueOf(w, r[a], p)
    {
      if w.abs(path) == Some(a) {
        forall d | Normalizes(d, k) && w.stat(p) == Ok(info)
          ensures Work(w, d, p) == Ok(ds)
        {
          assert SameFile(w, path, p);
          WorkByKey(w, c, d, k, p);
        }
      } else {
        assert TrueOf(w, es[a], p);
      }
    }
  }

  lemma WorkByKey(w: World, c: Config, d: Config, k: Key, path: string)
    requires Normalizes(c, k) && Normalizes(d, k)
    ensures Work(w, c, path) == Work(w, d, path)
  {
    if w.read(path).Ok? && w.lint(path, w.read(path).value).Ok? {
      FilterByKey(w, c, d, k, path, w.lint(path, w.read(path).value).value);
    }
  }

  /** The cache as it is kept: a map under a lock, and a flag for unsaved changes. */
  class Cache {
    var entries: Entries
    var dirty: bool

    constructor (loaded: Entries)
      ensures entries == loaded && !dirty
    {
      entries, dirty := loaded, false;
    }

    method Lookup(w: World, path: string, info: Info, c: Config) returns (r: Option<seq<Diagnostic>>)
      ensures forall k | Normalizes(c, k) :: r == Find(w, entries, path, info, k)
    {
      var k := ConfigKey(c);
      forall m | Normalizes(c, m)
        ensures m == k
      {
        KeyIsFunction(c, c, k, m);
      }
      r := None;
      var a := w.abs(path);
      if a.None? || a.value !in entries {
        return;
      }
      var e := entries[a.value];
      if e.key != k || e.info != info {
        return;
      }
      r := Some(e.diags);
    }

    method Store(w: World, path: string, info: Info, c: Config, ds: seq<Diagnostic>)
      modifies this
      ensures forall k | Normalizes(c, k) :: entries == Put(w, old(entries), path, info, k, ds)
      ensures dirty == (old(dirty) || w.abs(path).Some?)
    {
      var k := ConfigKey(c);
      forall m | Normalizes(c, m)
        ensures m == k
      {
        KeyIsFunction(c, c, k, m);
      }
      var a := w.abs(path);
      if a.None? {
        return;
      }
      entries := entries[a.value := Entry(k, info, ds)];
      dirty := true;
    }
  }

  method FilterDiagnostics(w: World, c: Config, path: string, ds: seq<Diagnostic>) returns (out: seq<Diagnostic>)
    ensures out == Filter(w, c, path, ds)
  {
    out := [];
    assert ds[0..] == ds;
    for i := 0 to |ds|
      invariant out + Filter(w, c, path, ds[i..]) == Filter(w, c, path, ds)
    {
      assert ds[i..][0] == ds[i] && ds[i..][1..] == ds[i + 1..];
      ghost var rest := Filter(w, c, path, ds[i + 1..]);
      if EnabledFor(c, w.matches, path, ds[i].code) {
        assert Filter(w, c, path, ds[i..]) == [ds[i]] + rest;
        assert out + ([ds[i]] + rest) == (out + [ds[i]]) + rest;
        out := out + [ds[i]];
      } else {
        assert Filter(w, c, path, ds[i..]) == [] + rest == rest;
      }
    }
    assert ds[|ds|..] == [];
    assert out + [] == out;
  }

  /** lintOneFile: through the cache, when there is one. */
  method LintOneFile(w: World, c: Config, path: string, cache: Cache?, ghost paths: seq<string>) returns (r: Outcome)
    requires path in paths && OneSpelling(w, c, paths)
    requires cache != null ==> Honest(w, cache.entries, paths)
    modifies cache
    ensures r == Fresh(w, c, path) && Reports(w, c, path, r)
    ensures cache != null ==> Honest(w, cache.entries, paths)
  {
    hide Reports;
    ReportedExactly(w, c, path, Fresh(w, c, path));
    var info := w.stat(path);
    if info.Error? {
      return Error(info.message);
    }
    ghost var k := ConfigKey(c);
    if cache != null {
      var found := cache.Lookup(w, path, info.value, c);
      if found.Some? {
        FoundIsFresh(w, cache.entries, paths, c, k, path, info.value);
        return Ok(found.value);
      }
    }
    var src := w.read(path);
    if src.Error? {
      return Error(src.message);
    }
    var all := w.lint(path, src.value);
    if all.Error? {
      return Error(all.message);
    }
    var ds := FilterDiagnostics(w, c, path, all.value);
    if cache != null {
      PutIsHonest(w, cache.entries, paths, c, k, path, info.value, ds);
      cache.Store(w, path, info.value, c, ds);
    }
    r := Ok(ds);
  }

  /** The run with one job. */
  method LintSerially(w: World, c: Config, paths: seq<string>, cache: Cache?) returns (results: seq<Outcome>)
    requires OneSpelling(w, c, paths)
    requires cache != null ==> Honest(w, cache.entries, paths)
    modifies cache
    ensures |results| == |paths| && forall i | 0 <= i < |paths| :: results[i] == Fresh(w, c, paths[i])
    ensures forall i | 0 <= i < |paths| :: Reports(w, c, paths[i], results[i])
    ensures cache != null ==> Honest(w, cache.entries, paths)
  {
    results := [];
    for i := 0 to |paths|
      invariant |results| == i && forall j | 0 <= j < i :: results[j] == Fresh(w, c, paths[j])
      invariant forall j | 0 <= j < i :: Reports(w, c, paths[j], results[j])
      invariant cache != null ==> Honest(w, cache.entries, paths)
    {
      var r := LintOneFile(w, c, paths[i], cache, paths);
      results := results + [r];
    }
  }
}
