/** The worker pool of LintFiles (linter/parallel.go) as a state machine: workers take indexes from
    a channel, share one cache under a lock, and write slots of one results slice.  A step is one
    action of one worker; a run is any sequence of steps, so every interleaving is a run. */
module LintWorkers {
  import opened Tokens
  import opened LintConfig
  import opened LintCache

  /** What a worker is about to do; the index it holds and what it has found out so far. */
  datatype Worker =
    | Idle
    | Started(i: nat)
    | Stated(i: nat, info: Info)
    | Missed(i: nat, info: Info)
    | Linted(i: nat, info: Info, ds: seq<Diagnostic>)
    | Ready(i: nat, r: Outcome)
    | Finished

  /** `next` is the head of the channel and `taken` the indexes that workers received, in order. */
  datatype State = State(
    next: nat, taken: seq<nat>, workers: seq<Worker>, results: seq<Option<Outcome>>, entries: Entries)

  /** What a run does not change. */
  datatype Job = Job(world: World, config: Config, key: Key, paths: seq<string>, cached: bool)

  /** The number of workers: as asked for, or one for each processor, and no more than files. */
  function Jobs(asked: int, processors: nat, files: nat): nat {
    var jobs := if asked <= 0 then processors else asked;
    if jobs > files then files else jobs
  }

  function Start(j: Job, jobs: nat, entries: Entries): State {
    State(0, [], seq(jobs, _ => Idle), seq(|j.paths|, _ => None), entries)
  }

  predicate Enabled(s: State, k: nat) {
    k < |s.workers| && s.workers[k] != Finished
  }

  /** Every index a worker holds has a path and a slot. */
  predicate Bounds(j: Job, s: State) {
    && |s.results| == |j.paths| && s.next <= |j.paths|
    && forall k | 0 <= k < |s.workers| :: Holds(s.workers[k]) ==> s.workers[k].i < |j.paths|
  }

  predicate Holds(w: Worker) {
    w != Idle && w != Finished
  }

  /** The next action of worker k. */
  function Step(j: Job, s: State, k: nat): State
    requires Bounds(j, s) && Enabled(s, k)
  {
    var w := j.world;
    match s.workers[k]
    case Idle =>
      if s.next < |j.paths|
      then s.(next := s.next + 1, taken := s.taken + [s.next], workers := s.workers[k := Started(s.next)])
      else s.(workers := s.workers[k := Finished])
    case Started(i) =>
      (match w.stat(j.paths[i])
       case Error(m) => s.(workers := s.workers[k := Ready(i, Error(m))])
       case Ok(info) => s.(workers := s.workers[k := if j.cached then Stated(i, info) else Missed(i, info)]))
    case Stated(i, info) =>
      (match Find(w, s.entries, j.paths[i], info, j.key)
       case Some(ds) => s.(workers := s.workers[k := Ready(i, Ok(ds))])
       case None => s.(workers := s.workers[k := Missed(i, info)]))
    case Missed(i, info) =>
      (match Work(w, j.config, j.paths[i])
       case Ok(ds) => s.(workers := s.workers[k := if j.cached then Linted(i, info, ds) else Ready(i, Ok(ds))])
       case Error(m) => s.(workers := s.workers[k := Ready(i, Error(m))]))
    case Linted(i, info, ds) =>
      s.(workers := s.workers[k := Ready(i, Ok(ds))], entries := Put(w, s.entries, j.paths[i], info, j.key, ds))
    case Ready(i, r) =>
      s.(workers := s.workers[k := Idle], results := s.results[i := Some(r)])
  }

  // ----- what every step keeps -----

  /** What a worker knows about its file is true. */
  ghost predicate Knows(j: Job, w: Worker) {
    Holds(w) ==>
      && w.i < |j.paths|
      && var p := j.paths[w.i];
      match w
      case Stated(_, info) => j.cached && j.world.stat(p) == Ok(info)
      case Missed(_, info) => j.world.stat(p) == Ok(info)
      case Linted(_, info, ds) => j.cached && j.world.stat(p) == Ok(info) && Work(j.world, j.config, p) == Ok(ds)
      case Ready(_, r) => r == Fresh(j.world, j.config, p)
      case _ => true
  }

  /** Worker k holds index i. */
  predicate Has(s: State, k: nat, i: nat)
    requires k < |s.workers|
  {
    Holds(s.workers[k]) && s.workers[k].i == i
  }

  ghost predicate Sound(j: Job, s: State) {
    && Bounds(j, s)
    && |s.taken| == s.next && (forall i | 0 <= i < s.next :: s.taken[i] == i)
    && (forall k | 0 <= k < |s.workers| :: Knows(j, s.workers[k]))
    && (forall k | 0 <= k < |s.workers| && Holds(s.workers[k]) ::
          s.workers[k].i < s.next && s.results[s.workers[k].i].None?)
    && (forall k, m | 0 <= k < m < |s.workers| :: Apart(s.workers[k], s.workers[m]))
    && (forall i | 0 <= i < |s.results| && s.results[i].Some? ::
          s.results[i].value == Fresh(j.world, j.config, j.paths[i]))
    && (forall i | s.next <= i < |s.results| :: s.results[i].None?)
    && (forall i | 0 <= i < s.next :: s.results[i].Some? || exists k | 0 <= k < |s.workers| :: Has(s, k, i))
    && (forall k | 0 <= k < |s.workers| :: s.workers[k] == Finished ==> s.next == |j.paths|)
  }

  /** No index is held twice. */
  predicate Apart(a: Worker, b: Worker) {
    Holds(a) && Holds(b) ==> a.i != b.i
  }

  /** The cache stays honest. */
  ghost predicate CacheFits(j: Job, s: State) {
    j.cached ==> Honest(j.world, s.entries, j.paths)
  }

  ghost predicate Fits(j: Job) {
    Normalizes(j.config, j.key) && (j.cached ==> OneSpelling(j.world, j.config, j.paths))
  }

  lemma StartIsSound(j: Job, jobs: nat, entries: Entries)
    ensures Sound(j, Start(j, jobs, entries))
  {
  }

  /** A worker moves from one state that holds index i to another. */
  lemma Move(j: Job, s: State, k: nat, w: Worker)
    requires Sound(j, s) && Enabled(s, k) && Holds(s.workers[k]) && Holds(w) && w.i == s.workers[k].i && Knows(j, w)
    ensures Sound(j, s.(workers := s.workers[k := w]))
  {
    hide Knows;
    var r := s.(workers := s.workers[k := w]);
    forall i | 0 <= i < r.next
      ensures r.results[i].Some? || exists m | 0 <= m < |r.workers| :: Has(r, m, i)
    {
      if s.results[i].None? {
        var m :| 0 <= m < |s.workers| && Has(s, m, i);
        assert Has(r, m, i);
      }
    }
    forall a, b | 0 <= a < b < |r.workers|
      ensures Apart(r.workers[a], r.workers[b])
    {
      assert Apart(s.workers[a], s.workers[b]);
    }
  }

  lemma Take(j: Job, s: State, k: nat)
    requires Sound(j, s) && Enabled(s, k) && s.workers[k] == Idle
    ensures Sound(j, Step(j, s, k))
  {
    var r := Step(j, s, k);
    forall i | 0 <= i < r.next
      ensures r.results[i].Some? || exists m | 0 <= m < |r.workers| :: Has(r, m, i)
    {
      if i == s.next {
        assert Has(r, k, i);
      } else if s.results[i].None? {
        var m :| 0 <= m < |s.workers| && Has(s, m, i);
        assert Has(r, m, i);
      }
    }
    forall a, b | 0 <= a < b < |r.workers|
      ensures Apart(r.workers[a], r.workers[b])
    {
      assert Apart(s.workers[a], s.workers[b]);
    }
  }

  lemma Write(j: Job, s: State, k: nat)
    requires Sound(j, s) && Enabled(s, k) && s.workers[k].Ready?
    ensures Sound(j, Step(j, s, k))
  {
    var r := Step(j, s, k);
    var at := s.workers[k].i;
    assert Knows(j, s.workers[k]);
    hide Knows, Fresh;
    forall m | 0 <= m < |r.workers|
      ensures Knows(j, r.workers[m])
      ensures Holds(r.workers[m]) ==> r.workers[m].i < r.next && r.results[r.workers[m].i].None?
    {
      if m != k {
        assert if m < k then Apart(s.workers[m], s.workers[k]) else Apart(s.workers[k], s.workers[m]);
      } else {
        IdleKnows(j);
      }
    }
    forall i | 0 <= i < r.next
      ensures r.results[i].Some? || exists m | 0 <= m < |r.workers| :: Has(r, m, i)
    {
      if i != at && s.results[i].None? {
        var m :| 0 <= m < |s.workers| && Has(s, m, i);
        assert Has(r, m, i);
      }
    }
    forall a, b | 0 <= a < b < |r.workers|
      ensures Apart(r.workers[a], r.workers[b])
    {
      assert Apart(s.workers[a], s.workers[b]);
    }
  }

  lemma IdleKnows(j: Job)
    ensures Knows(j, Idle)
  {
  }

  /** Every step of every worker keeps the pool sound and the cache honest. */
  lemma StepKeeps(j: Job, s: State, k: nat)
    requires Fits(j) && Sound(j, s) && CacheFits(j, s) && Enabled(s, k)
    ensures Sound(j, Step(j, s, k)) && CacheFits(j, Step(j, s, k))
  {
    hide Sound, Honest, OneSpelling, Normalizes;
    assert Bounds(j, s) && Knows(j, s.workers[k]) by { SoundParts(j, s, k); }
    var w := s.workers[k];
    if w == Idle {
      Take(j, s, k);
    } else if w.Ready? {
      Write(j, s, k);
    } else {
      var p := j.paths[w.i];
      var r := Step(j, s, k);
      if w.Stated? {
        FoundIsFresh(j.world, s.entries, j.paths, j.config, j.key, p, w.info);
      } else if w.Linted? {
        PutIsHonest(j.world, s.entries, j.paths, j.config, j.key, p, w.info, w.ds);
      }
      assert Knows(j, r.workers[k]);
      Move(j, s, k, r.workers[k]);
      if w.Linted? {
        EntriesApart(j, s.(workers := r.workers), r.entries);
      }
    }
  }

  lemma SoundParts(j: Job, s: State, k: nat)
    requires Sound(j, s) && k < |s.workers|
    ensures Bounds(j, s) && Knows(j, s.workers[k])
  {
    hide Knows;
  }

  lemma EntriesApart(j: Job, s: State, es: Entries)
    requires Sound(j, s)
    ensures Sound(j, s.(entries := es))
  {
    hide Knows, Fresh;
    var r := s.(entries := es);
    forall i | 0 <= i < r.next
      ensures r.results[i].Some? || exists m | 0 <= m < |r.workers| :: Has(r, m, i)
    {
      if s.results[i].None? {
        var m :| 0 <= m < |s.workers| && Has(s, m, i);
        assert Has(r, m, i);
      }
    }
  }

  // ----- whole runs -----

  /** The state after a sequence of steps; each number is the worker that moves. */
  ghost predicate Run(j: Job, s: State, schedule: seq<nat>, t: State)
    decreases schedule
  {
    if schedule == [] then t == s
    else Bounds(j, s) && Enabled(s, schedule[0]) && Run(j, Step(j, s, schedule[0]), schedule[1..], t)
  }

  lemma {:induction false} RunKeeps(j: Job, s: State, schedule: seq<nat>, t: State)
    requires Fits(j) && Sound(j, s) && CacheFits(j, s) && Run(j, s, schedule, t)
    ensures Sound(j, t) && CacheFits(j, t)
    decreases schedule
  {
    hide Sound, CacheFits, Fits, Step;
    if schedule != [] {
      StepKeeps(j, s, schedule[0]);
      RunKeeps(j, Step(j, s, schedule[0]), schedule[1..], t);
    }
  }

  predicate Done(s: State) {
    forall k | 0 <= k < |s.workers| :: s.workers[k] == Finished
  }

  /** When all workers of any run have finished, every slot holds what a serial run without a cache
      reports for its path, every index was taken exactly once, and the cache is still honest. */
  lemma EveryInterleaving(j: Job, jobs: nat, entries: Entries, schedule: seq<nat>, t: State)
    requires Fits(j) && (j.cached ==> Honest(j.world, entries, j.paths)) && jobs > 0
    requires Run(j, Start(j, jobs, entries), schedule, t) && Done(t)
    ensures |t.results| == |j.paths|
    ensures forall i | 0 <= i < |j.paths| :: t.results[i] == Some(Fresh(j.world, j.config, j.paths[i]))
    ensures |t.taken| == |j.paths| && forall i | 0 <= i < |j.paths| :: t.taken[i] == i
    ensures j.cached ==> Honest(j.world, t.entries, j.paths)
  {
    hide Honest, Fresh, Step, Fits;
    StartIsSound(j, jobs, entries);
    RunKeeps(j, Start(j, jobs, entries), schedule, t);
    SameWorkers(j, Start(j, jobs, entries), schedule, t);
    assert t.workers[0] == Finished;
    forall i | 0 <= i < |j.paths|
      ensures t.results[i].Some?
    {
      assert forall k | 0 <= k < |t.workers| :: !Has(t, k, i);
    }
  }

  /** A finished pool of the size that LintFiles chooses. */
  ghost predicate Pool(j: Job, asked: int, processors: nat, entries: Entries, schedule: seq<nat>, t: State) {
    && (j.cached ==> Honest(j.world, entries, j.paths))
    && Run(j, Start(j, Jobs(asked, processors, |j.paths|), entries), schedule, t) && Done(t)
  }

  /** Whatever the number of jobs asked for, the processors, the order of the steps, and the cache that
      a run starts from, if it has one: the results are the same. */
  lemma SameResults(j: Job, asked: int, processors: nat, entries: Entries, schedule: seq<nat>, t: State,
                    j': Job, asked': int, processors': nat, entries': Entries, schedule': seq<nat>, t': State)
    requires Fits(j) && Fits(j') && j' == j.(cached := j'.cached) && j.paths != [] && processors > 0 && processors' > 0
    requires Pool(j, asked, processors, entries, schedule, t) && Pool(j', asked', processors', entries', schedule', t')
    ensures t.results == t'.results
  {
    hide Honest, Fresh, Run, OneSpelling, Normalizes;
    EveryInterleaving(j, Jobs(asked, processors, |j.paths|), entries, schedule, t);
    EveryInterleaving(j', Jobs(asked', processors', |j'.paths|), entries', schedule', t');
  }

  lemma {:induction false} SameWorkers(j: Job, s: State, schedule: seq<nat>, t: State)
    requires Run(j, s, schedule, t)
    ensures |t.workers| == |s.workers|
    decreases schedule
  {
    if schedule != [] {
      SameWorkers(j, Step(j, s, schedule[0]), schedule[1..], t);
    }
  }

  // ----- no run goes on for ever, and none gets stuck -----

  /** Steps that a worker may still take with what it holds. */
  function Left(w: Worker): nat {
    match w
    case Finished => 0
    case Idle => 1
    case Ready(_, _) => 2
    case Linted(_, _, _) => 3
    case Missed(_, _) => 4
    case Stated(_, _) => 5
    case Started(_) => 6
  }

  function Sum(ws: seq<Worker>): nat {
    if ws == [] then 0 else Left(ws[0]) + Sum(ws[1..])
  }

  function Measure(j: Job, s: State): nat
    requires Bounds(j, s)
  {
    6 * (|j.paths| - s.next) + Sum(s.workers)
  }

  lemma {:induction false} SumUpdate(ws: seq<Worker>, k: nat, w: Worker)
    requires k < |ws|
    ensures Sum(ws[k := w]) == Sum(ws) - Left(ws[k]) + Left(w)
    decreases ws
  {
    if k == 0 {
      assert ws[0 := w][1..] == ws[1..];
    } else {
      assert ws[k := w][1..] == ws[1..][k - 1 := w];
      SumUpdate(ws[1..], k - 1, w);
    }
  }

  lemma {:induction false} SumIdle(jobs: nat)
    ensures Sum(seq(jobs, _ => Idle)) == jobs
    decreases jobs
  {
    if jobs > 0 {
      assert seq(jobs, _ => Idle)[1..] == seq(jobs - 1, _ => Idle);
      SumIdle(jobs - 1);
    }
  }

  lemma StepShrinks(j: Job, s: State, k: nat)
    requires Bounds(j, s) && Enabled(s, k)
    ensures Bounds(j, Step(j, s, k)) && Measure(j, Step(j, s, k)) < Measure(j, s)
  {
    hide Find, Put, Work;
    SumUpdate(s.workers, k, Step(j, s, k).workers[k]);
    assert Step(j, s, k).workers == s.workers[k := Step(j, s, k).workers[k]];
  }

  lemma {:induction false} RunShrinks(j: Job, s: State, schedule: seq<nat>, t: State)
    requires Bounds(j, s) && Run(j, s, schedule, t)
    ensures Bounds(j, t) && |schedule| + Measure(j, t) <= Measure(j, s)
    decreases schedule
  {
    hide Step, Measure;
    if schedule != [] {
      StepShrinks(j, s, schedule[0]);
      RunShrinks(j, Step(j, s, schedule[0]), schedule[1..], t);
    }
  }

  /** A run has at most six steps for each file and one for each worker; and while some worker has
      not finished, a worker can move. */
  lemma RunsEnd(j: Job, jobs: nat, entries: Entries, schedule: seq<nat>, t: State)
    requires Run(j, Start(j, jobs, entries), schedule, t)
    ensures |schedule| <= 6 * |j.paths| + jobs
    ensures !Done(t) ==> exists k :: Enabled(t, k)
  {
    hide Step;
    SumIdle(jobs);
    RunShrinks(j, Start(j, jobs, entries), schedule, t);
    if !Done(t) {
      var k :| 0 <= k < |t.workers| && t.workers[k] != Finished;
      assert Enabled(t, k);
    }
  }

  // ----- exactly when every run is right -----

  /** What a run should report. */
  function Report(j: Job): seq<Option<Outcome>> {
    seq(|j.paths|, i requires 0 <= i < |j.paths| => Some(Fresh(j.world, j.config, j.paths[i])))
  }

  /** Every finished run, from every honest cache, reports what a serial run without a cache does. */
  ghost predicate AlwaysFresh(j: Job, jobs: nat) {
    forall entries, schedule, t ::
      (j.cached ==> Honest(j.world, entries, j.paths)) && Run(j, Start(j, jobs, entries), schedule, t) && Done(t) ==>
        t.results == Report(j)
  }

  /** A pool of two workers or more is always right exactly when no two of the listed paths to one file
      are linted differently. */
  lemma AlwaysFreshExactly(j: Job, jobs: nat)
    requires Normalizes(j.config, j.key) && jobs >= 2
    ensures AlwaysFresh(j, jobs) <==> (j.cached ==> OneSpelling(j.world, j.config, j.paths))
  {
    hide Honest, Fresh, Run, OneSpelling, Normalizes;
    if j.cached ==> OneSpelling(j.world, j.config, j.paths) {
      forall entries, schedule, t |
        (j.cached ==> Honest(j.world, entries, j.paths)) && Run(j, Start(j, jobs, entries), schedule, t) && Done(t)
        ensures t.results == Report(j)
      {
        EveryInterleaving(j, jobs, entries, schedule, t);
      }
    } else {
      var schedule, t := Spoiled(j, jobs);
      EmptyIsHonest(j.world, j.paths);
      assert (j.cached ==> Honest(j.world, map[], j.paths)) && Run(j, Start(j, jobs, map[]), schedule, t) && Done(t);
    }
  }

  lemma EmptyIsHonest(w: World, paths: seq<string>)
    ensures Honest(w, map[], paths)
  {
  }

  ghost predicate Reaches(j: Job, s: State, t: State) {
    exists schedule :: Run(j, s, schedule, t)
  }

  lemma ReachesItself(j: Job, s: State)
    ensures Reaches(j, s, s)
  {
    assert Run(j, s, [], s);
  }

  lemma ReachesStep(j: Job, s: State, t: State, k: nat)
    requires Reaches(j, s, t) && Bounds(j, t) && Enabled(t, k)
    ensures Reaches(j, s, Step(j, t, k))
  {
    hide Step, Bounds;
    var schedule :| Run(j, s, schedule, t);
    RunSnoc(j, s, schedule, t, k);
  }

  lemma {:induction false} RunSnoc(j: Job, s: State, schedule: seq<nat>, t: State, k: nat)
    requires Run(j, s, schedule, t) && Bounds(j, t) && Enabled(t, k)
    ensures Run(j, s, schedule + [k], Step(j, t, k))
    decreases schedule
  {
    hide Step, Bounds;
    if schedule == [] {
      assert [k][1..] == [];
      assert [] + [k] == [k];
    } else {
      RunSnoc(j, Step(j, s, schedule[0]), schedule[1..], t, k);
      assert (schedule + [k])[1..] == schedule[1..] + [k];
    }
  }

  /** What does not depend on the cache: a slot that a worker is to write is empty, and no two workers
      are to write one slot. */
  predicate Shape(j: Job, s: State) {
    && Bounds(j, s)
    && (forall k | 0 <= k < |s.workers| && Holds(s.workers[k]) ::
          s.workers[k].i < s.next && s.results[s.workers[k].i].None?)
    && (forall k, m | 0 <= k < m < |s.workers| :: Apart(s.workers[k], s.workers[m]))
    && (forall i | s.next <= i < |s.results| :: s.results[i].None?)
  }

  lemma StartShape(j: Job, jobs: nat, entries: Entries)
    ensures Shape(j, Start(j, jobs, entries))
  {
  }

  /** A step keeps the shape and every slot that has been written. */
  lemma StepShape(j: Job, s: State, k: nat)
    requires Shape(j, s) && Enabled(s, k)
    ensures var r := Step(j, s, k);
            Shape(j, r) && forall i | 0 <= i < |s.results| && s.results[i].Some? :: r.results[i] == s.results[i]
  {
    hide Find, Put, Work;
    var r := Step(j, s, k);
    forall a, b | 0 <= a < b < |r.workers|
      ensures Apart(r.workers[a], r.workers[b])
    {
      assert Apart(s.workers[a], s.workers[b]);
    }
    forall m | 0 <= m < |r.workers| && Holds(r.workers[m])
      ensures r.workers[m].i < r.next && r.results[r.workers[m].i].None?
    {
      if m != k {
        assert if m < k then Apart(s.workers[m], s.workers[k]) else Apart(s.workers[k], s.workers[m]);
      }
    }
  }

  /** Every run can be carried on to its end, and what it has written stays. */
  lemma {:induction false} Finish(j: Job, s: State) returns (t: State)
    requires Shape(j, s)
    ensures Reaches(j, s, t) && Done(t) && |t.results| == |s.results|
    ensures forall i | 0 <= i < |s.results| && s.results[i].Some? :: t.results[i] == s.results[i]
    decreases Measure(j, s)
  {
    hide Shape, Step, Measure, Reaches, Run;
    assert Bounds(j, s) by { ShapeBounds(j, s); }
    if Done(s) {
      t := s;
      ReachesItself(j, s);
    } else {
      var k :| 0 <= k < |s.workers| && s.workers[k] != Finished;
      StepShape(j, s, k);
      StepShrinks(j, s, k);
      var u := Step(j, s, k);
      t := Finish(j, u);
      ReachesFirst(j, s, k, t);
    }
  }

  lemma ShapeBounds(j: Job, s: State)
    requires Shape(j, s)
    ensures Bounds(j, s)
  {
  }

  lemma ReachesFirst(j: Job, s: State, k: nat, t: State)
    requires Bounds(j, s) && Enabled(s, k) && Reaches(j, Step(j, s, k), t)
    ensures Reaches(j, s, t)
  {
    hide Step, Bounds;
    var schedule :| Run(j, Step(j, s, k), schedule, t);
    assert ([k] + schedule)[1..] == schedule;
    assert Run(j, s, [k] + schedule, t);
  }

  lemma {:induction false} ReachesTrans(j: Job, s: State, t: State, u: State)
    requires Reaches(j, s, t) && Reaches(j, t, u)
    ensures Reaches(j, s, u)
  {
    hide Step, Bounds;
    var a :| Run(j, s, a, t);
    var b :| Run(j, t, b, u);
    RunThen(j, s, a, t, b, u);
  }

  lemma {:induction false} RunThen(j: Job, s: State, a: seq<nat>, t: State, b: seq<nat>, u: State)
    requires Run(j, s, a, t) && Run(j, t, b, u)
    ensures Run(j, s, a + b, u)
    decreases a
  {
    hide Step, Bounds;
    if a == [] {
      assert a + b == b;
    } else {
      RunThen(j, Step(j, s, a[0]), a[1..], t, b, u);
      assert (a + b)[1..] == a[1..] + b;
    }
  }

  /** A worker that holds an index goes on, alone, until it has written the slot. */
  lemma {:induction false} RunOut(j: Job, s: State, k: nat) returns (t: State)
    requires Shape(j, s) && k < |s.workers| && Holds(s.workers[k])
    ensures Reaches(j, s, t) && Shape(j, t)
    ensures t.workers == s.workers[k := Idle] && t.next == s.next && |t.results| == |s.results|
    ensures t.results[s.workers[k].i].Some?
    ensures s.workers[k].Ready? ==> t.results[s.workers[k].i] == Some(s.workers[k].r)
    ensures forall i | 0 <= i < |s.results| && s.results[i].Some? :: t.results[i] == s.results[i]
    decreases Left(s.workers[k])
  {
    hide Reaches, Run, Find, Put, Work;
    StepShape(j, s, k);
    var u := Step(j, s, k);
    ReachesItself(j, s);
    ReachesStep(j, s, s, k);
    if s.workers[k].Ready? {
      t := u;
    } else {
      t := RunOut(j, u, k);
      ReachesTrans(j, s, u, t);
      assert u.workers[k := Idle] == s.workers[k := Idle];
    }
  }

  /** An idle worker sees to every index before n and takes n. */
  lemma {:induction false} TakeUpTo(j: Job, s: State, k: nat, n: nat) returns (t: State)
    requires Shape(j, s) && k < |s.workers| && s.workers[k] == Idle && s.next <= n < |j.paths|
    ensures Reaches(j, s, t) && Shape(j, t)
    ensures t.workers == s.workers[k := Started(n)] && t.next == n + 1
    decreases n - s.next
  {
    hide Reaches, Run, Shape;
    ShapeBounds(j, s);
    StepShape(j, s, k);
    var u := Step(j, s, k);
    ReachesItself(j, s);
    ReachesStep(j, s, s, k);
    if s.next == n {
      t := u;
    } else {
      var v := RunOut(j, u, k);
      assert v.workers == s.workers;
      t := TakeUpTo(j, v, k, n);
      ReachesTrans(j, s, u, v);
      ReachesTrans(j, s, v, t);
    }
  }

  /** Two workers hold two paths to one file, the first of which can be linted: one after the other, they
      come to report the same. */
  lemma Infect(j: Job, s: State, x: nat, y: nat) returns (t: State, ds: seq<Diagnostic>)
    requires Shape(j, s) && j.cached && x < |s.workers| && y < |s.workers| && x != y
    requires s.workers[x].Started? && s.workers[y].Started?
    requires var p, q := j.paths[s.workers[x].i], j.paths[s.workers[y].i];
             SameFile(j.world, p, q) && Work(j.world, j.config, p).Ok?
    ensures Reaches(j, s, t) && Shape(j, t)
    ensures t.workers == s.workers[x := Ready(s.workers[x].i, Ok(ds))][y := Ready(s.workers[y].i, Ok(ds))]
  {
    hide Reaches, Run, Shape, Work;
    var a, b := s.workers[x].i, s.workers[y].i;
    ShapeBounds(j, s);
    var info := j.world.stat(j.paths[a]).value;
    var u;
    u, ds := Served(j, s, x);
    ShapeBounds(j, u);
    StepShape(j, u, y);
    ReachesStep(j, s, u, y);
    var v := Step(j, u, y);
    ShapeBounds(j, v);
    assert v.workers[y] == Stated(b, info) && v.entries == u.entries;
    StepShape(j, v, y);
    ReachesStep(j, s, v, y);
    t := Step(j, v, y);
  }

  /** A worker that has taken a path that can be linted comes to a result that the cache then holds. */
  lemma Served(j: Job, s: State, x: nat) returns (t: State, ds: seq<Diagnostic>)
    requires Shape(j, s) && j.cached && x < |s.workers| && s.workers[x].Started?
    requires var p := j.paths[s.workers[x].i];
             j.world.abs(p).Some? && j.world.stat(p).Ok? && Work(j.world, j.config, p).Ok?
    ensures Reaches(j, s, t) && Shape(j, t) && t.workers == s.workers[x := Ready(s.workers[x].i, Ok(ds))]
    ensures var p := j.paths[s.workers[x].i];
            Find(j.world, t.entries, p, j.world.stat(p).value, j.key) == Some(ds)
  {
    hide Reaches, Run, Shape, Work;
    ShapeBounds(j, s);
    var a := s.workers[x].i;
    var p := j.paths[a];
    ReachesItself(j, s);
    StepShape(j, s, x);
    ReachesStep(j, s, s, x);
    var u := Step(j, s, x);
    ShapeBounds(j, u);
    StepShape(j, u, x);
    ReachesStep(j, s, u, x);
    var v := Step(j, u, x);
    if v.workers[x].Ready? {
      t, ds := v, v.workers[x].r.value;
    } else {
      ShapeBounds(j, v);
      StepShape(j, v, x);
      ReachesStep(j, s, v, x);
      var w := Step(j, v, x);
      ShapeBounds(j, w);
      StepShape(j, w, x);
      ReachesStep(j, s, w, x);
      t, ds := Step(j, w, x), w.workers[x].ds;
    }
  }

  /** Two paths to one file that are linted differently: from an empty cache, two workers can be so
      scheduled that one of the two slots is wrong. */
  lemma Spoiled(j: Job, jobs: nat) returns (schedule: seq<nat>, t: State)
    requires j.cached && jobs >= 2 && !OneSpelling(j.world, j.config, j.paths)
    ensures Run(j, Start(j, jobs, map[]), schedule, t) && Done(t) && t.results != Report(j)
  {
    hide Reaches, Run, Shape, Work;
    var p, q :| p in j.paths && q in j.paths && SameFile(j.world, p, q) && Work(j.world, j.config, p).Ok?
      && Work(j.world, j.config, q) != Work(j.world, j.config, p);
    var a :| 0 <= a < |j.paths| && j.paths[a] == p;
    var b :| 0 <= b < |j.paths| && j.paths[b] == q;
    var s := Start(j, jobs, map[]);
    StartShape(j, jobs, map[]);
    var x, y := if a < b then 0 else 1, if a < b then 1 else 0;
    var u := TakeUpTo(j, s, 0, if a < b then a else b);
    var v := TakeUpTo(j, u, 1, if a < b then b else a);
    ReachesTrans(j, s, u, v);
    var w, ds := Infect(j, v, x, y);
    ReachesTrans(j, s, v, w);
    ShapeBounds(j, w);
    var w1 := RunOut(j, w, x);
    ReachesTrans(j, s, w, w1);
    var w2 := RunOut(j, w1, y);
    ReachesTrans(j, s, w1, w2);
    ShapeBounds(j, w1);
    ShapeBounds(j, w2);
    assert w2.results[a] == Some(Ok(ds)) && w2.results[b] == Some(Ok(ds));
    t := Finish(j, w2);
    ReachesTrans(j, s, w2, t);
    schedule := Scheduled(j, s, t);
    assert t.results[a] == Some(Ok(ds)) && t.results[b] == Some(Ok(ds));
    assert Report(j)[a] == Some(Work(j.world, j.config, p)) && Report(j)[b] == Some(Work(j.world, j.config, q));
  }

  lemma Scheduled(j: Job, s: State, t: State) returns (schedule: seq<nat>)
    requires Reaches(j, s, t)
    ensures Run(j, s, schedule, t)
  {
    schedule :| Run(j, s, schedule, t);
  }

  lemma FilterOne(w: World, c: Config, p: string, d: Diagnostic)
    ensures Filter(w, c, p, [d]) == if EnabledFor(c, w.matches, p, d.code) then [d] else []
  {
    assert [d][1..] == [];
    assert Filter(w, c, p, []) == [];
    assert [d] + [] == [d];
  }

  /** Two spellings of one file that a per-file pattern tells apart: there is a run of two workers in which
      the result stored for the one is reported for the other. */
  lemma TwoSpellings() returns (j: Job, schedule: seq<nat>, t: State)
    ensures j.paths == ["f", "./f"] && Normalizes(j.config, j.key)
    ensures Run(j, Start(j, 2, map[]), schedule, t) && Done(t) && t.results != Report(j)
  {
    var d := Diagnostic("F401", "");
    var w := World(_ => Ok(Info(0, 0)), _ => Ok(""), (_, _) => Ok([d]), _ => Some("/f"),
      (g: string, p: string) => g == p);
    var per: map<string, seq<string>> := map["./f" := ["F401"]];
    var c, k := Config([], [], per), Key([], [], per);
    j := Job(w, c, k, ["f", "./f"], true);
    assert ContainsCode(per["./f"], "F401") by { assert per["./f"][0] == "F401"; }
    assert EnabledFor(c, w.matches, "f", "F401") by {
      assert "f" != "./f" by { assert |"f"| != |"./f"|; }
    }
    assert !EnabledFor(c, w.matches, "./f", "F401");
    FilterOne(w, c, "f", d);
    FilterOne(w, c, "./f", d);
    assert Work(w, c, "f") == Ok([d]) && Work(w, c, "./f") == Ok([]);
    assert j.paths[0] == "f" && j.paths[1] == "./f";
    assert SameFile(w, "f", "./f");
    schedule, t := Spoiled(j, 2);
  }
}
