/**
 Test selection for a change: the worklist closure over the importer relation, the rules that
 map a changed path to test modules, and the selection built from them.

 The meaning is given by reachability; the loops are proved to compute it, and the promises of
 the selection (it only grows with the change, with the graph, and with the tier; it never runs
 the harness's own tests; it accounts for every guarded path) are lemmas about that meaning.
 */
module LocalSelection {
  import opened Prelude
  import opened Sorting

  type Path = string
  type Module = string

  /** What was read from the tree; `mentions` gives the modules whose string literals name a file. */
  datatype Graph = Graph(
    paths: map<Module, Path>,
    importers: map<Module, set<Module>>,
    mentions: map<Path, set<Module>>,
    evidence: map<Path, set<Path>>)

  /** The fixed classifications of paths, and the test modules the tree holds. */
  datatype Rules = Rules(
    moduleName: Path -> Option<Module>,
    isTest: Path -> bool,
    broad: Path -> bool,
    guarded: Path -> bool,
    present: set<Path>,
    units: set<Path>,
    slow: set<Path>,
    harness: set<Path>)

  function Lookup<K, V>(m: map<K, set<V>>, k: K): set<V> {
    if k in m then m[k] else {}
  }

  // ---------------------------------------------------------------- closure

  /** A chain of modules, each imported by the next. */
  ghost predicate Chain(g: Graph, chain: seq<Module>) {
    chain != [] && forall i :: 0 <= i < |chain| - 1 ==> chain[i + 1] in Lookup(g.importers, chain[i])
  }

  ghost predicate Reaches(g: Graph, starts: set<Module>, m: Module) {
    exists chain :: Chain(g, chain) && chain[0] in starts && chain[|chain| - 1] == m
  }

  /** Everything importable at all, so that closures are finite. */
  ghost function Universe(g: Graph): set<Module> {
    set k, m | k in g.importers && m in g.importers[k] :: m
  }

  ghost function Closure(g: Graph, starts: set<Module>): set<Module> {
    set m | m in starts + Universe(g) && Reaches(g, starts, m)
  }

  lemma ReachesInUniverse(g: Graph, starts: set<Module>, m: Module)
    requires Reaches(g, starts, m)
    ensures m in starts + Universe(g)
  {
    var chain :| Chain(g, chain) && chain[0] in starts && chain[|chain| - 1] == m;
    if |chain| > 1 {
      var previous := chain[|chain| - 2];
      assert chain[|chain| - 2 + 1] in Lookup(g.importers, previous);
      assert m in g.importers[previous];
    }
  }

  lemma StartReaches(g: Graph, starts: set<Module>, m: Module)
    requires m in starts
    ensures Reaches(g, starts, m)
  {
    assert Chain(g, [m]);
  }

  lemma ImporterReaches(g: Graph, starts: set<Module>, m: Module, importer: Module)
    requires Reaches(g, starts, m) && importer in Lookup(g.importers, m)
    ensures Reaches(g, starts, importer)
  {
    var chain :| Chain(g, chain) && chain[0] in starts && chain[|chain| - 1] == m;
    var longer := chain + [importer];
    forall i | 0 <= i < |longer| - 1
      ensures longer[i + 1] in Lookup(g.importers, longer[i])
    {
      if i < |chain| - 1 {
        assert chain[i + 1] in Lookup(g.importers, chain[i]);
      }
    }
    assert Chain(g, longer) && longer[0] in starts && longer[|longer| - 1] == importer;
  }

  ghost predicate ClosedUnder(g: Graph, s: set<Module>) {
    forall m :: m in s ==> Lookup(g.importers, m) <= s
  }

  /** A set that holds the first module of a chain, and every importer of its members, holds the last. */
  lemma {:induction false} ClosedHoldsChain(g: Graph, closed: set<Module>, chain: seq<Module>)
    requires ClosedUnder(g, closed)
    requires Chain(g, chain) && chain[0] in closed
    ensures chain[|chain| - 1] in closed
    decreases |chain|
  {
    if |chain| > 1 {
      assert chain[0 + 1] in Lookup(g.importers, chain[0]);
      var rest := chain[1..];
      forall i | 0 <= i < |rest| - 1
        ensures rest[i + 1] in Lookup(g.importers, rest[i])
      {
        assert chain[i + 1 + 1] in Lookup(g.importers, chain[i + 1]);
      }
      ClosedHoldsChain(g, closed, rest);
    }
  }

  lemma ClosedHoldsReached(g: Graph, closed: set<Module>, starts: set<Module>, m: Module)
    requires ClosedUnder(g, closed)
    requires starts <= closed && Reaches(g, starts, m)
    ensures m in closed
  {
    var chain :| Chain(g, chain) && chain[0] in starts && chain[|chain| - 1] == m;
    ClosedHoldsChain(g, closed, chain);
  }

  lemma ClosureIsClosed(g: Graph, starts: set<Module>)
    ensures starts <= Closure(g, starts)
    ensures ClosedUnder(g, Closure(g, starts))
  {
    forall m | m in starts
      ensures m in Closure(g, starts)
    {
      StartReaches(g, starts, m);
    }
    forall m, n | m in Closure(g, starts) && n in Lookup(g.importers, m)
      ensures n in Closure(g, starts)
    {
      ImporterReaches(g, starts, m, n);
      ReachesInUniverse(g, starts, n);
    }
  }

  /** The least closed set over the starts. */
  lemma ClosureIsLeast(g: Graph, starts: set<Module>, closed: set<Module>)
    requires ClosedUnder(g, closed)
    requires starts <= closed
    ensures Closure(g, starts) <= closed
  {
    forall m | m in Closure(g, starts)
      ensures m in closed
    {
      ClosedHoldsReached(g, closed, starts, m);
    }
  }

  /** One popped module: its importers not seen before are seen now, and wait on the stack. */
  method Visit(importers: set<Module>, seen: set<Module>, stack: seq<Module>) returns (seen': set<Module>, stack': seq<Module>)
    ensures seen' == seen + importers && stack <= stack'
    ensures forall m :: m in stack' <==> m in stack || (m in importers && m !in seen)
    ensures seen' == seen ==> stack' == stack
  {
    var listed := ListOf(importers);
    seen', stack' := seen, stack;
    for i := 0 to |listed|
      invariant seen <= seen' <= seen + importers && stack <= stack'
      invariant forall k :: 0 <= k < i ==> listed[k] in seen'
      invariant forall m :: m in stack' <==> m in stack || (m in seen' && m !in seen)
      invariant seen' == seen ==> stack' == stack
    {
      if listed[i] !in seen' {
        seen' := seen' + {listed[i]};
        stack' := stack' + [listed[i]];
      }
    }
  }

  /** The worklist itself; `bound` is any closed set around the starts, and shows that it ends. */
  method Saturate(g: Graph, starts: set<Module>, ghost bound: set<Module>) returns (seen: set<Module>)
    requires starts <= bound && ClosedUnder(g, bound)
    ensures starts <= seen <= bound && ClosedUnder(g, seen)
  {
    var stack := ListOf(starts);
    seen := starts;
    while stack != []
      invariant starts <= seen <= bound
      invariant forall m :: m in stack ==> m in seen
      invariant forall m :: m in seen && m !in stack ==> Lookup(g.importers, m) <= seen
      decreases bound - seen, |stack|
    {
      var popped, rest := stack[|stack| - 1], stack[..|stack| - 1];
      assert forall m :: m in stack <==> m in rest || m == popped;
      seen, stack := Visit(Lookup(g.importers, popped), seen, rest);
    }
  }

  /** `_closure`: exactly the modules that import a start, however indirectly. */
  method ImportClosure(g: Graph, starts: set<Module>) returns (seen: set<Module>)
    ensures seen == Closure(g, starts)
  {
    ClosureIsClosed(g, starts);
    seen := Saturate(g, starts, Closure(g, starts));
    ClosureIsLeast(g, starts, seen);
  }

  /** Membership in the closure is reachability, with no bound on the distance. */
  lemma ClosureIsReachability(g: Graph, starts: set<Module>, m: Module)
    ensures m in Closure(g, starts) <==> Reaches(g, starts, m)
  {
    if Reaches(g, starts, m) {
      ReachesInUniverse(g, starts, m);
    }
  }

  // ---------------------------------------------------------------- the tests of one path

  /** The modules that import the changed file, itself included when it is one. */
  ghost function Affected(g: Graph, r: Rules, path: Path): set<Module> {
    if r.moduleName(path).Some? then Closure(g, {r.moduleName(path).value}) else {}
  }

  function Files(g: Graph, modules: set<Module>): set<Path> {
    set m | m in modules && m in g.paths :: g.paths[m]
  }

  function Mentioning(g: Graph, files: set<Path>): set<Module> {
    set f, m | f in files && m in Lookup(g.mentions, f) :: m
  }

  /** Importers of the change, and importers of whatever names an affected file. */
  ghost function Exercising(g: Graph, path: Path, affected: set<Module>): set<Module> {
    affected + Closure(g, Mentioning(g, {path} + Files(g, affected)))
  }

  function TestFiles(g: Graph, r: Rules, modules: set<Module>): set<Path> {
    set m | m in modules && m in g.paths && r.isTest(g.paths[m]) :: g.paths[m]
  }

  ghost function TestsFor(g: Graph, r: Rules, path: Path): set<Path> {
    TestFiles(g, r, Exercising(g, path, Affected(g, r, path))) + Lookup(g.evidence, path)
  }

  ghost function ImportingTests(g: Graph, r: Rules, m: Module): set<Path> {
    TestFiles(g, r, Closure(g, {m}))
  }

  /** `tests_for`. */
  method FindTests(g: Graph, r: Rules, path: Path) returns (found: set<Path>)
    ensures found == TestsFor(g, r, path)
  {
    var affected: set<Module> := {};
    if r.moduleName(path).Some? {
      affected := ImportClosure(g, {r.moduleName(path).value});
    }
    var files := {path} + Files(g, affected);
    var referencing := Mentioning(g, files);
    var indirect := ImportClosure(g, referencing);
    found := TestFiles(g, r, affected + indirect) + Lookup(g.evidence, path);
  }

  /** More starts reach more, in a graph with more edges. */
  lemma ClosureMonotone(g: Graph, h: Graph, starts: set<Module>, more: set<Module>)
    requires starts <= more
    requires forall m :: Lookup(g.importers, m) <= Lookup(h.importers, m)
    ensures Closure(g, starts) <= Closure(h, more)
  {
    ClosureIsClosed(h, more);
    ClosureIsLeast(g, starts, Closure(h, more));
  }

  lemma MentioningMonotone(g: Graph, h: Graph, files: set<Path>, more: set<Path>)
    requires files <= more && forall f :: Lookup(g.mentions, f) <= Lookup(h.mentions, f)
    ensures Mentioning(g, files) <= Mentioning(h, more)
  {
  }

  lemma ExercisingMonotone(g: Graph, h: Graph, p: Path, q: Path, affected: set<Module>, more: set<Module>)
    requires Extends(g, h) && affected <= more && p in {q} + Files(h, more)
    ensures Exercising(g, p, affected) <= Exercising(h, q, more)
  {
    var files, wider := {p} + Files(g, affected), {q} + Files(h, more);
    MentioningMonotone(g, h, files, wider);
    ClosureMonotone(g, h, Mentioning(g, files), Mentioning(h, wider));
  }

  /** A graph with more edges, references and evidence over the same files. */
  ghost predicate Extends(g: Graph, h: Graph) {
    && g.paths == h.paths
    && (forall m :: Lookup(g.importers, m) <= Lookup(h.importers, m))
    && (forall f :: Lookup(g.mentions, f) <= Lookup(h.mentions, f))
    && (forall f :: Lookup(g.evidence, f) <= Lookup(h.evidence, f))
  }

  /** Every rule only adds tests: no import, reference or contract row can make a test drop out. */
  lemma RulesOnlyAdd(g: Graph, h: Graph, r: Rules, path: Path)
    requires Extends(g, h)
    ensures TestsFor(g, r, path) <= TestsFor(h, r, path)
  {
    if r.moduleName(path).Some? {
      ClosureMonotone(g, h, {r.moduleName(path).value}, {r.moduleName(path).value});
    }
    ExercisingMonotone(g, h, path, path, Affected(g, r, path), Affected(h, r, path));
  }

  /** A test module that imports the changed module, at any distance, is selected for it. */
  lemma ImportersAreSelected(g: Graph, r: Rules, path: Path, m: Module)
    requires r.moduleName(path) == Some(m)
    ensures ImportingTests(g, r, m) <= TestsFor(g, r, path)
  {
  }

  /**
   Selection follows imports: what a file importing the change would select by itself, contract
   evidence aside, is selected for the change.
   */
  lemma SelectionFollowsImports(g: Graph, r: Rules, path: Path, m: Module, file: Path, n: Module)
    requires r.moduleName(path) == Some(m) && r.moduleName(file) == Some(n)
    requires Reaches(g, {m}, n) && n in g.paths && g.paths[n] == file
    ensures TestsFor(g, r, file) - Lookup(g.evidence, file) <= TestsFor(g, r, path)
  {
    ClosureIsClosed(g, {m});
    ClosureIsReachability(g, {m}, n);
    ClosureIsLeast(g, {n}, Closure(g, {m}));
    ExercisingMonotone(g, g, file, path, Closure(g, {n}), Closure(g, {m}));
  }

  // ---------------------------------------------------------------- the selection

  datatype Selection = Selection(
    t2: bool, tests: seq<Path>, reasons: map<Path, set<Path>>, broad: seq<Path>, unmapped: seq<Path>, harness: seq<Path>)

  /** The changed paths that do not call for the higher tier. */
  ghost function Narrow(r: Rules, changed: set<Path>): set<Path> {
    set p | p in changed && !r.broad(p)
  }

  /** The changed paths that select a test by the static rules. */
  ghost function ReasonsOf(g: Graph, r: Rules, changed: set<Path>, test: Path): set<Path> {
    set p | p in Narrow(r, changed) && test in TestsFor(g, r, p)
  }

  ghost function Mapped(g: Graph, r: Rules, changed: set<Path>): set<Path> {
    set p, t | p in Narrow(r, changed) && t in TestsFor(g, r, p) :: t
  }

  ghost predicate Escalates(r: Rules, changed: set<Path>, forceT2: bool) {
    forceT2 || exists p :: p in changed && r.broad(p)
  }

  ghost function Selected(g: Graph, r: Rules, changed: set<Path>, forceT2: bool): set<Path> {
    Mapped(g, r, changed) - r.harness
    + if Escalates(r, changed, forceT2) then r.units - r.slow - r.harness else {}
  }

  ghost predicate HarnessOnly(g: Graph, r: Rules, p: Path) {
    !r.broad(p) && TestsFor(g, r, p) != {} && TestsFor(g, r, p) <= r.harness
  }

  ghost predicate Unmapped(g: Graph, r: Rules, p: Path) {
    !r.broad(p) && TestsFor(g, r, p) == {} && p in r.present && r.guarded(p)
  }

  ghost function BroadOf(r: Rules, changed: set<Path>): set<Path> {
    set p | p in changed && r.broad(p)
  }

  ghost function UnmappedOf(g: Graph, r: Rules, changed: set<Path>): set<Path> {
    set p | p in changed && Unmapped(g, r, p)
  }

  ghost function HarnessOf(g: Graph, r: Rules, changed: set<Path>): set<Path> {
    set p | p in changed && HarnessOnly(g, r, p)
  }

  ghost predicate Explains(g: Graph, r: Rules, changed: set<Path>, reasons: map<Path, set<Path>>) {
    && reasons.Keys == Mapped(g, r, changed)
    && forall t :: t in reasons ==> reasons[t] == ReasonsOf(g, r, changed, t)
  }

  function WithoutHarness(r: Rules, reasons: map<Path, set<Path>>): map<Path, set<Path>> {
    map t | t in reasons && t !in r.harness :: reasons[t]
  }

  /** Each mapped test with the changed paths that map to it. */
  ghost function Reasons(g: Graph, r: Rules, changed: set<Path>): map<Path, set<Path>> {
    map t | t in Mapped(g, r, changed) :: ReasonsOf(g, r, changed, t)
  }

  /** What a selection must be for a set of changed paths. */
  ghost predicate Selects(g: Graph, r: Rules, changed: set<Path>, forceT2: bool, s: Selection) {
    && s.t2 == Escalates(r, changed, forceT2)
    && Enumerates(s.tests, Selected(g, r, changed, forceT2))
    && s.reasons == WithoutHarness(r, Reasons(g, r, changed))
    && Enumerates(s.broad, BroadOf(r, changed))
    && Enumerates(s.unmapped, UnmappedOf(g, r, changed))
    && Enumerates(s.harness, HarnessOf(g, r, changed))
  }

  /** `reasons[test].add(path)` for every test hit. */
  method AddReasons(reasons: map<Path, set<Path>>, hits: set<Path>, path: Path) returns (more: map<Path, set<Path>>)
    ensures more.Keys == reasons.Keys + hits
    ensures forall t :: t in more ==> more[t] == Lookup(reasons, t) + if t in hits then {path} else {}
  {
    more := reasons;
    var rest := hits;
    while rest != {}
      invariant rest <= hits && more.Keys == reasons.Keys + (hits - rest)
      invariant forall t :: t in more ==> more[t] == Lookup(reasons, t) + if t in hits - rest then {path} else {}
    {
      var test :| test in rest;
      more := more[test := Lookup(more, test) + {path}];
      rest := rest - {test};
    }
  }

  lemma ReasonStep(g: Graph, r: Rules, before: set<Path>, path: Path, t: Path)
    requires !r.broad(path)
    ensures ReasonsOf(g, r, before + {path}, t) == ReasonsOf(g, r, before, t) + if t in TestsFor(g, r, path) then {path} else {}
  {
  }

  lemma MappedHasReason(g: Graph, r: Rules, changed: set<Path>, t: Path)
    ensures t in Mapped(g, r, changed) <==> ReasonsOf(g, r, changed, t) != {}
  {
    if ReasonsOf(g, r, changed, t) != {} {
      var p :| p in ReasonsOf(g, r, changed, t);
    }
    if t in Mapped(g, r, changed) {
      var p :| p in changed && !r.broad(p) && t in TestsFor(g, r, p);
      assert p in ReasonsOf(g, r, changed, t);
    }
  }

  lemma ReasonsStep(g: Graph, r: Rules, before: set<Path>, reasons: map<Path, set<Path>>, path: Path, more: map<Path, set<Path>>)
    requires Explains(g, r, before, reasons) && !r.broad(path)
    requires more.Keys == reasons.Keys + TestsFor(g, r, path)
    requires forall t :: t in more ==> more[t] == Lookup(reasons, t) + if t in TestsFor(g, r, path) then {path} else {}
    ensures Explains(g, r, before + {path}, more)
  {
    forall t
      ensures t in more <==> t in Mapped(g, r, before + {path})
      ensures t in more ==> more[t] == ReasonsOf(g, r, before + {path}, t)
    {
      MappedHasReason(g, r, before, t);
      MappedHasReason(g, r, before + {path}, t);
      ReasonStep(g, r, before, path, t);
    }
  }

  lemma BroadStep(g: Graph, r: Rules, before: set<Path>, path: Path, reasons: map<Path, set<Path>>)
    requires Explains(g, r, before, reasons) && r.broad(path)
    ensures Explains(g, r, before + {path}, reasons)
  {
    assert Narrow(r, before + {path}) == Narrow(r, before);
  }

  /** The loop over `sorted(set(changed))`. */
  method Classify(g: Graph, r: Rules, changed: set<Path>)
    returns (reasons: map<Path, set<Path>>, broad: seq<Path>, unmapped: seq<Path>, harness: seq<Path>)
    ensures Explains(g, r, changed, reasons)
    ensures Enumerates(broad, BroadOf(r, changed))
    ensures Enumerates(unmapped, UnmappedOf(g, r, changed))
    ensures Enumerates(harness, HarnessOf(g, r, changed))
  {
    var order := SortedList(changed);
    reasons, broad, unmapped, harness := map[], [], [], [];
    ghost var done: set<Path> := {};
    for i := 0 to |order|
      invariant forall p :: p in done <==> p in order[..i]
      invariant Explains(g, r, done, reasons)
      invariant Enumerates(broad, BroadOf(r, done))
      invariant Enumerates(unmapped, UnmappedOf(g, r, done))
      invariant Enumerates(harness, HarnessOf(g, r, done))
    {
      var path := order[i];
      assert order[..i + 1] == order[..i] + [path];
      forall p | p in done
        ensures TextLe(p, path) && p != path
      {
        var k :| 0 <= k < i && order[k] == p;
      }
      if r.broad(path) {
        EnumeratesSnoc(broad, BroadOf(r, done), path);
        broad := broad + [path];
        BroadStep(g, r, done, path, reasons);
      } else {
        var hits := FindTests(g, r, path);
        var more := AddReasons(reasons, hits, path);
        ReasonsStep(g, r, done, reasons, path, more);
        reasons := more;
        if hits != {} && hits <= r.harness {
          EnumeratesSnoc(harness, HarnessOf(g, r, done), path);
          harness := harness + [path];
        }
        if hits == {} && path in r.present && r.guarded(path) {
          EnumeratesSnoc(unmapped, UnmappedOf(g, r, done), path);
          unmapped := unmapped + [path];
        }
      }
      ClassStep(g, r, done, path);
      done := done + {path};
    }
    assert order[..|order|] == order;
    assert done == changed;
  }

  lemma ClassStep(g: Graph, r: Rules, done: set<Path>, path: Path)
    ensures BroadOf(r, done + {path}) == if r.broad(path) then BroadOf(r, done) + {path} else BroadOf(r, done)
    ensures UnmappedOf(g, r, done + {path}) == if Unmapped(g, r, path) then UnmappedOf(g, r, done) + {path} else UnmappedOf(g, r, done)
    ensures HarnessOf(g, r, done + {path}) == if HarnessOnly(g, r, path) then HarnessOf(g, r, done) + {path} else HarnessOf(g, r, done)
  {
  }

  lemma EscalatesWhenBroad(r: Rules, changed: set<Path>, forceT2: bool, broad: seq<Path>)
    requires Enumerates(broad, BroadOf(r, changed))
    ensures Escalates(r, changed, forceT2) == (broad != [] || forceT2)
  {
    if broad != [] {
      assert broad[0] in BroadOf(r, changed);
    }
    if p :| p in changed && r.broad(p) {
      assert p in BroadOf(r, changed);
    }
  }

  lemma ExplainedIsReasons(g: Graph, r: Rules, changed: set<Path>, reasons: map<Path, set<Path>>)
    requires Explains(g, r, changed, reasons)
    ensures reasons == Reasons(g, r, changed)
  {
    var all := Reasons(g, r, changed);
    assert all.Keys == Mapped(g, r, changed);
    forall t | t in reasons
      ensures t in all && reasons[t] == all[t]
    {
      assert t in all.Keys;
    }
    EqualMaps(reasons, all);
  }

  lemma EqualMaps(m: map<Path, set<Path>>, n: map<Path, set<Path>>)
    requires m.Keys == n.Keys && forall k :: k in m ==> m[k] == n[k]
    ensures m == n
  {
  }

  /** `select`. */
  method Select(g: Graph, r: Rules, changed: seq<Path>, forceT2: bool) returns (s: Selection)
    ensures Selects(g, r, (set p | p in changed), forceT2, s)
  {
    var paths := set p | p in changed;
    var reasons, broad, unmapped, harness := Classify(g, r, paths);
    EscalatesWhenBroad(r, paths, forceT2, broad);
    ExplainedIsReasons(g, r, paths, reasons);
    var t2 := broad != [] || forceT2;
    var listed := SortedList(reasons.Keys - r.harness + if t2 then r.units - r.slow - r.harness else {});
    s := Selection(t2, listed, WithoutHarness(r, reasons), broad, unmapped, harness);
  }

  // ---------------------------------------------------------------- what the selection promises

  /** Two selections for changes that list the same paths, in any order and however often, are the same. */
  lemma SelectionIsDetermined(g: Graph, r: Rules, changed: set<Path>, forceT2: bool, s: Selection, t: Selection)
    requires Selects(g, r, changed, forceT2, s) && Selects(g, r, changed, forceT2, t)
    ensures s == t
  {
    EnumerationUnique(s.tests, t.tests, Selected(g, r, changed, forceT2));
    EnumerationUnique(s.broad, t.broad, BroadOf(r, changed));
    EnumerationUnique(s.unmapped, t.unmapped, UnmappedOf(g, r, changed));
    EnumerationUnique(s.harness, t.harness, HarnessOf(g, r, changed));
  }

  /** More changed paths, a fuller graph or the higher tier never run fewer tests. */
  lemma SelectionOnlyGrows(g: Graph, h: Graph, r: Rules, changed: set<Path>, more: set<Path>, forceT2: bool, forceMore: bool)
    requires Extends(g, h) && changed <= more && (forceT2 ==> forceMore)
    ensures Selected(g, r, changed, forceT2) <= Selected(h, r, more, forceMore)
  {
    forall t | t in Mapped(g, r, changed)
      ensures t in Mapped(h, r, more)
    {
      var p :| p in changed && !r.broad(p) && t in TestsFor(g, r, p);
      RulesOnlyAdd(g, h, r, p);
    }
  }

  /** The harness's own tests are never selected, on either tier. */
  lemma HarnessNeverRuns(g: Graph, r: Rules, changed: set<Path>, forceT2: bool, s: Selection, t: Path)
    requires Selects(g, r, changed, forceT2, s) && t in r.harness
    ensures t !in s.tests && t !in s.reasons
  {
  }

  /**
   Every changed path that is present, guarded and not broad is accounted for in exactly one way:
   some test that is not the harness's runs because of it, or it is reported as mapped to the
   harness only, or it is reported as unmapped.
   */
  lemma GuardedPathsAreAccountedFor(g: Graph, r: Rules, changed: set<Path>, forceT2: bool, s: Selection, p: Path)
    requires Selects(g, r, changed, forceT2, s)
    requires p in changed && p in r.present && r.guarded(p) && !r.broad(p)
    ensures (exists t :: t in s.tests && t in s.reasons && p in s.reasons[t]) <==> p !in s.harness && p !in s.unmapped
    ensures !(p in s.harness && p in s.unmapped)
  {
    if p !in s.harness && p !in s.unmapped {
      assert !HarnessOnly(g, r, p) && !Unmapped(g, r, p);
      var t :| t in TestsFor(g, r, p) && t !in r.harness;
      assert p in ReasonsOf(g, r, changed, t) && t in Mapped(g, r, changed);
      assert t in s.tests && t in s.reasons && p in s.reasons[t];
    }
    if t :| t in s.tests && t in s.reasons && p in s.reasons[t] {
      assert t in TestsFor(g, r, p) && t !in r.harness;
    }
  }

  /** A test runs on the lower tier just when one of the rules maps a changed path to it. */
  lemma LowTierRunsTheMapped(g: Graph, r: Rules, changed: set<Path>, s: Selection, t: Path)
    requires Selects(g, r, changed, false, s) && !s.t2
    ensures t in s.tests <==> t !in r.harness && exists p :: p in changed && t in TestsFor(g, r, p)
  {
  }
}
