/** Deadlock freedom of the desktop shell's lock order, for any number of threads.

    Every path nests its locks properly, so a path is a tree of lock sections.  Locks are Go mutexes and
    writer-preferring read-write mutexes: a writer that waits holds back new readers. */
module LockOrder {

  datatype Lock =
    | SingleSurfaceMu | PluginRuntimeGate | RuntimeBuildGate | RuntimeRebuildMu | SessionRemovalMu
    | ReconcileMu(tab: int) | AppMu | TabsSaveMu | DeferredMu | SharedHostsMu

  datatype Mode = Read | Write

  datatype Section = Section(lock: Lock, mode: Mode, inside: seq<Section>)

  datatype Op = Acquire(lock: Lock, mode: Mode) | Release(lock: Lock)

  function Rank(l: Lock): nat {
    match l
    case SingleSurfaceMu => 1
    case PluginRuntimeGate => 2
    case RuntimeBuildGate => 3
    case RuntimeRebuildMu => 4
    case SessionRemovalMu => 5
    case ReconcileMu(_) => 6
    case AppMu => 7
    case TabsSaveMu => 8
    case DeferredMu => 9
    case SharedHostsMu => 10
  }

  function Flatten(path: seq<Section>): seq<Op>
    decreases path
  {
    if path == [] then []
    else
      [Acquire(path[0].lock, path[0].mode)] + Flatten(path[0].inside) + [Release(path[0].lock)] + Flatten(path[1..])
  }

  /** Every section lies inside sections of lower rank only. */
  predicate Nested(path: seq<Section>, above: nat) {
    forall x <- path :: Rank(x.lock) > above && Nested(x.inside, Rank(x.lock))
  }

  /** What a thread still has to do is in order, given what it holds: each lock outranks all it holds, it releases only
      what it holds, and it ends holding nothing. */
  predicate Ordered(held: map<Lock, Mode>, rest: seq<Op>)
    decreases |rest|
  {
    if rest == [] then held == map[]
    else
      match rest[0]
      case Acquire(l, m) => (forall h <- held :: Rank(h) < Rank(l)) && Ordered(held[l := m], rest[1..])
      case Release(l) => l in held && Ordered(held - {l}, rest[1..])
  }

  /** Running one section around `inner` and then `tail`. */
  lemma SectionOrdered(l: Lock, m: Mode, held: map<Lock, Mode>, inner: seq<Op>, tail: seq<Op>)
    requires forall h <- held :: Rank(h) < Rank(l)
    requires Ordered(held[l := m], inner + ([Release(l)] + tail))
    ensures Ordered(held, [Acquire(l, m)] + inner + [Release(l)] + tail)
  {
    var all := [Acquire(l, m)] + inner + [Release(l)] + tail;
    assert all[1..] == inner + ([Release(l)] + tail);
  }

  lemma ReleaseOrdered(l: Lock, m: Mode, held: map<Lock, Mode>, tail: seq<Op>)
    requires l !in held && Ordered(held, tail)
    ensures Ordered(held[l := m], [Release(l)] + tail)
  {
    assert held[l := m] - {l} == held;
    assert ([Release(l)] + tail)[1..] == tail;
  }

  lemma FlattenThen(a: seq<Op>, b: seq<Op>, c: seq<Op>)
    ensures (a + b) + c == a + (b + c)
  {
  }

  lemma {:induction false} NestedIsOrderedThen(path: seq<Section>, above: nat, held: map<Lock, Mode>, rest: seq<Op>)
    requires Nested(path, above) && (forall h <- held :: Rank(h) <= above) && Ordered(held, rest)
    ensures Ordered(held, Flatten(path) + rest)
    decreases path
  {
    if path == [] {
      assert Flatten(path) + rest == rest;
    } else {
      var first, later := path[0], path[1..];
      var l, m, inner := first.lock, first.mode, Flatten(first.inside);
      var tail := Flatten(later) + rest;
      assert first in path && forall x <- later :: x in path;
      assert Nested(later, above) && Nested(first.inside, Rank(l)) && Rank(l) > above;
      assert Flatten(path) == [Acquire(l, m)] + inner + [Release(l)] + Flatten(later);
      hide Ordered, Flatten, Nested;
      FlattenThen([Acquire(l, m)] + inner + [Release(l)], Flatten(later), rest);
      NestedIsOrderedThen(later, above, held, rest);
      ReleaseOrdered(l, m, held, tail);
      NestedIsOrderedThen(first.inside, Rank(l), held[l := m], [Release(l)] + tail);
      SectionOrdered(l, m, held, inner, tail);
    }
  }

  /** Lexically nested sections in rank order run in order, from nothing held to nothing held. */
  lemma NestedIsOrdered(path: seq<Section>)
    requires Nested(path, 0)
    ensures Ordered(map[], Flatten(path))
  {
    NestedIsOrderedThen(path, 0, map[], []);
    assert Flatten(path) + [] == Flatten(path);
  }

  // ---- Threads ----

  /** `waiting` marks a writer that has announced itself and holds back new readers. */
  datatype Thread = Thread(held: map<Lock, Mode>, rest: seq<Op>, waiting: bool)

  type System = map<int, Thread>

  predicate Holds(s: System, t: int, l: Lock) {
    t in s && l in s[t].held
  }

  predicate Announced(s: System, t: int, l: Lock) {
    t in s && s[t].waiting && s[t].rest != [] && s[t].rest[0] == Acquire(l, Write)
  }

  predicate Enabled(s: System, t: int) {
    && t in s && s[t].rest != []
    && match s[t].rest[0]
       case Release(l) => l in s[t].held
       case Acquire(l, Write) => !s[t].waiting || forall u <- s :: !Holds(s, u, l)
       case Acquire(l, Read) =>
         forall u <- s :: !(Holds(s, u, l) && s[u].held[l] == Write) && !Announced(s, u, l)
  }

  function Step(s: System, t: int): System
    requires Enabled(s, t)
  {
    var p := s[t];
    match p.rest[0]
    case Release(l) => s[t := Thread(p.held - {l}, p.rest[1..], false)]
    case Acquire(l, m) =>
      if m == Write && !p.waiting then s[t := p.(waiting := true)]
      else s[t := Thread(p.held[l := m], p.rest[1..], false)]
  }

  ghost predicate AllOrdered(s: System) {
    forall t <- s :: Ordered(s[t].held, s[t].rest)
  }

  /** A lock is held by one writer or by readers only. */
  ghost predicate Exclusion(s: System) {
    forall t, u, l | Holds(s, t, l) && Holds(s, u, l) && t != u :: s[t].held[l] == Read && s[u].held[l] == Read
  }

  lemma OrderedStep(s: System, t: int)
    requires AllOrdered(s) && Exclusion(s) && Enabled(s, t)
    ensures AllOrdered(Step(s, t)) && Exclusion(Step(s, t))
  {
  }

  predicate Unfinished(s: System, t: int) {
    t in s && s[t].rest != []
  }

  function Wanted(s: System, t: int): nat
    requires Unfinished(s, t)
  {
    Rank(s[t].rest[0].lock)
  }

  lemma Pick<T>(some: set<T>) returns (x: T)
    requires some != {}
    ensures x in some
  {
    x :| x in some;
  }

  /** An unfinished thread that wants a lock of the highest rank. */
  lemma {:induction false} Highest(s: System, some: set<int>) returns (t: int)
    requires some != {} && forall u <- some :: Unfinished(s, u)
    ensures t in some && forall u <- some :: Wanted(s, u) <= Wanted(s, t)
    decreases |some|
  {
    var x := Pick(some);
    if some == {x} {
      t := x;
    } else {
      t := Highest(s, some - {x});
      if Wanted(s, x) > Wanted(s, t) { t := x; }
    }
  }

  /** A thread that holds a lock still has something to do. */
  lemma HolderUnfinished(s: System, u: int, l: Lock)
    requires AllOrdered(s) && Holds(s, u, l)
    ensures Unfinished(s, u)
  {
    assert Ordered(s[u].held, s[u].rest);
  }

  /** A blocked thread waits for a lock that some unfinished thread holds, even when only a waiting writer stops it. */
  lemma Blocked(s: System, t: int)
    requires AllOrdered(s) && Unfinished(s, t) && forall v :: !Enabled(s, v)
    ensures s[t].rest[0].Acquire? && exists u :: Holds(s, u, s[t].rest[0].lock)
  {
    assert !Enabled(s, t);
    assert Ordered(s[t].held, s[t].rest);
    if s[t].rest[0].Acquire? && s[t].rest[0].mode == Read {
      var l := s[t].rest[0].lock;
      if v :| Announced(s, v, l) {
        assert !Enabled(s, v);
      }
    }
  }

  /** Deadlock freedom: while any thread is unfinished, some thread can step. */
  lemma NeverStuck(s: System, t: int)
    requires AllOrdered(s) && Unfinished(s, t)
    ensures exists u :: Enabled(s, u)
  {
    if forall u :: !Enabled(s, u) {
      var some := set u | u in s && Unfinished(s, u);
      assert t in some;
      var top := Highest(s, some);
      Blocked(s, top);
      var holder :| Holds(s, holder, s[top].rest[0].lock);
      HolderUnfinished(s, holder, s[top].rest[0].lock);
      Blocked(s, holder);
      assert Ordered(s[holder].held, s[holder].rest);
      assert Wanted(s, holder) > Wanted(s, top);
      assert holder in some;
    }
  }

  predicate Possible(s: System, run: seq<int>)
    decreases |run|
  {
    run == [] || (Enabled(s, run[0]) && Possible(Step(s, run[0]), run[1..]))
  }

  function After(s: System, run: seq<int>): System
    requires Possible(s, run)
    decreases |run|
  {
    if run == [] then s else After(Step(s, run[0]), run[1..])
  }

  lemma {:induction false} OrderedRun(s: System, run: seq<int>)
    requires AllOrdered(s) && Exclusion(s) && Possible(s, run)
    ensures AllOrdered(After(s, run)) && Exclusion(After(s, run))
    decreases |run|
  {
    if run != [] {
      OrderedStep(s, run[0]);
      OrderedRun(Step(s, run[0]), run[1..]);
    }
  }

  // ---- The paths of the shell ----

  function Reads(l: Lock): Section {
    Section(l, Read, [])
  }

  function Writes(l: Lock): Section {
    Section(l, Write, [])
  }

  /** Updating a.tabs and saving the tab list under the app lock. */
  const TabUpdate := Section(AppMu, Write, [Writes(TabsSaveMu)])

  /** buildTabControllerWithContext, including its failure and abandonment exits. */
  const BuildBody: seq<Section> :=
    [Reads(AppMu), TabUpdate, Writes(SharedHostsMu), Reads(AppMu), TabUpdate, Writes(SharedHostsMu), Writes(DeferredMu)]

  /** ensureTabControllerWorkspace: reconcile, close, clear the tab, release its host and rebuild. */
  function WorkspaceRepair(tab: int): Section {
    Section(ReconcileMu(tab), Write, [Reads(AppMu), TabUpdate, Writes(SharedHostsMu)] + BuildBody)
  }

  /** The body of a model, effort, token-mode or settings rebuild once runtimeRebuildMu is held. */
  function SwapBody(tab: int): seq<Section> {
    [Reads(AppMu), WorkspaceRepair(tab), Reads(AppMu), Writes(SharedHostsMu), TabUpdate, Writes(DeferredMu)]
  }

  function SwitchPath(tab: int): seq<Section> {
    [Reads(AppMu), Section(RuntimeRebuildMu, Write, SwapBody(tab))]
  }

  /** tryRecoverStartupLeaseHeldTab, reached from tabAndCtrlByID. */
  const Recover := Section(RuntimeRebuildMu, Write, [Reads(AppMu), TabUpdate] + BuildBody + [Writes(DeferredMu)])

  /** A turn or shell submission; `/effort` switches from inside the gate. */
  function SubmitPath(tab: int): seq<Section> {
    [Section(PluginRuntimeGate, Read,
       [Reads(AppMu), Recover, Section(RuntimeRebuildMu, Write, SwapBody(tab)), WorkspaceRepair(tab), Reads(AppMu)])]
  }

  /** Steering a turn and dropping a folder repair the workspace outside every gate. */
  function SteerPath(tab: int): seq<Section> {
    [Reads(AppMu), Recover, WorkspaceRepair(tab), Reads(AppMu)]
  }

  /** clearActiveSessionRuntime under a session operation. */
  function ClearPath(tab: int): seq<Section> {
    [Section(PluginRuntimeGate, Read,
       [Reads(AppMu), WorkspaceRepair(tab), Reads(AppMu),
        Section(RuntimeRebuildMu, Write, [Section(SessionRemovalMu, Write, [Reads(AppMu), TabUpdate] + BuildBody)])])]
  }

  /** startTabControllerBuild, and the build itself when it runs in place. */
  const StartBuildPath: seq<Section> := [Section(RuntimeBuildGate, Read, [Writes(AppMu)] + BuildBody)]

  /** Fork admits a startup build from inside the plugin gate. */
  function ForkPath(tab: int): seq<Section> {
    [Section(PluginRuntimeGate, Read, [Reads(AppMu), WorkspaceRepair(tab), TabUpdate] + StartBuildPath)]
  }

  /** A plugin or MCP mutation: three gates, the live controllers, a refresh, then the superseded builds restart. */
  function MutationPath(tab: int): seq<Section> {
    [Section(PluginRuntimeGate, Write,
       [Section(RuntimeBuildGate, Write,
          [Section(RuntimeRebuildMu, Write,
             [Reads(AppMu), Writes(AppMu), Reads(AppMu)] + SwapBody(tab) + [Reads(AppMu), Writes(DeferredMu)])])])]
    + StartBuildPath
  }

  /** rebindTabToLoadedSessionPath: resuming or opening another session in a tab. */
  const Rebind := Section(RuntimeRebuildMu, Write, [TabUpdate, Reads(AppMu), TabUpdate] + BuildBody + [Reads(AppMu)])

  const ResumePath: seq<Section> := [Reads(AppMu), Recover, Rebind, Reads(AppMu)]

  /** Unlinking and closing runtimes under sessionRemovalMu: a closed tab, a pruned surface, a removed workspace. */
  const Removal := Section(SessionRemovalMu, Write,
                           [Writes(AppMu), Reads(AppMu), TabUpdate, Writes(AppMu), Writes(SharedHostsMu)])

  const CloseTabPath: seq<Section> := [Removal]

  const RemoveWorkspacePath: seq<Section> := [Removal] + StartBuildPath

  /** The single conversation surface: open or rebind a tab, start its build, prune the others. */
  const SurfacePath: seq<Section> :=
    [Section(SingleSurfaceMu, Write, [Reads(AppMu), Rebind, TabUpdate] + StartBuildPath + [Removal])]

  /** deleteSession and trashTopic: unlink under the app lock, close and release hosts under sessionRemovalMu, then open a
      fallback. */
  const DeletePath: seq<Section> :=
    [Reads(AppMu),
     Section(SessionRemovalMu, Write, [Writes(AppMu), Writes(TabsSaveMu), Writes(AppMu), Writes(SharedHostsMu)])]
    + SurfacePath + StartBuildPath

  const RestorePath: seq<Section> := [Section(SessionRemovalMu, Write, [Reads(AppMu), Reads(AppMu)])]

  /** A provider removal: the affected tabs are emptied and built again, or the active one is refreshed. */
  function RetargetPath(tab: int): seq<Section> {
    [Reads(AppMu), TabUpdate] + BuildBody + SwitchPath(tab)
  }

  /** One tick of the deferred-rebuild loop and one retry, settings and startup flavours. */
  function RetryPath(tab: int): seq<Section> {
    [Writes(DeferredMu), Reads(AppMu),
     Section(RuntimeRebuildMu, Write, [Reads(AppMu)] + SwapBody(tab) + [TabUpdate] + BuildBody + [Writes(DeferredMu)])]
  }

  datatype Kind =
    | Switch | Submit | Steer | Clear | StartBuild | Fork | Mutation | Resume | Surface | Delete | CloseTab
    | RemoveWorkspace | Restore | Retarget | Retry

  function PathOf(kind: Kind, tab: int): seq<Section> {
    match kind
    case Switch => SwitchPath(tab)
    case Submit => SubmitPath(tab)
    case Steer => SteerPath(tab)
    case Clear => ClearPath(tab)
    case StartBuild => StartBuildPath
    case Fork => ForkPath(tab)
    case Mutation => MutationPath(tab)
    case Resume => ResumePath
    case Surface => SurfacePath
    case Delete => DeletePath
    case CloseTab => CloseTabPath
    case RemoveWorkspace => RemoveWorkspacePath
    case Restore => RestorePath
    case Retarget => RetargetPath(tab)
    case Retry => RetryPath(tab)
  }

  /** Threads that each run one of the shell's paths on some tab, none having begun; one that is spawned later is one that
      has not stepped yet. */
  ghost predicate Starting(s: System) {
    forall t <- s :: s[t].held == map[] && !s[t].waiting
                     && exists kind, tab :: s[t].rest == Flatten(PathOf(kind, tab))
  }

  /** A section whose body nests above it nests above any lower rank. */
  lemma SectionNested(x: Section, above: nat)
    requires Rank(x.lock) > above && Nested(x.inside, Rank(x.lock))
    ensures Nested([x], above)
  {
  }

  lemma LowerNested(path: seq<Section>, above: nat, below: nat)
    requires Nested(path, above) && below <= above
    ensures Nested(path, below)
  {
  }

  lemma ShortNested(tab: int)
    ensures Nested([TabUpdate], 6) && Nested(BuildBody, 6) && Nested([WorkspaceRepair(tab)], 5)
    ensures Nested(SwapBody(tab), 4) && Nested(StartBuildPath, 2)
  {
    assert Nested(TabUpdate.inside, 7);
    SectionNested(TabUpdate, 6);
    assert Nested(BuildBody, 6);
    SectionNested(WorkspaceRepair(tab), 5);
    hide WorkspaceRepair;
    assert SwapBody(tab) == [Reads(AppMu)] + [WorkspaceRepair(tab)] + [Reads(AppMu), Writes(SharedHostsMu), TabUpdate, Writes(DeferredMu)];
    SectionNested(StartBuildPath[0], 2);
  }

  lemma MutexSectionsNested()
    ensures Nested([Recover], 3) && Nested([Rebind], 3) && Nested([Removal], 4)
  {
    ShortNested(0);
    hide BuildBody, TabUpdate;
    LowerNested(BuildBody, 6, 4);
    LowerNested([TabUpdate], 6, 5);
    SectionNested(Recover, 3);
    SectionNested(Rebind, 3);
    SectionNested(Removal, 4);
  }

  lemma {:induction false} RebuildPathsNested(tab: int)
    ensures Nested(SwitchPath(tab), 0) && Nested(ClearPath(tab), 0) && Nested(RetryPath(tab), 0)
  {
    ShortNested(tab);
    SectionNested(Section(RuntimeRebuildMu, Write, SwapBody(tab)), 2);
    hide SwapBody, BuildBody, WorkspaceRepair, TabUpdate;
    LowerNested(BuildBody, 6, 4);
    LowerNested([WorkspaceRepair(tab)], 5, 2);
    LowerNested([TabUpdate], 6, 4);
    var remove := Section(SessionRemovalMu, Write, [Reads(AppMu), TabUpdate] + BuildBody);
    SectionNested(remove, 4);
    SectionNested(Section(RuntimeRebuildMu, Write, [remove]), 2);
    SectionNested(ClearPath(tab)[0], 0);
    SectionNested(RetryPath(tab)[2], 0);
  }

  lemma {:induction false} GatedPathsNested(tab: int)
    ensures Nested(SubmitPath(tab), 0) && Nested(ForkPath(tab), 0) && Nested(MutationPath(tab), 0)
  {
    ShortNested(tab);
    MutexSectionsNested();
    hide SwapBody, BuildBody, StartBuildPath, WorkspaceRepair, TabUpdate, Recover;
    LowerNested([WorkspaceRepair(tab)], 5, 2);
    LowerNested([TabUpdate], 6, 2);
    SectionNested(Section(RuntimeRebuildMu, Write, SwapBody(tab)), 2);
    SectionNested(SubmitPath(tab)[0], 0);
    SectionNested(ForkPath(tab)[0], 0);
    LowerNested(StartBuildPath, 2, 0);
    var rebuild := Section(RuntimeRebuildMu, Write,
                           [Reads(AppMu), Writes(AppMu), Reads(AppMu)] + SwapBody(tab) + [Reads(AppMu), Writes(DeferredMu)]);
    SectionNested(rebuild, 3);
    SectionNested(Section(RuntimeBuildGate, Write, [rebuild]), 2);
    SectionNested(MutationPath(tab)[0], 0);
  }

  lemma {:induction false} RemovalPathsNested()
    ensures Nested(StartBuildPath, 0) && Nested(CloseTabPath, 0) && Nested(RemoveWorkspacePath, 0)
    ensures Nested(SurfacePath, 0) && Nested(DeletePath, 0) && Nested(RestorePath, 0)
  {
    ShortNested(0);
    MutexSectionsNested();
    hide StartBuildPath, TabUpdate, Rebind, Removal;
    LowerNested(StartBuildPath, 2, 1);
    LowerNested([Rebind], 3, 1);
    LowerNested([Removal], 4, 1);
    LowerNested([TabUpdate], 6, 1);
    SectionNested(SurfacePath[0], 0);
    hide SurfacePath;
    assert Nested(DeletePath[1].inside, 5);
    SectionNested(DeletePath[1], 0);
    SectionNested(RestorePath[0], 0);
  }

  /** Paths that run outside every gate. */
  lemma {:induction false} UngatedPathsNested(tab: int)
    ensures Nested(SteerPath(tab), 0) && Nested(ResumePath, 0) && Nested(RetargetPath(tab), 0)
  {
    ShortNested(tab);
    MutexSectionsNested();
    RebuildPathsNested(tab);
    hide SwitchPath, BuildBody, WorkspaceRepair, TabUpdate, Recover, Rebind;
    LowerNested(BuildBody, 6, 0);
    LowerNested([WorkspaceRepair(tab)], 5, 0);
    LowerNested([TabUpdate], 6, 0);
    LowerNested([Recover], 3, 0);
    LowerNested([Rebind], 3, 0);
  }

  /** Every path of the shell takes its locks in rank order. */
  lemma {:induction false} PathsNested(kind: Kind, tab: int)
    ensures Nested(PathOf(kind, tab), 0)
  {
    RebuildPathsNested(tab);
    GatedPathsNested(tab);
    RemovalPathsNested();
    UngatedPathsNested(tab);
    hide Nested, SwitchPath, SubmitPath, SteerPath, ClearPath, StartBuildPath, ForkPath, MutationPath, ResumePath,
      SurfacePath, DeletePath, CloseTabPath, RemoveWorkspacePath, RestorePath, RetargetPath, RetryPath;
  }

  lemma StartingIsOrdered(s: System)
    requires Starting(s)
    ensures AllOrdered(s) && Exclusion(s)
  {
    forall t <- s ensures Ordered(s[t].held, s[t].rest) {
      var kind, tab :| s[t].rest == Flatten(PathOf(kind, tab));
      PathsNested(kind, tab);
      NestedIsOrdered(PathOf(kind, tab));
    }
  }

  /** Deadlock freedom: however many threads run the shell's paths and however they interleave, some thread can step
      until all are finished, and no lock is ever held by a writer together with anyone else. */
  lemma NoDeadlock(s: System, run: seq<int>)
    requires Starting(s) && Possible(s, run)
    ensures Exclusion(After(s, run))
    ensures (exists t :: Unfinished(After(s, run), t)) ==> exists u :: Enabled(After(s, run), u)
    ensures (forall t :: !Unfinished(After(s, run), t)) ==> forall t, l :: !Holds(After(s, run), t, l)
  {
    StartingIsOrdered(s);
    OrderedRun(s, run);
    var end := After(s, run);
    if t :| Unfinished(end, t) {
      NeverStuck(end, t);
    }
    forall t, l | Holds(end, t, l) ensures exists u :: Unfinished(end, u) {
      HolderUnfinished(end, t, l);
      assert Unfinished(end, t);
    }
  }

  // ---- Why the order matters ----

  /** A session operation that asked for the plugin gate again while holding it, beside one plugin mutation. */
  function Recursive(): System {
    map[0 := Thread(map[], Flatten([Section(PluginRuntimeGate, Read, [Reads(PluginRuntimeGate)])]), false),
        1 := Thread(map[], Flatten([Writes(PluginRuntimeGate)]), false)]
  }

  /** Why builds have a gate of their own: with the writer announced between the two read locks, nobody can step. */
  lemma RecursiveReadDeadlocks()
    ensures var s, run := Recursive(), [0, 1];
      Possible(s, run) && Unfinished(After(s, run), 0) && forall u :: !Enabled(After(s, run), u)
  {
    var s := Recursive();
    assert Enabled(s, 0);
    var one := Step(s, 0);
    assert one[0].rest[0] == Acquire(PluginRuntimeGate, Read);
    assert Enabled(one, 1);
    var two := Step(one, 1);
    assert Holds(two, 0, PluginRuntimeGate) && Announced(two, 1, PluginRuntimeGate);
    assert forall u :: !Enabled(two, u);
    assert [0, 1][1..] == [1] && [1][1..] == [];
    assert After(s, [0, 1]) == After(one, [1]) == After(two, []) == two;
  }
}
