/** Building and swapping tab controllers from any number of threads.

    Model, effort and token-mode switches build a replacement off-lock under `runtimeRebuildMu` and install it under the
    app lock with a tab-identity check; startup builds run outside that mutex and publish only while their generation is
    current; session removal unlinks tabs and closes what they held.  One label is one critical section or one off-lock
    action of one thread. */
module ControllerSwap {
  import opened Options

  type Id = int

  datatype Thread =
    | Idle
    | SwapHeld(tab: Id)                                          // took runtimeRebuildMu
    | SwapObserved(tab: Id, seen: Option<Id>)                     // read tab.Ctrl, now building off-lock
    | SwapBuilt(tab: Id, seen: Option<Id>, made: Id)
    | SwapDiscard(made: Id)                                     // lease refused, or the tab is gone
    | SwapRetire(seen: Option<Id>)                                // installed, the old one is still open
    | Building(tab: Id, generation: int)
    | BuildBuilt(tab: Id, generation: int, made: Id)
    | BuildAbandon(made: Id)
    | Removing(pending: set<Id>)                                 // bindings gone, controllers still open

  datatype State = State(
    live: set<Id>,              // tab objects reachable through a.tabs
    created: int,                // tab objects created so far
    ctrl: map<Id, Id>,          // tab.Ctrl, nil when absent
    generation: map<Id, int>,   // tab.buildGeneration, 0 when absent
    threads: map<Id, Thread>,   // idle when absent
    rebuild: Option<Id>,        // holder of runtimeRebuildMu
    built: int,                 // controllers created so far
    closes: map<Id, nat>)       // Close calls, 0 when absent

  datatype Label =
    | OpenTab
    | StartBuild(thread: Id, onTab: Id)        // startTabControllerBuild
    | RetryStart(thread: Id)                   // rebuildStartupTabLocked
    | Build(thread: Id)                        // boot.Build succeeds
    | Fail(thread: Id)                         // an early return that owns no controller
    | Refuse(thread: Id)                       // the session lease is refused after the build
    | Publish(thread: Id)                      // the startup build's final critical section
    | Lock(thread: Id, onTab: Id)
    | Observe(thread: Id)
    | Install(thread: Id)
    | Close(thread: Id, target: Id)
    | Finish(thread: Id)
    | Remove(thread: Id, gone: set<Id>)
    | Supersede(onTab: Id)                     // a plugin or MCP writer invalidates the tab's build

  const Init := State({}, 0, map[], map[], map[], None, 0, map[])

  function Pc(s: State, t: Id): Thread {
    if t in s.threads then s.threads[t] else Idle
  }

  function Generation(s: State, tab: Id): int {
    if tab in s.generation then s.generation[tab] else 0
  }

  function Closes(s: State, c: Id): nat {
    if c in s.closes then s.closes[c] else 0
  }

  /** `controllerForTab`. */
  function Controller(s: State, tab: Id): Option<Id> {
    if tab in s.live && tab in s.ctrl then Some(s.ctrl[tab]) else None
  }

  predicate Superseded(s: State, tab: Id, generation: int) {
    tab !in s.live || Generation(s, tab) != generation
  }

  /** The controllers a thread alone is responsible for closing. */
  function Custody(p: Thread): set<Id> {
    match p
    case SwapBuilt(_, _, made) => {made}
    case SwapDiscard(made) => {made}
    case SwapRetire(Some(seen)) => {seen}
    case BuildBuilt(_, _, made) => {made}
    case BuildAbandon(made) => {made}
    case Removing(pending) => pending
    case _ => {}
  }

  predicate Enabled(s: State, l: Label) {
    match l
    case OpenTab => true
    case StartBuild(t, tab) => Pc(s, t) == Idle && tab in s.live
    case RetryStart(t) => Pc(s, t).SwapHeld? && Pc(s, t).tab in s.live && Controller(s, Pc(s, t).tab) == None
    case Build(t) => Pc(s, t).Building? || Pc(s, t).SwapObserved?
    case Fail(t) => Pc(s, t).Building? || Pc(s, t).SwapHeld? || Pc(s, t).SwapObserved?
    case Refuse(t) => Pc(s, t).BuildBuilt? || Pc(s, t).SwapBuilt?
    case Publish(t) => Pc(s, t).BuildBuilt?
    case Lock(t, tab) => Pc(s, t) == Idle && s.rebuild.None? && tab < s.created
    case Observe(t) => Pc(s, t).SwapHeld?
    case Install(t) => Pc(s, t).SwapBuilt?
    case Close(t, c) =>
      (Pc(s, t).SwapDiscard? || Pc(s, t).SwapRetire? || Pc(s, t).BuildAbandon? || Pc(s, t).Removing?)
      && c in Custody(Pc(s, t))
    case Finish(t) => Pc(s, t) == SwapRetire(None) || Pc(s, t) == Removing({})
    case Remove(t, gone) => Pc(s, t) == Idle && gone <= s.live
    case Supersede(tab) => tab in s.live
  }

  function Move(s: State, t: Id, p: Thread): State {
    s.(threads := s.threads[t := p])
  }

  /** Returning drops the rebuild mutex when the thread holds it. */
  function Return(s: State, t: Id): State {
    Move(s, t, Idle).(rebuild := if s.rebuild == Some(t) then None else s.rebuild)
  }

  function Bump(s: State, tab: Id): State {
    s.(generation := s.generation[tab := Generation(s, tab) + 1])
  }

  /** The controllers of a set of live tabs, as the removal collects them. */
  function Held(s: State, tabs: set<Id>): set<Id> {
    set tab | tab in tabs && tab in s.ctrl :: s.ctrl[tab]
  }

  function Next(s: State, l: Label): State
    requires Enabled(s, l)
  {
    match l
    case OpenTab => s.(live := s.live + {s.created}, created := s.created + 1)
    case StartBuild(t, tab) => Move(Bump(s, tab), t, Building(tab, Generation(s, tab) + 1))
    case RetryStart(t) =>
      var tab := Pc(s, t).tab;
      Move(Bump(s, tab), t, Building(tab, Generation(s, tab) + 1))
    case Build(t) =>
      var p := Pc(s, t);
      Move(s.(built := s.built + 1), t,
        if p.Building? then BuildBuilt(p.tab, p.generation, s.built) else SwapBuilt(p.tab, p.seen, s.built))
    case Fail(t) => Return(s, t)
    case Refuse(t) =>
      var p := Pc(s, t);
      Move(s, t, if p.BuildBuilt? then BuildAbandon(p.made) else SwapDiscard(p.made))
    case Publish(t) =>
      var p := Pc(s, t);
      if Superseded(s, p.tab, p.generation) then Move(s, t, BuildAbandon(p.made))
      else Return(s.(ctrl := s.ctrl[p.tab := p.made]), t)
    case Lock(t, tab) => Move(s, t, SwapHeld(tab)).(rebuild := Some(t))
    case Observe(t) => Move(s, t, SwapObserved(Pc(s, t).tab, Controller(s, Pc(s, t).tab)))
    case Install(t) =>
      var p := Pc(s, t);
      if p.tab !in s.live then Move(s, t, SwapDiscard(p.made))
      else Move(Bump(s.(ctrl := s.ctrl[p.tab := p.made]), p.tab), t, SwapRetire(p.seen))
    case Close(t, c) =>
      var closed := s.(closes := s.closes[c := Closes(s, c) + 1]);
      if Pc(s, t).Removing? then Move(closed, t, Removing(Pc(s, t).pending - {c})) else Return(closed, t)
    case Finish(t) => Return(s, t)
    case Remove(t, gone) => Move(s, t, Removing(Held(s, gone))).(live := s.live - gone)
    case Supersede(tab) => Bump(s, tab)
  }

  predicate Possible(s: State, run: seq<Label>)
    decreases |run|
  {
    run == [] || (Enabled(s, run[0]) && Possible(Next(s, run[0]), run[1..]))
  }

  function After(s: State, run: seq<Label>): State
    requires Possible(s, run)
    decreases |run|
  {
    if run == [] then s else After(Next(s, run[0]), run[1..])
  }

  // ---- At most once, always ----

  /** Thread `t` alone is responsible for closing `c`. */
  predicate Owns(s: State, t: Id, c: Id) {
    c in Custody(Pc(s, t))
  }

  /** `c` is the published Ctrl of the live tab `tab`. */
  predicate Shows(s: State, tab: Id, c: Id) {
    tab in s.live && tab in s.ctrl && s.ctrl[tab] == c
  }

  predicate Open(s: State, c: Id) {
    0 <= c < s.built && Closes(s, c) == 0
  }

  predicate Swapping(p: Thread) {
    p.SwapHeld? || p.SwapObserved? || p.SwapBuilt? || p.SwapDiscard? || p.SwapRetire?
  }

  predicate Observing(p: Thread) {
    p.SwapObserved? || p.SwapBuilt?
  }

  /** A switch on a live tab has read `c` as the controller it is about to replace. */
  predicate Watches(s: State, t: Id, c: Id) {
    Observing(Pc(s, t)) && Pc(s, t).seen == Some(c) && Pc(s, t).tab in s.live
  }

  ghost predicate PublishedOnce(s: State) {
    && (forall tab, c :: Shows(s, tab, c) ==> Open(s, c))
    && (forall tab, other, c :: Shows(s, tab, c) && Shows(s, other, c) ==> tab == other)
    && (forall tab, t, c :: Shows(s, tab, c) ==> !Owns(s, t, c))
  }

  ghost predicate OwnedOnce(s: State) {
    && (forall t, c :: Owns(s, t, c) ==> Open(s, c))
    && (forall t, u, c :: Owns(s, t, c) && Owns(s, u, c) ==> t == u)
  }

  ghost predicate ClosedOnce(s: State) {
    0 <= s.built && forall c :: Closes(s, c) == 0 || (Closes(s, c) == 1 && 0 <= c < s.built)
  }

  /** While a switch is between reading the old controller and installing, the rebuild mutex keeps every other thread
      from becoming responsible for it, unless the tab is removed. */
  ghost predicate WatchedUntouched(s: State) {
    && (forall t, c :: Watches(s, t, c) ==> Open(s, c))
    && (forall t, u, c :: Watches(s, t, c) ==> !Owns(s, u, c))
    && (forall t, tab, c :: Watches(s, t, c) && Shows(s, tab, c) ==> tab == Pc(s, t).tab)
  }

  ghost predicate Exclusive(s: State) {
    && (forall t :: Swapping(Pc(s, t)) ==> s.rebuild == Some(t))
    && (forall tab <- s.live :: tab < s.created)
    && (forall tab <- s.ctrl.Keys :: tab < s.created)
    && (forall t :: Pc(s, t).Building? || Pc(s, t).BuildBuilt? || Pc(s, t).SwapHeld? || Observing(Pc(s, t)) ==>
          Pc(s, t).tab < s.created)
  }

  ghost predicate Safe(s: State) {
    PublishedOnce(s) && OwnedOnce(s) && ClosedOnce(s) && WatchedUntouched(s) && Exclusive(s)
  }

  predicate By(l: Label, t: Id) {
    !l.OpenTab? && !l.Supersede? && l.thread == t
  }

  /** The tab a step publishes a controller on, if it does. */
  function Target(s: State, l: Label): Option<Id>
    requires Enabled(s, l)
  {
    match l
    case Publish(t) =>
      if Superseded(s, Pc(s, t).tab, Pc(s, t).generation) then None else Some(Pc(s, t).tab)
    case Install(t) => if Pc(s, t).tab in s.live then Some(Pc(s, t).tab) else None
    case _ => None
  }

  /** The ways a thread becomes responsible for a controller. */
  ghost predicate Gains(s: State, l: Label, t: Id, c: Id)
    requires Enabled(s, l)
  {
    match l
    case Build(u) => t == u && c == s.built
    case Install(u) => t == u && Watches(s, t, c)
    case Remove(u, gone) => t == u && exists tab :: tab in gone && Shows(s, tab, c)
    case _ => false
  }

  lemma ThreadStep(s: State, l: Label)
    requires Enabled(s, l)
    ensures forall u | !By(l, u) :: Pc(Next(s, l), u) == Pc(s, u)
  {
  }

  lemma OwnsStep(s: State, l: Label, t: Id, c: Id)
    requires Enabled(s, l)
    ensures Owns(Next(s, l), t, c) ==>
              || (Owns(s, t, c) && l != Close(t, c) && (By(l, t) ==> Target(s, l).None?))
              || Gains(s, l, t, c)
  {
    ThreadStep(s, l);
    if l.Remove? && c in Held(s, l.gone) {
      var tab :| tab in l.gone && tab in s.ctrl && s.ctrl[tab] == c;
      assert Shows(s, tab, c);
    }
  }

  lemma ShowsStep(s: State, l: Label, tab: Id, c: Id)
    requires Enabled(s, l) && Exclusive(s)
    ensures Shows(Next(s, l), tab, c) ==>
              if Target(s, l) == Some(tab) then Owns(s, l.thread, c)
              else Shows(s, tab, c) && !(l.Remove? && tab in l.gone)
  {
  }

  lemma OpenStep(s: State, l: Label, c: Id)
    requires Enabled(s, l) && ClosedOnce(s)
    ensures Open(s, c) ==> Open(Next(s, l), c) || (l.Close? && l.target == c && Owns(s, l.thread, c))
    ensures l.Build? ==> Open(Next(s, l), s.built)
  {
    assert Closes(Next(s, l), s.built) == Closes(s, s.built) || l == Close(l.thread, s.built);
  }

  lemma WatchStep(s: State, l: Label, t: Id, c: Id)
    requires Enabled(s, l) && Exclusive(s)
    ensures Watches(Next(s, l), t, c) ==>
              (Watches(s, t, c) || (l == Observe(t) && Shows(s, Pc(s, t).tab, c)))
              && Pc(Next(s, l), t).tab == Pc(s, t).tab
              && !(l.Remove? && Pc(s, t).tab in l.gone)
              && l != Install(t)
  {
    ThreadStep(s, l);
  }

  lemma GainsFresh(s: State, l: Label, t: Id, c: Id)
    requires Safe(s) && Enabled(s, l) && Gains(s, l, t, c)
    ensures Open(Next(s, l), c)
    ensures forall u :: !Owns(s, u, c)
    ensures forall tab :: !Shows(Next(s, l), tab, c)
  {
    OpenStep(s, l, c);
    hide Next;
    forall tab
      ensures !Shows(Next(s, l), tab, c)
    {
      ShowsStep(s, l, tab, c);
    }
  }

  lemma OwnedOnceStep(s: State, l: Label)
    requires Safe(s) && Enabled(s, l)
    ensures OwnedOnce(Next(s, l))
  {
    hide Next;
    var n := Next(s, l);
    forall t, c | Owns(n, t, c)
      ensures Open(n, c)
    {
      OwnsStep(s, l, t, c);
      if Gains(s, l, t, c) { GainsFresh(s, l, t, c); } else { OpenStep(s, l, c); }
    }
    forall t, u, c | Owns(n, t, c) && Owns(n, u, c)
      ensures t == u
    {
      OwnsStep(s, l, t, c);
      OwnsStep(s, l, u, c);
      if Gains(s, l, t, c) { GainsFresh(s, l, t, c); }
      if Gains(s, l, u, c) { GainsFresh(s, l, u, c); }
    }
  }

  lemma PublishedOnceStep(s: State, l: Label)
    requires Safe(s) && Enabled(s, l)
    ensures PublishedOnce(Next(s, l))
  {
    hide Next;
    var n := Next(s, l);
    forall tab, c | Shows(n, tab, c)
      ensures Open(n, c)
      ensures forall t :: !Owns(n, t, c)
      ensures forall other :: Shows(n, other, c) ==> other == tab
    {
      ShowsStep(s, l, tab, c);
      OpenStep(s, l, c);
      forall t
        ensures !Owns(n, t, c)
      {
        OwnsStep(s, l, t, c);
        if Gains(s, l, t, c) { GainsFresh(s, l, t, c); }
      }
      forall other | Shows(n, other, c)
        ensures other == tab
      {
        ShowsStep(s, l, other, c);
      }
    }
  }

  lemma WatchedStep(s: State, l: Label)
    requires Safe(s) && Enabled(s, l)
    ensures WatchedUntouched(Next(s, l))
  {
    hide Next;
    var n := Next(s, l);
    forall t, c | Watches(n, t, c)
      ensures Open(n, c)
      ensures forall u :: !Owns(n, u, c)
      ensures forall tab :: Shows(n, tab, c) ==> tab == Pc(n, t).tab
    {
      WatchStep(s, l, t, c);
      OpenStep(s, l, c);
      forall u
        ensures !Owns(n, u, c)
      {
        OwnsStep(s, l, u, c);
        assert l.Install? && Watches(s, u, c) && Watches(s, t, c) ==> Swapping(Pc(s, u)) && Swapping(Pc(s, t));
      }
      forall tab | Shows(n, tab, c)
        ensures tab == Pc(n, t).tab
      {
        ShowsStep(s, l, tab, c);
      }
    }
  }

  lemma MutexStep(s: State, l: Label, t: Id)
    requires Exclusive(s) && Enabled(s, l) && Swapping(Pc(Next(s, l), t))
    ensures Next(s, l).rebuild == Some(t)
  {
    ThreadStep(s, l);
    if !By(l, t) {
      assert Swapping(Pc(s, t));
    }
  }

  lemma RangeStep(s: State, l: Label, t: Id)
    requires Exclusive(s) && Enabled(s, l)
    requires var p := Pc(Next(s, l), t); p.Building? || p.BuildBuilt? || p.SwapHeld? || Observing(p)
    ensures Pc(Next(s, l), t).tab < Next(s, l).created
  {
    ThreadStep(s, l);
  }

  lemma ExclusiveStep(s: State, l: Label)
    requires Exclusive(s) && Enabled(s, l)
    ensures Exclusive(Next(s, l))
  {
    var n := Next(s, l);
    forall tab
      ensures tab in n.live ==> tab < n.created
      ensures tab in n.ctrl ==> tab < n.created
    {
    }
    hide Next;
    forall t | Swapping(Pc(n, t))
      ensures n.rebuild == Some(t)
    {
      MutexStep(s, l, t);
    }
    forall t | Pc(n, t).Building? || Pc(n, t).BuildBuilt? || Pc(n, t).SwapHeld? || Observing(Pc(n, t))
      ensures Pc(n, t).tab < n.created
    {
      RangeStep(s, l, t);
    }
  }

  lemma CountStep(s: State, l: Label, c: Id)
    requires Enabled(s, l)
    ensures Closes(Next(s, l), c) == Closes(s, c) + (if l.Close? && l.target == c then 1 else 0)
  {
  }

  lemma ClosedOnceStep(s: State, l: Label)
    requires Safe(s) && Enabled(s, l)
    ensures ClosedOnce(Next(s, l))
  {
    if l.Close? { assert Owns(s, l.thread, l.target); }
    forall c
      ensures Closes(Next(s, l), c) == Closes(s, c) + (if l.Close? && l.target == c then 1 else 0)
    {
      CountStep(s, l, c);
    }
  }

  lemma SafeStep(s: State, l: Label)
    requires Safe(s) && Enabled(s, l)
    ensures Safe(Next(s, l))
  {
    hide Next, Enabled;
    hide PublishedOnce, OwnedOnce, ClosedOnce, WatchedUntouched, Exclusive;
    PublishedOnceStep(s, l);
    OwnedOnceStep(s, l);
    ClosedOnceStep(s, l);
    WatchedStep(s, l);
    ExclusiveStep(s, l);
  }

  /** Over every run: no controller is closed twice, none is published on two live tabs, and nothing that is published or
      still owned by a thread has been closed. */
  lemma {:induction false} SafeRun(s: State, run: seq<Label>)
    requires Safe(s) && Possible(s, run)
    ensures Safe(After(s, run))
    decreases |run|
  {
    if run != [] {
      SafeStep(s, run[0]);
      SafeRun(Next(s, run[0]), run[1..]);
    }
  }

  /** A thread on its way through a switch, or through the startup build a switch has turned into. */
  predicate Working(p: Thread) {
    Swapping(p) || p.Building? || p.BuildBuilt? || p.BuildAbandon?
  }

  /** How many steps of its own a thread at work has left at most. */
  function Left(p: Thread): nat {
    match p
    case SwapHeld(_) => 5
    case SwapObserved(_, _) => 4
    case Building(_, _) => 4
    case SwapBuilt(_, _, _) => 3
    case BuildBuilt(_, _, _) => 3
    case SwapDiscard(_) => 1
    case SwapRetire(_) => 1
    case BuildAbandon(_) => 1
    case _ => 0
  }

  /** Whatever step a thread at work takes brings it closer to its end, where it is idle and without the mutex. */
  lemma WorkerAdvances(s: State, l: Label, t: Id)
    requires Enabled(s, l) && By(l, t) && Working(Pc(s, t))
    ensures var n := Next(s, l);
      && Left(Pc(n, t)) < Left(Pc(s, t))
      && (Pc(n, t) == Idle || Working(Pc(n, t)))
      && (Pc(n, t) == Idle ==> n.rebuild != Some(t))
      && (l.Fail? ==> Pc(n, t) == Idle && n.ctrl == s.ctrl && n.closes == s.closes)
      && (l.Refuse? ==> Custody(Pc(n, t)) == {Pc(s, t).made} && n.ctrl == s.ctrl)
  {
  }

  function StepsOf(run: seq<Label>, t: Id): nat {
    if run == [] then 0 else StepsOf(run[..|run| - 1], t) + if By(run[|run| - 1], t) then 1 else 0
  }

  /** At work all along, a thread takes at most five steps, however the others interleave. */
  lemma {:induction false} WorksFiveSteps(s: State, run: seq<Label>, t: Id)
    requires Possible(s, run)
    requires forall k :: 0 <= k <= |run| && Possible(s, run[..k]) ==> Working(Pc(After(s, run[..k]), t))
    ensures StepsOf(run, t) + Left(Pc(After(s, run), t)) <= Left(Pc(s, t)) <= 5
    decreases |run|
  {
    assert run[..|run|] == run;
    if run != [] {
      var front, last := run[..|run| - 1], run[|run| - 1];
      assert run == front + [last];
      RunSplits(s, front, last);
      forall k | 0 <= k <= |front| && Possible(s, front[..k]) ensures Working(Pc(After(s, front[..k]), t)) {
        assert front[..k] == run[..k];
      }
      WorksFiveSteps(s, front, t);
      var m := After(s, front);
      ThreadStep(m, last);
      if By(last, t) {
        assert front[..|front|] == front;
        WorkerAdvances(m, last, t);
      }
    }
  }

  lemma {:induction false} RunSplits(s: State, front: seq<Label>, last: Label)
    requires Possible(s, front + [last])
    ensures Possible(s, front) && Enabled(After(s, front), last)
    ensures After(s, front + [last]) == Next(After(s, front), last)
    decreases |front|
  {
    var run := front + [last];
    if front != [] {
      assert run[1..] == front[1..] + [last];
      RunSplits(Next(s, front[0]), front[1..], last);
    } else {
      assert run[1..] == [];
    }
  }

  /** Whoever holds the rebuild mutex is working, and can go on. */
  ghost predicate HeldByWorker(s: State) {
    forall t :: s.rebuild == Some(t) ==> Working(Pc(s, t)) && CanGoOn(s, t)
  }

  ghost predicate CanGoOn(s: State, t: Id) {
    exists l :: By(l, t) && Enabled(s, l)
  }

  lemma WorkerGoesOn(s: State, t: Id)
    requires Working(Pc(s, t))
    ensures CanGoOn(s, t)
  {
    var l := match Pc(s, t)
      case SwapHeld(_) => Observe(t)
      case SwapObserved(_, _) => Fail(t)
      case SwapBuilt(_, _, _) => Install(t)
      case SwapDiscard(made) => Close(t, made)
      case SwapRetire(Some(seen)) => Close(t, seen)
      case SwapRetire(None) => Finish(t)
      case Building(_, _) => Fail(t)
      case BuildBuilt(_, _, _) => Publish(t)
      case BuildAbandon(made) => Close(t, made)
      case _ => OpenTab;
    assert By(l, t) && Enabled(s, l);
  }

  lemma HeldStep(s: State, l: Label)
    requires HeldByWorker(s) && Enabled(s, l)
    ensures HeldByWorker(Next(s, l))
  {
    var n := Next(s, l);
    forall t | n.rebuild == Some(t) ensures Working(Pc(n, t)) && CanGoOn(n, t) {
      ThreadStep(s, l);
      assert Working(Pc(n, t));
      WorkerGoesOn(n, t);
    }
  }

  /** Over every run the rebuild mutex and its users go together: a thread that switches holds it, and whoever holds it is
      still at work and can go on, so that every way out, failing included, gives it back. */
  lemma {:induction false} MutexRun(run: seq<Label>)
    requires Possible(Init, run)
    ensures var s := After(Init, run);
      forall t :: (Swapping(Pc(s, t)) ==> s.rebuild == Some(t))
                  && (s.rebuild == Some(t) ==> Working(Pc(s, t)) && CanGoOn(s, t))
  {
    InitSafe();
    SafeRun(Init, run);
    HeldRun(Init, run);
  }

  lemma {:induction false} HeldRun(s: State, run: seq<Label>)
    requires HeldByWorker(s) && Possible(s, run)
    ensures HeldByWorker(After(s, run))
    decreases |run|
  {
    if run != [] {
      HeldStep(s, run[0]);
      hide HeldByWorker, Next, Enabled;
      HeldRun(Next(s, run[0]), run[1..]);
    }
  }

  /** A build of this generation has been overtaken, or its tab is gone for good. */
  predicate Stale(s: State, tab: Id, generation: int) {
    tab < s.created && (tab !in s.live || Generation(s, tab) > generation)
  }

  /** Once overtaken, a startup build never publishes, whatever else happens: what it made it has to close. */
  lemma {:induction false} StaleNeverPublishes(s: State, run: seq<Label>, t: Id, tab: Id, generation: int)
    requires Stale(s, tab, generation) && Possible(s, run)
    ensures var n := After(s, run);
      && Stale(n, tab, generation)
      && (Pc(n, t).BuildBuilt? && Pc(n, t).tab == tab && Pc(n, t).generation == generation ==>
            var p := Next(n, Publish(t));
            p.ctrl == n.ctrl && Custody(Pc(p, t)) == {Pc(n, t).made})
    decreases |run|
  {
    if run != [] {
      assert Stale(Next(s, run[0]), tab, generation);
      StaleNeverPublishes(Next(s, run[0]), run[1..], t, tab, generation);
    }
  }

  lemma InitSafe()
    ensures Safe(Init) && Accounted(Init) && Orderly(Init)
  {
  }

  // ---- Exactly once, unless a publication overwrites a controller ----

  /** Every controller ever built is published on a live tab, still owned by a thread, or closed.  With `Safe` these are
      exclusive, and each holds at one tab, one thread or one Close call. */
  ghost predicate Accounted(s: State) {
    forall c :: 0 <= c < s.built ==> Placed(s, c)
  }

  ghost predicate Placed(s: State, c: Id) {
    (exists tab :: Shows(s, tab, c)) || (exists t :: Owns(s, t, c)) || Closes(s, c) == 1
  }

  /** A publication over a controller that the publisher did not read beforehand. */
  predicate Clobbers(s: State, l: Label)
    requires Enabled(s, l)
  {
    var target := Target(s, l);
    && target.Some? && target.value in s.ctrl
    && (l.Install? ==> Pc(s, l.thread).seen != Some(s.ctrl[target.value]))
  }

  lemma ClobberLoses(s: State, l: Label)
    requires Safe(s) && Enabled(s, l) && Clobbers(s, l)
    ensures !Placed(Next(s, l), s.ctrl[Target(s, l).value])
    ensures Open(Next(s, l), s.ctrl[Target(s, l).value])
  {
    var n, tab := Next(s, l), Target(s, l).value;
    var c := s.ctrl[tab];
    assert Shows(s, tab, c);
    hide Next;
    OpenStep(s, l, c);
    forall other
      ensures !Shows(n, other, c)
    {
      ShowsStep(s, l, other, c);
    }
    forall t
      ensures !Owns(n, t, c)
    {
      OwnsStep(s, l, t, c);
    }
  }

  /** Ownership is kept, handed to a tab, or ended by a close. */
  lemma OwnedKept(s: State, l: Label, t: Id, c: Id)
    requires Safe(s) && Enabled(s, l) && Owns(s, t, c)
    ensures Placed(Next(s, l), c)
  {
    var n := Next(s, l);
    ThreadStep(s, l);
    if !By(l, t) {
      assert Owns(n, t, c);
    } else if l == Close(t, c) {
      assert Closes(n, c) == Closes(s, c) + 1 && Open(s, c);
    } else if Target(s, l).Some? {
      assert Shows(n, Target(s, l).value, c);
    } else {
      assert Owns(n, t, c);
    }
  }

  lemma ShownKept(s: State, l: Label, tab: Id, c: Id)
    requires Enabled(s, l) && !Clobbers(s, l) && Shows(s, tab, c)
    ensures Placed(Next(s, l), c)
  {
    var n := Next(s, l);
    if l.Remove? && tab in l.gone {
      assert c in Held(s, l.gone);
      assert Owns(n, l.thread, c);
    } else if Target(s, l) == Some(tab) {
      assert Owns(n, l.thread, c);
    } else {
      assert Shows(n, tab, c);
    }
  }

  lemma AccountedStep(s: State, l: Label)
    requires Safe(s) && Accounted(s) && Enabled(s, l)
    ensures Accounted(Next(s, l)) <==> !Clobbers(s, l)
  {
    if Clobbers(s, l) {
      ClobberLoses(s, l);
      assert Shows(s, Target(s, l).value, s.ctrl[Target(s, l).value]);
    } else {
      forall c | 0 <= c < Next(s, l).built
        ensures Placed(Next(s, l), c)
      {
        if c == s.built {
          assert Owns(Next(s, l), l.thread, c);
        } else if t :| Owns(s, t, c) {
          OwnedKept(s, l, t, c);
        } else if tab :| Shows(s, tab, c) {
          ShownKept(s, l, tab, c);
        } else {
          assert Placed(s, c);
          CountStep(s, l, c);
          ClosedOnceStep(s, l);
        }
      }
    }
  }

  ghost predicate NeverLeaks(s: State, run: seq<Label>)
    requires Possible(s, run)
    decreases |run|
  {
    Accounted(s) && (run != [] ==> NeverLeaks(Next(s, run[0]), run[1..]))
  }

  predicate NeverClobbers(s: State, run: seq<Label>)
    requires Possible(s, run)
    decreases |run|
  {
    run != [] ==> !Clobbers(s, run[0]) && NeverClobbers(Next(s, run[0]), run[1..])
  }

  /** Exactly-once, with its exact condition: along a run every controller stays accounted for in every state if and only
      if no publication of the run overwrites a controller its publisher had not read. */
  lemma {:induction false} LeaksIffClobbers(s: State, run: seq<Label>)
    requires Safe(s) && Accounted(s) && Possible(s, run)
    ensures NeverLeaks(s, run) <==> NeverClobbers(s, run)
    decreases |run|
  {
    if run != [] {
      AccountedStep(s, run[0]);
      SafeStep(s, run[0]);
      if !Clobbers(s, run[0]) {
        LeaksIffClobbers(Next(s, run[0]), run[1..]);
      }
    }
  }

  // ---- A switch that overwrites leaks for good ----

  /** Nothing refers to `c` any more, and it is open. */
  ghost predicate Forgotten(s: State, c: Id) {
    && Open(s, c)
    && (forall tab :: !Shows(s, tab, c))
    && (forall t :: !Owns(s, t, c))
    && (forall t :: !Watches(s, t, c))
  }

  lemma ForgottenStep(s: State, l: Label, c: Id)
    requires Safe(s) && Enabled(s, l) && Forgotten(s, c)
    ensures Forgotten(Next(s, l), c)
  {
    OpenStep(s, l, c);
    hide Next;
    var n := Next(s, l);
    forall tab
      ensures !Shows(n, tab, c)
    {
      ShowsStep(s, l, tab, c);
    }
    forall t
      ensures !Owns(n, t, c) && !Watches(n, t, c)
    {
      OwnsStep(s, l, t, c);
      WatchStep(s, l, t, c);
    }
  }

  /** A controller overwritten by a model, effort or token-mode switch stays open in every continuation. */
  lemma {:induction false} ForgottenForever(s: State, run: seq<Label>, c: Id)
    requires Safe(s) && Forgotten(s, c) && Possible(s, run)
    ensures Closes(After(s, run), c) == 0
    decreases |run|
  {
    if run != [] {
      SafeStep(s, run[0]);
      ForgottenStep(s, run[0], c);
      ForgottenForever(Next(s, run[0]), run[1..], c);
    }
  }

  lemma SwitchClobberForgets(s: State, l: Label)
    requires Safe(s) && Enabled(s, l) && l.Install? && Clobbers(s, l)
    ensures Forgotten(Next(s, l), s.ctrl[Pc(s, l.thread).tab])
  {
    var c := s.ctrl[Pc(s, l.thread).tab];
    ClobberLoses(s, l);
    hide Next;
    forall t
      ensures !Watches(Next(s, l), t, c)
    {
      WatchStep(s, l, t, c);
      if Watches(s, t, c) {
        assert Swapping(Pc(s, t)) && Swapping(Pc(s, l.thread));
      }
    }
  }

  // ---- What keeps runs from overwriting ----

  /** A startup build that may still publish on `tab`. */
  predicate CurrentBuild(s: State, t: Id, tab: Id) {
    var p := Pc(s, t);
    (p.Building? || p.BuildBuilt?) && p.tab == tab && p.generation == Generation(s, tab)
  }

  predicate ObservesTab(s: State, t: Id, tab: Id) {
    Observing(Pc(s, t)) && Pc(s, t).tab == tab
  }

  /** Start builds only on empty tabs that no switch is rebuilding; begin a switch only on a tab that has a controller or
      has no startup build under way.  The retry loop's own starts need no such care. */
  ghost predicate Careful(s: State, l: Label) {
    match l
    case StartBuild(_, tab) => tab !in s.ctrl && forall u :: !ObservesTab(s, u, tab)
    case Observe(t) =>
      Pc(s, t).SwapHeld? ==> Pc(s, t).tab in s.ctrl || forall u :: !CurrentBuild(s, u, Pc(s, t).tab)
    case _ => true
  }

  ghost predicate Orderly(s: State) {
    && (forall t, tab :: CurrentBuild(s, t, tab) && tab in s.live ==> tab !in s.ctrl)
    && (forall t, u, tab :: CurrentBuild(s, t, tab) && ObservesTab(s, u, tab) && tab in s.live ==> false)
    && (forall t, u, tab :: CurrentBuild(s, t, tab) && CurrentBuild(s, u, tab) ==> t == u)
    && (forall t, tab :: ObservesTab(s, t, tab) && tab in s.live ==> Pc(s, t).seen == Controller(s, tab))
    && (forall t :: Pc(s, t).Building? || Pc(s, t).BuildBuilt? ==>
          Pc(s, t).generation <= Generation(s, Pc(s, t).tab))
  }

  lemma BuildStep(s: State, l: Label, t: Id, tab: Id)
    requires Enabled(s, l) && Orderly(s) && Exclusive(s) && CurrentBuild(Next(s, l), t, tab)
    ensures || CurrentBuild(s, t, tab)
            || (l.StartBuild? && l == StartBuild(t, tab))
            || (l == RetryStart(t) && Pc(s, t).tab == tab)
    ensures Generation(Next(s, l), tab) == Generation(s, tab) || l.StartBuild? || l.RetryStart?
  {
    ThreadStep(s, l);
  }

  lemma ObserverStep(s: State, l: Label, t: Id, tab: Id)
    requires Enabled(s, l) && ObservesTab(Next(s, l), t, tab)
    ensures l != Install(t)
    ensures || (ObservesTab(s, t, tab) && Pc(Next(s, l), t).seen == Pc(s, t).seen)
            || (l == Observe(t) && Pc(s, t).tab == tab && Pc(Next(s, l), t).seen == Controller(s, tab))
  {
    ThreadStep(s, l);
  }

  /** A publication leaves no other startup build of its tab current. */
  lemma TargetStep(s: State, l: Label, t: Id, tab: Id)
    requires Enabled(s, l) && Orderly(s) && Target(s, l) == Some(tab)
    ensures !CurrentBuild(Next(s, l), t, tab)
    ensures l.Publish? ==> CurrentBuild(s, l.thread, tab)
  {
    ThreadStep(s, l);
    assert l.Publish? ==> CurrentBuild(s, l.thread, tab);
    assert CurrentBuild(Next(s, l), t, tab) && l.Publish? ==> CurrentBuild(s, t, tab);
  }

  lemma BuildsStayAlone(s: State, l: Label, t: Id, tab: Id)
    requires Safe(s) && Orderly(s) && Enabled(s, l) && Careful(s, l)
    requires CurrentBuild(Next(s, l), t, tab) && tab in Next(s, l).live
    ensures tab !in Next(s, l).ctrl
    ensures forall u :: !ObservesTab(Next(s, l), u, tab)
  {
    var n := Next(s, l);
    BuildStep(s, l, t, tab);
    if Target(s, l) == Some(tab) { TargetStep(s, l, t, tab); }
    forall u
      ensures !ObservesTab(n, u, tab)
    {
      if ObservesTab(n, u, tab) {
        ObserverStep(s, l, u, tab);
        if l == RetryStart(t) { assert Swapping(Pc(s, t)) && Swapping(Pc(s, u)); }
      }
    }
  }

  lemma BuildsUnique(s: State, l: Label, t: Id, u: Id, tab: Id)
    requires Safe(s) && Orderly(s) && Enabled(s, l)
    requires CurrentBuild(Next(s, l), t, tab) && CurrentBuild(Next(s, l), u, tab)
    ensures t == u
  {
    ThreadStep(s, l);
    BuildStep(s, l, t, tab);
    BuildStep(s, l, u, tab);
  }

  lemma SeenCurrent(s: State, l: Label, t: Id, tab: Id)
    requires Safe(s) && Orderly(s) && Enabled(s, l)
    requires ObservesTab(Next(s, l), t, tab) && tab in Next(s, l).live
    ensures Pc(Next(s, l), t).seen == Controller(Next(s, l), tab)
  {
    ObserverStep(s, l, t, tab);
    StepCtrl(s, l, tab);
    if Target(s, l) == Some(tab) {
      TargetStep(s, l, t, tab);
      if l.Install? { assert Swapping(Pc(s, t)) && Swapping(Pc(s, l.thread)); }
    }
  }

  lemma StepCtrl(s: State, l: Label, tab: Id)
    requires Enabled(s, l) && Exclusive(s)
    ensures Target(s, l) != Some(tab) && tab in Next(s, l).live && tab in s.live ==> Controller(Next(s, l), tab) == Controller(s, tab)
    ensures tab in Next(s, l).live && tab !in s.live ==> l.OpenTab? && tab == s.created
  {
  }

  lemma GenerationsBounded(s: State, l: Label, t: Id)
    requires Orderly(s) && Enabled(s, l) && (Pc(Next(s, l), t).Building? || Pc(Next(s, l), t).BuildBuilt?)
    ensures Pc(Next(s, l), t).generation <= Generation(Next(s, l), Pc(Next(s, l), t).tab)
  {
    ThreadStep(s, l);
  }

  lemma OrderlyStep(s: State, l: Label)
    requires Safe(s) && Orderly(s) && Enabled(s, l) && Careful(s, l)
    ensures Orderly(Next(s, l))
  {
    var n := Next(s, l);
    hide Next, CurrentBuild, ObservesTab;
    forall t, tab | CurrentBuild(n, t, tab) && tab in n.live
      ensures tab !in n.ctrl
      ensures forall u :: !ObservesTab(n, u, tab)
    {
      BuildsStayAlone(s, l, t, tab);
    }
    forall t, u, tab | CurrentBuild(n, t, tab) && CurrentBuild(n, u, tab)
      ensures t == u
    {
      BuildsUnique(s, l, t, u, tab);
    }
    forall t, tab | ObservesTab(n, t, tab) && tab in n.live
      ensures Pc(n, t).seen == Controller(n, tab)
    {
      SeenCurrent(s, l, t, tab);
    }
    forall t | Pc(n, t).Building? || Pc(n, t).BuildBuilt?
      ensures Pc(n, t).generation <= Generation(n, Pc(n, t).tab)
    {
      GenerationsBounded(s, l, t);
    }
  }

  /** In an orderly state a startup build that still holds the tab's generation finds no controller to overwrite, and a
      switch replaces exactly the controller it read. */
  lemma OrderlyNeverClobbers(s: State, l: Label)
    requires Orderly(s) && Enabled(s, l)
    ensures !Clobbers(s, l)
  {
    var target := Target(s, l);
    if target.Some? {
      if l.Publish? {
        assert CurrentBuild(s, l.thread, target.value);
      } else {
        assert ObservesTab(s, l.thread, target.value);
      }
    }
  }

  ghost predicate CarefulRun(s: State, run: seq<Label>)
    requires Possible(s, run)
    decreases |run|
  {
    run != [] ==> Careful(s, run[0]) && CarefulRun(Next(s, run[0]), run[1..])
  }

  /** Over every interleaving that starts builds and switches carefully, every controller ever built is at all times
      published on exactly one live tab, owned by exactly one thread, or closed exactly once. */
  lemma {:induction false} CarefulNeverLeaks(s: State, run: seq<Label>)
    requires Safe(s) && Orderly(s) && Accounted(s) && Possible(s, run) && CarefulRun(s, run)
    ensures NeverLeaks(s, run)
    decreases |run|
  {
    if run != [] {
      OrderlyNeverClobbers(s, run[0]);
      AccountedStep(s, run[0]);
      SafeStep(s, run[0]);
      OrderlyStep(s, run[0]);
      CarefulNeverLeaks(Next(s, run[0]), run[1..]);
    }
  }

  // ---- Two ways to leak ----

  lemma ConsRun(s: State, l: Label, rest: seq<Label>)
    requires Enabled(s, l) && Possible(Next(s, l), rest)
    ensures Possible(s, [l] + rest)
    ensures After(s, [l] + rest) == After(Next(s, l), rest)
    ensures NeverClobbers(s, [l] + rest) ==> !Clobbers(s, l) && NeverClobbers(Next(s, l), rest)
  {
    assert ([l] + rest)[1..] == rest;
  }

  /** A model switch that began while the tab was empty, next to a startup build that is about to publish: the build
      publishes, the switch overwrites its controller without having read it, and nothing will ever close it. */
  lemma SwitchDuringStartupLeaks(s: State, build: Id, switch: Id, tab: Id)
    requires Safe(s) && tab in s.live && tab !in s.ctrl
    requires Pc(s, build).BuildBuilt? && CurrentBuild(s, build, tab)
    requires Pc(s, switch).SwapBuilt? && Pc(s, switch).tab == tab && Pc(s, switch).seen == None
    ensures var run := [Publish(build), Install(switch)];
            && Possible(s, run) && !NeverClobbers(s, run) && Forgotten(After(s, run), Pc(s, build).made)
  {
    var mid := Next(s, Publish(build));
    assert Pc(mid, switch) == Pc(s, switch);
    assert Clobbers(mid, Install(switch));
    SafeStep(s, Publish(build));
    SwitchClobberForgets(mid, Install(switch));
    hide Next;
    ConsRun(mid, Install(switch), []);
    ConsRun(s, Publish(build), [Install(switch)]);
    assert [Install(switch)] + [] == [Install(switch)];
    assert [Publish(build)] + [Install(switch)] == [Publish(build), Install(switch)];
  }

  const Opened := State({0}, 1, map[], map[], map[], None, 0, map[])
  const Admitted := Opened.(generation := map[0 := 1], threads := map[1 := Building(0, 1)])
  const Locked := Admitted.(threads := map[1 := Building(0, 1), 2 := SwapHeld(0)], rebuild := Some(2))
  const Observed := Locked.(threads := map[1 := Building(0, 1), 2 := SwapObserved(0, None)])
  const Built := Observed.(threads := map[1 := BuildBuilt(0, 1, 0), 2 := SwapObserved(0, None)], built := 1)
  const BothBuilt := Built.(threads := map[1 := BuildBuilt(0, 1, 0), 2 := SwapBuilt(0, None, 1)], built := 2)

  /** Such states are reached: open a tab, admit its startup build, switch the model before the build is done. */
  lemma SwitchDuringStartupReachable()
    ensures var run := [OpenTab] + ([StartBuild(1, 0)] + ([Lock(2, 0)] + ([Observe(2)] + ([Build(1)] + ([Build(2)] + [])))));
            Possible(Init, run) && After(Init, run) == BothBuilt
    ensures BothBuilt.ctrl == map[] && 0 in BothBuilt.live && CurrentBuild(BothBuilt, 1, 0)
  {
    SwitchReachesLock();
    SwitchReachesBuilt();
    assert BothBuilt.ctrl == map[] && 0 in BothBuilt.live && CurrentBuild(BothBuilt, 1, 0);
    NoRun(BothBuilt);
    hide *;
    ConsRun(Built, Build(2), []);
    ConsRun(Observed, Build(1), [Build(2)] + []);
    ConsRun(Locked, Observe(2), [Build(1)] + ([Build(2)] + []));
    ConsRun(Admitted, Lock(2, 0), [Observe(2)] + ([Build(1)] + ([Build(2)] + [])));
    ConsRun(Opened, StartBuild(1, 0), [Lock(2, 0)] + ([Observe(2)] + ([Build(1)] + ([Build(2)] + []))));
    ConsRun(Init, OpenTab, [StartBuild(1, 0)] + ([Lock(2, 0)] + ([Observe(2)] + ([Build(1)] + ([Build(2)] + [])))));
  }

  lemma SwitchReachesBuilt()
    ensures Enabled(Locked, Observe(2)) && Next(Locked, Observe(2)) == Observed
    ensures Enabled(Observed, Build(1)) && Next(Observed, Build(1)) == Built
    ensures Enabled(Built, Build(2)) && Next(Built, Build(2)) == BothBuilt
  {
  }

  lemma SwitchReachesLock()
    ensures Enabled(Init, OpenTab) && Next(Init, OpenTab) == Opened
    ensures Enabled(Opened, StartBuild(1, 0)) && Next(Opened, StartBuild(1, 0)) == Admitted
    ensures Enabled(Admitted, Lock(2, 0)) && Next(Admitted, Lock(2, 0)) == Locked
  {
  }

  lemma NoRun(s: State)
    ensures Possible(s, []) && After(s, []) == s
  {
  }

  // A mutation supersedes the tab's first build; a switch gives the tab a controller; then the mutation's restart comes.
  const Overtaken := Admitted.(generation := map[0 := 2])
  const SwitchLocked := Overtaken.(threads := map[1 := Building(0, 1), 2 := SwapHeld(0)], rebuild := Some(2))
  const SwitchObserved := SwitchLocked.(threads := map[1 := Building(0, 1), 2 := SwapObserved(0, None)])
  const SwitchBuilt := SwitchObserved.(threads := map[1 := Building(0, 1), 2 := SwapBuilt(0, None, 0)], built := 1)
  const SwitchInstalled := SwitchBuilt.(threads := map[1 := Building(0, 1), 2 := SwapRetire(None)], ctrl := map[0 := 0],
                                        generation := map[0 := 3])
  const SwitchDone := SwitchInstalled.(threads := map[1 := Building(0, 1), 2 := Idle], rebuild := None)
  const Restarted := SwitchDone.(threads := map[1 := Building(0, 1), 2 := Idle, 3 := Building(0, 4)],
                                 generation := map[0 := 4])
  const RestartBuilt := Restarted.(threads := map[1 := Building(0, 1), 2 := Idle, 3 := BuildBuilt(0, 4, 1)], built := 2)
  const RestartPublished := RestartBuilt.(threads := map[1 := Building(0, 1), 2 := Idle, 3 := Idle], ctrl := map[0 := 1])

  lemma RestartSupersedes()
    ensures Enabled(Admitted, Supersede(0)) && Next(Admitted, Supersede(0)) == Overtaken
    ensures Enabled(Overtaken, Lock(2, 0)) && Next(Overtaken, Lock(2, 0)) == SwitchLocked
    ensures Enabled(SwitchLocked, Observe(2)) && Next(SwitchLocked, Observe(2)) == SwitchObserved
  {
  }

  lemma RestartSwitches()
    ensures Enabled(SwitchObserved, Build(2)) && Next(SwitchObserved, Build(2)) == SwitchBuilt
    ensures Enabled(SwitchBuilt, Install(2)) && Next(SwitchBuilt, Install(2)) == SwitchInstalled
    ensures Enabled(SwitchInstalled, Finish(2)) && Next(SwitchInstalled, Finish(2)) == SwitchDone
  {
  }

  lemma RestartPublishes()
    ensures Enabled(SwitchDone, StartBuild(3, 0)) && Next(SwitchDone, StartBuild(3, 0)) == Restarted
    ensures Enabled(Restarted, Build(3)) && Next(Restarted, Build(3)) == RestartBuilt
    ensures Enabled(RestartBuilt, Publish(3)) && Next(RestartBuilt, Publish(3)) == RestartPublished
  {
  }

  lemma RestartForgets()
    ensures Forgotten(RestartPublished, 0) && !Accounted(RestartPublished)
  {
    assert !Placed(RestartPublished, 0);
  }

  /** From the empty application: the restart of a superseded startup build meets a tab that a switch has meanwhile given a
      controller, overwrites it, and nothing refers to that controller any more. */
  lemma RestartAfterSwitchForgets()
    ensures exists run :: Possible(Init, run) && Supersede(0) in run
              && Forgotten(After(Init, run), 0) && !Accounted(After(Init, run))
  {
    SwitchReachesLock();
    RestartSupersedes();
    RestartSwitches();
    RestartPublishes();
    RestartForgets();
    NoRun(RestartPublished);
    hide *;
    var r1 := [Publish(3)] + [];
    ConsRun(RestartBuilt, Publish(3), []);
    ConsRun(Restarted, Build(3), r1);
    var r2 := [StartBuild(3, 0)] + ([Build(3)] + r1);
    ConsRun(SwitchDone, StartBuild(3, 0), [Build(3)] + r1);
    ConsRun(SwitchInstalled, Finish(2), r2);
    ConsRun(SwitchBuilt, Install(2), [Finish(2)] + r2);
    var r3 := [Build(2)] + ([Install(2)] + ([Finish(2)] + r2));
    ConsRun(SwitchObserved, Build(2), [Install(2)] + ([Finish(2)] + r2));
    ConsRun(SwitchLocked, Observe(2), r3);
    ConsRun(Overtaken, Lock(2, 0), [Observe(2)] + r3);
    var r4 := [Supersede(0)] + ([Lock(2, 0)] + ([Observe(2)] + r3));
    ConsRun(Admitted, Supersede(0), [Lock(2, 0)] + ([Observe(2)] + r3));
    ConsRun(Opened, StartBuild(1, 0), r4);
    ConsRun(Init, OpenTab, [StartBuild(1, 0)] + r4);
    var run := [OpenTab] + ([StartBuild(1, 0)] + r4);
    assert run[2] == Supersede(0);
  }
}
