/** Saved settings and the runtimes that have to catch up with them.

    Versions are bookkeeping: each save raises the configuration's, a runtime carries the version its build read, and a
    save promises its tab that version, whether its refresh succeeds or meets a held session lease.  A promise is lost when
    the tab's runtime is older, the tab is not pending, and no saver is still on its way to schedule it. */
module SettingsRefresh {
  import opened Options

  type Id = int

  datatype Kind = Settings | Startup

  /** Work done under runtimeRebuildMu: a saver's refresh, a model switch, or a retry of a pending entry with the rest of
      its pass still to do. */
  datatype Job =
    | Saver(version: int)
    | Switch
    | RetrySettings(entry: Id, rest: map<Id, Kind>)
    | RetryStartup(generation: int, rest: map<Id, Kind>)

  datatype Thread =
    | Idle
    | Saved(version: int)
    | Locked(job: Job, tab: Id)
    | Built(job: Job, tab: Id, read: int)         // built from the configuration it read
    | Installed(job: Job, tab: Id)                // swapped in, the entry not yet cleared
    | Failed(tab: Id, version: int)               // the lease was held; not yet scheduled
    | Admitted(tab: Id, generation: int)          // a build outside the mutex; generation 0 is never superseded
    | Read(tab: Id, generation: int, read: int)
    | Ticking(entries: map<Id, Kind>)             // the pass's copy of the pending map

  datatype State = State(
    config: int,
    active: Id,
    live: set<Id>,
    runtime: map<Id, int>,        // tabs with a controller
    leaseError: set<Id>,          // StartupErrLeaseHeld
    generation: map<Id, int>,
    pending: map<Id, Kind>,
    promise: map<Id, int>,
    mutex: Option<Id>,
    threads: map<Id, Thread>)

  datatype Label =
    | Open(tab: Id)
    | Activate(tab: Id)
    | Remove(tab: Id)
    | Save(thread: Id)
    | LockSaver(thread: Id)
    | LockSwitch(thread: Id, tab: Id)
    | Build(thread: Id)
    | Install(thread: Id)
    | Clear(thread: Id)
    | Refuse(thread: Id)              // the session lease is held
    | Break(thread: Id)               // any other error, reported to the user
    | Schedule(thread: Id)
    | Tick(thread: Id)
    | Retry(thread: Id, tab: Id)
    | Retarget(thread: Id)            // the active tab changed after the retry had compared it
    | Admit(thread: Id, tab: Id)
    | AdmitLoose(thread: Id, tab: Id, supersede: bool)   // a provider removal or a workspace repair empties the tab
    | ReadConfig(thread: Id)
    | Publish(thread: Id)
    | StartupRefuse(thread: Id)

  const Init := State(0, 0, {}, map[], {}, map[], map[], map[], None, map[])

  function Pc(s: State, t: Id): Thread {
    if t in s.threads then s.threads[t] else Idle
  }

  function Generation(s: State, tab: Id): int {
    if tab in s.generation then s.generation[tab] else 0
  }

  predicate Superseded(s: State, tab: Id, generation: int) {
    tab !in s.live || (generation != 0 && Generation(s, tab) != generation)
  }

  predicate InMutex(p: Thread) {
    p.Locked? || p.Built? || p.Installed?
  }

  predicate Retryable(s: State, tab: Id) {
    tab in s.live && tab !in s.runtime && tab in s.leaseError
  }

  predicate Enabled(s: State, l: Label) {
    match l
    case Open(tab) => tab !in s.live && tab !in s.runtime && tab !in s.promise
    case Activate(tab) => tab in s.live
    case Remove(tab) => tab in s.live
    case Save(t) => Pc(s, t).Idle?
    case LockSaver(t) => Pc(s, t).Saved? && s.mutex.None? && s.active in s.live
    case LockSwitch(t, tab) => Pc(s, t).Idle? && s.mutex.None? && tab in s.live
    case Build(t) => Pc(s, t).Locked?
    case Install(t) => Pc(s, t).Built?
    case Clear(t) => Pc(s, t).Installed?
    case Refuse(t) => Pc(s, t).Locked? || Pc(s, t).Built?
    case Break(t) => Pc(s, t).Saved? || Pc(s, t).Locked? || Pc(s, t).Built?
    case Schedule(t) => Pc(s, t).Failed? && s.active in s.live
    case Tick(t) => Pc(s, t).Idle?
    case Retry(t, tab) => Pc(s, t).Ticking? && tab in Pc(s, t).entries && s.mutex.None?
    case Retarget(t) => Pc(s, t).Locked? && Pc(s, t).job.RetrySettings? && s.active in s.live
    case Admit(t, tab) => Pc(s, t).Idle? && tab in s.live
    case AdmitLoose(t, tab, _) => Pc(s, t).Idle? && tab in s.live
    case ReadConfig(t) => Pc(s, t).Admitted?
    case Publish(t) => Pc(s, t).Read?
    case StartupRefuse(t) => Pc(s, t).Read?
  }

  /** Where a thread goes on once it has released the mutex. */
  function Home(job: Job): Thread {
    if job.RetrySettings? || job.RetryStartup? then Ticking(job.rest) else Idle
  }

  /** A retry of a `__startup__` entry that finds the tab settled in the meantime; it drops whatever is pending there. */
  predicate ClearsStartup(s: State, l: Label)
    requires Enabled(s, l)
  {
    l.Retry? && l.tab in s.live && Pc(s, l.thread).entries[l.tab] == Startup && !Retryable(s, l.tab)
  }

  function RetryThread(s: State, entries: map<Id, Kind>, tab: Id): Thread
    requires tab in entries
  {
    var rest := entries - {tab};
    if tab !in s.live then Ticking(rest)
    else if entries[tab] == Startup then
      if Retryable(s, tab) then Locked(RetryStartup(Generation(s, tab) + 1, rest), tab) else Ticking(rest)
    else if s.active != tab || tab !in s.runtime then Ticking(rest)
    else Locked(RetrySettings(tab, rest), tab)
  }

  predicate ByUser(l: Label) {
    l.Open? || l.Activate? || l.Remove?
  }

  /** Where the stepping thread stands afterwards. */
  function NextThread(s: State, l: Label): Thread
    requires Enabled(s, l) && !ByUser(l)
  {
    var p := Pc(s, l.thread);
    match l
    case Save(_) => Saved(s.config + 1)
    case LockSaver(_) => Locked(Saver(p.version), s.active)
    case LockSwitch(_, tab) => Locked(Switch, tab)
    case Build(_) => Built(p.job, p.tab, s.config)
    case Install(_) => Installed(p.job, p.tab)
    case Clear(_) => Home(p.job)
    case Refuse(_) => if p.job.Saver? then Failed(p.tab, p.job.version) else Home(p.job)
    case Break(_) => if p.Saved? then Idle else Home(p.job)
    case Tick(_) => Ticking(s.pending)
    case Retry(_, tab) => RetryThread(s, p.entries, tab)
    case Retarget(_) => Locked(p.job, s.active)
    case Admit(_, tab) => Admitted(tab, Generation(s, tab) + 1)
    case AdmitLoose(_, tab, _) => Admitted(tab, 0)
    case ReadConfig(_) => Read(p.tab, p.generation, s.config)
    case _ => Idle
  }

  /** The controller goes in unless the tab is gone. */
  function PutRuntime(s: State, tab: Id, read: int): State {
    if tab !in s.live then s
    else s.(runtime := s.runtime[tab := read], leaseError := s.leaseError - {tab})
  }

  /** The tab is promised a version, unless it is gone or was promised a later one. */
  function Promised(s: State, tab: Id, version: int): State {
    if tab in s.live && (tab in s.promise ==> version > s.promise[tab]) then s.(promise := s.promise[tab := version]) else s
  }

  function Bump(s: State, tab: Id): State {
    s.(generation := s.generation[tab := Generation(s, tab) + 1])
  }

  function Drop(s: State, tab: Id): State {
    s.(pending := s.pending - {tab})
  }

  function Refused(s: State, tab: Id): State {
    s.(pending := s.pending[tab := Startup],
       leaseError := if tab in s.live then s.leaseError + {tab} else s.leaseError)
  }

  /** Everything a step changes besides the thread and the mutex. */
  function Effects(s: State, l: Label): State
    requires Enabled(s, l)
  {
    match l
    case Open(tab) => s.(live := s.live + {tab})
    case Activate(tab) => s.(active := tab)
    case Remove(tab) =>
      s.(live := s.live - {tab}, runtime := s.runtime - {tab}, leaseError := s.leaseError - {tab},
         promise := s.promise - {tab})
    case Save(t) => s.(config := s.config + 1)
    case Install(t) =>
      var p := Pc(s, t);
      if p.job.RetryStartup? && Superseded(s, p.tab, p.job.generation) then s
      else
        var s' := Bump(PutRuntime(s, p.tab, p.read), p.tab);
        if p.job.Saver? then Promised(s', p.tab, p.job.version) else s'
    case Clear(t) => Drop(s, Pc(s, t).tab)
    case Refuse(t) =>
      var p := Pc(s, t);
      if p.job.RetryStartup? then Refused(s, p.tab)
      else if p.job.Saver? then Promised(s, p.tab, p.job.version)
      else s
    case Break(t) =>
      var p := Pc(s, t);
      if p.Saved? then s
      else if p.job.RetrySettings? then Drop(s, p.job.entry).(promise := s.promise - {p.job.entry})  // tells the user
      else if p.job.RetryStartup? then Drop(s, p.tab)
      else s
    case Schedule(t) => s.(pending := s.pending[s.active := Settings])
    case Retry(t, tab) =>
      if tab !in s.live || ClearsStartup(s, l) then Drop(s, tab)
      else if RetryThread(s, Pc(s, t).entries, tab).Locked? && Pc(s, t).entries[tab] == Startup then
        Bump(s, tab).(leaseError := s.leaseError - {tab})
      else s
    case Admit(t, tab) => Bump(s, tab)
    case AdmitLoose(t, tab, supersede) =>
      var s' := s.(runtime := s.runtime - {tab}, leaseError := s.leaseError - {tab});
      if supersede then Bump(s', tab) else s'
    case Publish(t) =>
      var p := Pc(s, t);
      if Superseded(s, p.tab, p.generation) then s else PutRuntime(s, p.tab, p.read)
    case StartupRefuse(t) =>
      var p := Pc(s, t);
      if Superseded(s, p.tab, p.generation) then s else Refused(s, p.tab)
    case _ => s
  }

  function Next(s: State, l: Label): State
    requires Enabled(s, l)
  {
    var e := Effects(s, l);
    if ByUser(l) then e
    else
      var p := NextThread(s, l);
      e.(threads := s.threads[l.thread := p],
         mutex := if InMutex(p) then Some(l.thread) else if InMutex(Pc(s, l.thread)) then None else s.mutex)
  }

  /** A retry whose tab is no longer the active one refreshes the tab that is, and still answers for the entry it took. */
  lemma RetargetMoves(s: State, t: Id)
    requires Enabled(s, Retarget(t))
    ensures var n := Next(s, Retarget(t));
      && Pc(n, t) == Locked(Pc(s, t).job, s.active)
      && Enabled(n, Build(t)) && Pc(Next(n, Build(t)), t).tab == s.active
      && n.pending == s.pending && n.mutex == Some(t)
  {
  }

  // ---- No saved setting is lost ----

  predicate Stale(s: State, tab: Id) {
    tab in s.runtime && tab in s.promise && s.runtime[tab] < s.promise[tab]
  }

  /** A saver whose refresh of the tab failed has not scheduled it yet. */
  predicate Carries(s: State, t: Id, tab: Id) {
    Pc(s, t).Failed? && Pc(s, t).tab == tab
  }

  ghost predicate Awaited(s: State, tab: Id) {
    exists t :: Carries(s, t, tab)
  }

  ghost predicate Lost(s: State, tab: Id) {
    Stale(s, tab) && tab !in s.pending && !Awaited(s, tab)
  }

  ghost predicate Sound(s: State) {
    forall tab :: !Lost(s, tab)
  }

  /** What one thread relies on: it alone is in the mutex, and no promise outruns the configuration its build read. */
  ghost predicate Placed(s: State, t: Id) {
    var p := Pc(s, t);
    && (InMutex(p) ==> s.mutex == Some(t))
    && (p.Saved? ==> p.version <= s.config)
    && (InMutex(p) && p.job.Saver? ==> p.job.version <= s.config)
    && (p.Built? && p.tab in s.promise ==> s.promise[p.tab] <= p.read)
    && (p.Built? && p.job.Saver? ==> p.job.version <= p.read)
  }

  /** Kept by every step. */
  ghost predicate Formed(s: State) {
    && (forall t :: Placed(s, t))
    && (forall tab <- s.promise :: s.promise[tab] <= s.config && tab in s.live)
    && (forall tab <- s.runtime :: tab in s.live)
  }

  /** The guard of each step that may drop the last trace of a promise. */
  ghost predicate Careful(s: State, l: Label)
    requires Enabled(s, l)
  {
    match l
    case Schedule(t) =>
      var tab := Pc(s, t).tab;
      tab == s.active || tab in s.pending || !Stale(s, tab) || exists u :: u != t && Carries(s, u, tab)
    case Retry(t, tab) => ClearsStartup(s, l) ==> !Stale(s, tab) || Awaited(s, tab)
    case Clear(t) => !Stale(s, Pc(s, t).tab) || Awaited(s, Pc(s, t).tab)
    case Break(t) =>
      !Pc(s, t).Saved? && Pc(s, t).job.RetryStartup? ==> !Stale(s, Pc(s, t).tab) || Awaited(s, Pc(s, t).tab)
    case Publish(t) =>
      var p := Pc(s, t);
      !Superseded(s, p.tab, p.generation) && p.tab in s.promise ==>
        p.read >= s.promise[p.tab] || p.tab in s.pending || Awaited(s, p.tab)
    case _ => true
  }

  lemma EffectsKeep(s: State, l: Label)
    requires Enabled(s, l)
    ensures var e := Effects(s, l);
      e.threads == s.threads && e.mutex == s.mutex && e.config >= s.config
  {
    hide Superseded, Generation, Retryable, RetryThread, ClearsStartup;
  }

  /** Promises grow only when a saver's refresh is refused or installed under the mutex, and never past its own version. */
  lemma PromisesFrame(s: State, l: Label, tab: Id)
    requires Enabled(s, l) && tab in Effects(s, l).promise
    ensures var n := Effects(s, l);
      || (tab in s.promise && n.promise[tab] == s.promise[tab])
      || ((l.Refuse? || l.Install?) && Pc(s, l.thread).job.Saver? && tab == Pc(s, l.thread).tab && tab in s.live
          && n.promise[tab] == Pc(s, l.thread).job.version)
  {
    hide Superseded, Generation, Retryable;
  }

  lemma MovedPlaced(s: State, l: Label)
    requires Formed(s) && Enabled(s, l) && !ByUser(l)
    ensures Placed(Next(s, l), l.thread)
  {
    assert Placed(s, l.thread);
    EffectsKeep(s, l);
    var n := Next(s, l);
    if Pc(n, l.thread).Built? {
      assert l.Build?;
    }
    hide Superseded, Generation, Retryable;
  }

  lemma OthersPlaced(s: State, l: Label, t: Id)
    requires Formed(s) && Enabled(s, l) && (ByUser(l) || l.thread != t)
    ensures Placed(Next(s, l), t)
  {
    assert Placed(s, t);
    EffectsKeep(s, l);
    var n, p := Next(s, l), Pc(s, t);
    assert Pc(n, t) == p;
    if p.Built? && p.tab in n.promise {
      PromisesFrame(s, l, p.tab);
    }
    if !ByUser(l) {
      assert Placed(s, l.thread);
    }
    hide Effects, NextThread, Enabled;
  }

  lemma RuntimesLive(s: State, l: Label)
    requires Enabled(s, l) && forall tab <- s.runtime :: tab in s.live
    ensures forall tab <- Effects(s, l).runtime :: tab in Effects(s, l).live
    ensures !l.Remove? ==> s.live <= Effects(s, l).live
    ensures l.Remove? ==> Effects(s, l).live == s.live - {l.tab} && l.tab !in Effects(s, l).promise
  {
    hide Generation, Retryable;
  }

  lemma FormedStep(s: State, l: Label)
    requires Formed(s) && Enabled(s, l)
    ensures Formed(Next(s, l))
  {
    var n := Next(s, l);
    RuntimesLive(s, l);
    EffectsKeep(s, l);
    forall t ensures Placed(n, t) {
      hide Next, Enabled;
      if !ByUser(l) && l.thread == t {
        MovedPlaced(s, l);
      } else {
        OthersPlaced(s, l, t);
      }
    }
    forall tab <- n.promise ensures n.promise[tab] <= n.config && tab in n.live {
      PromisesFrame(s, l, tab);
      if !ByUser(l) {
        assert Placed(s, l.thread);
      }
      hide Effects, NextThread, Enabled;
    }
    hide Effects, NextThread, Enabled, Placed;
  }

  // ---- The exact condition ----

  /** A tab becomes stale only when an older build publishes over a promise, or when a refresh is refused. */
  lemma StaleFrom(s: State, l: Label, tab: Id)
    requires Formed(s) && Enabled(s, l) && Stale(Next(s, l), tab) && !Stale(s, tab)
    ensures (l.Publish? && Overtakes(s, l.thread, tab)) || (l.Refuse? && Carries(Next(s, l), l.thread, tab))
  {
    PromisesFrame(s, l, tab);
    if !ByUser(l) {
      assert Placed(s, l.thread);
    }
    hide NextThread, Retryable, Generation;
  }

  /** A build that is about to publish a runtime older than what the tab was promised. */
  predicate Overtakes(s: State, t: Id, tab: Id) {
    var p := Pc(s, t);
    p.Read? && p.tab == tab && !Superseded(s, tab, p.generation) && tab in s.promise && p.read < s.promise[tab]
  }

  /** The step takes the tab's entry away. */
  predicate Unlists(s: State, l: Label, tab: Id)
    requires Enabled(s, l)
  {
    match l
    case Clear(t) => Pc(s, t).tab == tab
    case Break(t) => InMutex(Pc(s, t)) && Pc(s, t).job.RetryStartup? && Pc(s, t).tab == tab
    case Retry(_, x) => x == tab && ClearsStartup(s, l)
    case _ => false
  }

  lemma PendingFrom(s: State, l: Label, tab: Id)
    requires Formed(s) && Enabled(s, l)
    requires Stale(Next(s, l), tab) && tab in s.pending && tab !in Next(s, l).pending
    ensures Unlists(s, l, tab)
  {
    hide NextThread, Generation;
  }

  /** What keeps a tab listed keeps it listed, and what unlists it does. */
  lemma UnlistsDrops(s: State, l: Label, tab: Id)
    requires Enabled(s, l) && Unlists(s, l, tab)
    ensures tab !in Next(s, l).pending && (Stale(s, tab) ==> Stale(Next(s, l), tab))
  {
    hide NextThread, Generation, Superseded;
  }

  /** A refused saver stays on its way until it schedules. */
  lemma CarriesFrom(s: State, l: Label, t: Id, tab: Id)
    requires Enabled(s, l) && Carries(s, t, tab) && !(l.Schedule? && l.thread == t)
    ensures Carries(Next(s, l), t, tab)
  {
    EffectsKeep(s, l);
    hide Effects;
  }

  lemma CarriesNew(s: State, l: Label, t: Id, tab: Id)
    requires Enabled(s, l) && Carries(Next(s, l), t, tab) && !Carries(s, t, tab)
    ensures l.Refuse? && l.thread == t
  {
    EffectsKeep(s, l);
    hide Effects;
  }

  lemma CarefulKeeps(s: State, l: Label, tab: Id)
    requires Formed(s) && Sound(s) && Enabled(s, l) && Careful(s, l)
    ensures !Lost(Next(s, l), tab)
  {
    var n := Next(s, l);
    if Lost(n, tab) {
      assert !Lost(s, tab);
      if t :| Carries(s, t, tab) && !(l.Schedule? && l.thread == t) {
        CarriesFrom(s, l, t, tab);
      } else if !Stale(s, tab) {
        StaleFrom(s, l, tab);
        if tab in s.pending {
          PendingFrom(s, l, tab);
        }
      } else if tab in s.pending {
        PendingFrom(s, l, tab);
      } else {
        ScheduleLists(s, l, tab);
      }
    }
  }

  lemma ScheduleLists(s: State, l: Label, tab: Id)
    requires Enabled(s, l) && l.Schedule? && tab == s.active
    ensures tab in Next(s, l).pending
  {
  }

  /** The tab a careless step loses. */
  function Subject(s: State, l: Label): Id
    requires Enabled(s, l)
  {
    match l
    case Retry(_, tab) => tab
    case Schedule(t) => Pc(s, t).tab
    case Clear(t) => Pc(s, t).tab
    case Publish(t) => Pc(s, t).tab
    case Break(t) => if InMutex(Pc(s, t)) then Pc(s, t).tab else 0
    case _ => 0
  }

  lemma CarelessLoses(s: State, l: Label)
    requires Formed(s) && Sound(s) && Enabled(s, l) && !Careful(s, l)
    ensures Lost(Next(s, l), Subject(s, l))
  {
    var tab, n := Subject(s, l), Next(s, l);
    assert !Lost(s, tab);
    if t :| Carries(n, t, tab) {
      if !Carries(s, t, tab) {
        CarriesNew(s, l, t, tab);
      }
    } else if l.Schedule? || l.Publish? {
      hide NextThread;
    } else {
      UnlistsDrops(s, l, tab);
    }
  }

  /** From a state in which no promise is lost, a step loses one if and only if its guard fails. */
  lemma StepExact(s: State, l: Label)
    requires Formed(s) && Sound(s) && Enabled(s, l)
    ensures Sound(Next(s, l)) <==> Careful(s, l)
  {
    if Careful(s, l) {
      forall tab ensures !Lost(Next(s, l), tab) {
        CarefulKeeps(s, l, tab);
      }
    } else {
      CarelessLoses(s, l);
    }
  }

  // ---- Runs ----

  predicate Possible(s: State, run: seq<Label>)
    decreases |run|
  {
    run == [] || (Enabled(s, run[0]) && Possible(Next(s, run[0]), run[1..]))
  }

  function After(s: State, run: seq<Label>): State
    requires Possible(s, run)
    decreases |run|
  {
    if run == [] then s else After(Next(s, run[0]), run[1..])
  }

  ghost predicate SoundThroughout(s: State, run: seq<Label>)
    requires Possible(s, run)
    decreases |run|
  {
    Sound(s) && (run == [] || SoundThroughout(Next(s, run[0]), run[1..]))
  }

  ghost predicate CarefulThroughout(s: State, run: seq<Label>)
    requires Possible(s, run)
    decreases |run|
  {
    run == [] || (Careful(s, run[0]) && CarefulThroughout(Next(s, run[0]), run[1..]))
  }

  /** Over whole runs: no promise is ever lost if and only if every step met its guard. */
  lemma {:induction false} SoundIffCareful(s: State, run: seq<Label>)
    requires Formed(s) && Sound(s) && Possible(s, run)
    ensures SoundThroughout(s, run) <==> CarefulThroughout(s, run)
    decreases |run|
  {
    if run != [] {
      StepExact(s, run[0]);
      FormedStep(s, run[0]);
      hide Sound, Formed, Careful, Enabled, Next;
      if Sound(Next(s, run[0])) {
        SoundIffCareful(Next(s, run[0]), run[1..]);
      }
    }
  }

  lemma InitSound()
    ensures Formed(Init) && Sound(Init)
  {
    assert forall t :: Placed(Init, t);
  }

  // ---- A discipline under which the guards hold ----

  /** What a caller can see before the step: the active tab has not changed between a failure and its scheduling; a startup
      entry is dropped only while it is still the tab's entry; an ungated build publishes only if nothing was saved since it
      read the configuration; and only a current startup build of a tab without a controller files a startup entry in place
      of a settings entry.  Nothing is asked of the publications of startup builds. */
  predicate Orderly(s: State, l: Label)
    requires Enabled(s, l)
  {
    match l
    case Schedule(t) => Pc(s, t).tab == s.active
    case Retry(_, tab) => ClearsStartup(s, l) && tab in s.pending ==> s.pending[tab] == Startup
    case Publish(t) => Pc(s, t).generation == 0 && Pc(s, t).tab in s.live ==> Pc(s, t).read == s.config
    case StartupRefuse(t) =>
      var p := Pc(s, t);
      !Superseded(s, p.tab, p.generation) && Listed(s, p.tab) ==> p.generation != 0 && p.tab !in s.runtime
    case _ => true
  }

  /** The tab waits under a settings label. */
  predicate Listed(s: State, tab: Id) {
    tab in s.pending && s.pending[tab] == Settings
  }

  /** A startup build that would publish an older configuration than was promised. */
  predicate Threatens(s: State, t: Id, tab: Id) {
    Overtakes(s, t, tab) && Pc(s, t).generation != 0
  }

  /** A stale tab, and one that is about to become so, waits under a settings label or has a saver on its way. */
  ghost predicate Tidy(s: State) {
    && (forall tab | Stale(s, tab) :: Awaited(s, tab) || Listed(s, tab))
    && (forall t, tab | Threatens(s, t, tab) :: Awaited(s, tab) || Listed(s, tab))
  }

  /** Whoever is about to drop an entry under the mutex works on a tab that is not stale and not about to be. */
  ghost predicate Settled(s: State, t: Id) {
    var p := Pc(s, t);
    (InMutex(p) && p.job.RetryStartup?) || p.Installed? ==>
      !Stale(s, p.tab) && forall u :: !Threatens(s, u, p.tab)
  }

  predicate Numbers(s: State, p: Thread) {
    p.Admitted? || p.Read? ==> 0 <= p.generation <= Generation(s, p.tab)
  }

  predicate SameBuild(p: Thread, q: Thread) {
    (p.Admitted? || p.Read?) && (q.Admitted? || q.Read?) && p.tab == q.tab && p.generation == q.generation != 0
  }

  /** Generations are handed out once each. */
  ghost predicate Numbered(s: State) {
    && (forall tab :: Generation(s, tab) >= 0)
    && (forall t :: Numbers(s, Pc(s, t)))
    && forall t, u | t != u :: !SameBuild(Pc(s, t), Pc(s, u))
  }

  ghost predicate Disciplined(s: State) {
    Formed(s) && Numbered(s) && Tidy(s) && forall t :: Settled(s, t)
  }

  /** Steps after which no startup build admitted before is current any more. */
  predicate Bumps(s: State, l: Label, tab: Id)
    requires Enabled(s, l)
  {
    match l
    case Install(t) =>
      var p := Pc(s, t);
      p.tab == tab && (p.job.RetryStartup? ==> !Superseded(s, tab, p.job.generation))
    case Retry(t, x) => x == tab && RetryThread(s, Pc(s, t).entries, x).Locked? && Pc(s, t).entries[x] == Startup
    case _ => false
  }

  /** Generations never go back. */
  lemma GenerationsGrow(s: State, l: Label, tab: Id)
    requires Enabled(s, l)
    ensures Generation(s, tab) <= Generation(Next(s, l), tab)
    ensures Bumps(s, l, tab) ==> Generation(s, tab) < Generation(Next(s, l), tab)
    ensures l.Admit? && tab == l.tab ==> Generation(Next(s, l), tab) == Generation(s, tab) + 1
  {
    hide NextThread;
  }

  /** Only admissions number a thread anew. */
  lemma ThreadNumbers(s: State, l: Label, t: Id)
    requires Enabled(s, l)
    ensures var p, q := Pc(s, t), Pc(Next(s, l), t);
      || q == p
      || (q.Read? && p == Admitted(q.tab, q.generation))
      || (l.Admit? && l.thread == t && q == Admitted(l.tab, Generation(s, l.tab) + 1))
      || (l.AdmitLoose? && l.thread == t && q == Admitted(l.tab, 0))
      || !(q.Admitted? || q.Read?)
  {
    EffectsKeep(s, l);
    hide Effects;
  }

  lemma NumberedStep(s: State, l: Label)
    requires Numbered(s) && Enabled(s, l)
    ensures Numbered(Next(s, l))
  {
    var n := Next(s, l);
    forall tab ensures Generation(n, tab) >= Generation(s, tab) >= 0 {
      GenerationsGrow(s, l, tab);
    }
    forall t ensures Numbers(n, Pc(n, t)) {
      NumbersStep(s, l, t);
    }
    forall t, u | t != u ensures !SameBuild(Pc(n, t), Pc(n, u)) {
      SameBuildStep(s, l, t, u);
    }
    hide Next, Enabled;
  }

  lemma NumbersStep(s: State, l: Label, t: Id)
    requires Numbered(s) && Enabled(s, l)
    ensures Numbers(Next(s, l), Pc(Next(s, l), t))
  {
    assert Numbers(s, Pc(s, t));
    ThreadNumbers(s, l, t);
    var q := Pc(Next(s, l), t);
    if q.Admitted? || q.Read? {
      GenerationsGrow(s, l, q.tab);
      assert Generation(s, q.tab) >= 0;
    }
    hide Next, Enabled;
  }

  lemma SameBuildStep(s: State, l: Label, t: Id, u: Id)
    requires Numbered(s) && Enabled(s, l) && t != u
    ensures !SameBuild(Pc(Next(s, l), t), Pc(Next(s, l), u))
  {
    assert Numbers(s, Pc(s, t)) && Numbers(s, Pc(s, u)) && !SameBuild(Pc(s, t), Pc(s, u));
    ThreadNumbers(s, l, t);
    ThreadNumbers(s, l, u);
    hide Next, Enabled;
  }

  /** A startup build comes to threaten a promise only when a refresh is refused. */
  lemma ThreatensFrom(s: State, l: Label, u: Id, tab: Id)
    requires Formed(s) && Numbered(s) && Enabled(s, l) && Threatens(Next(s, l), u, tab) && !Threatens(s, u, tab)
    ensures l.Refuse? && Carries(Next(s, l), l.thread, tab)
  {
    var n := Next(s, l);
    assert Numbers(s, Pc(s, u));
    ThreadNumbers(s, l, u);
    GenerationsGrow(s, l, tab);
    PromisesFrame(s, l, tab);
    if !ByUser(l) {
      assert Placed(s, l.thread);
    }
    EffectsKeep(s, l);
  }

  lemma MovedSettled(s: State, l: Label)
    requires Disciplined(s) && Enabled(s, l) && !ByUser(l)
    ensures Settled(Next(s, l), l.thread)
  {
    var n, t := Next(s, l), l.thread;
    var q := Pc(n, t);
    if (InMutex(q) && q.job.RetryStartup?) || q.Installed? {
      MovedNotStale(s, l);
      forall u ensures !Threatens(n, u, q.tab) {
        MovedUnthreatened(s, l, u);
      }
    }
    hide Next, Enabled;
  }

  lemma MovedNotStale(s: State, l: Label)
    requires Disciplined(s) && Enabled(s, l) && !ByUser(l)
    ensures var q := Pc(Next(s, l), l.thread);
      (InMutex(q) && q.job.RetryStartup?) || q.Installed? ==> !Stale(Next(s, l), q.tab)
  {
    assert Settled(s, l.thread) && Placed(s, l.thread);
    hide Generation, Tidy, Numbered, Threatens;
  }

  lemma MovedUnthreatened(s: State, l: Label, u: Id)
    requires Disciplined(s) && Enabled(s, l) && !ByUser(l)
    ensures var q := Pc(Next(s, l), l.thread);
      (InMutex(q) && q.job.RetryStartup?) || q.Installed? ==> !Threatens(Next(s, l), u, q.tab)
  {
    var n, p := Next(s, l), Pc(s, l.thread);
    var q := Pc(n, l.thread);
    if ((InMutex(q) && q.job.RetryStartup?) || q.Installed?) && Threatens(n, u, q.tab) {
      assert Settled(s, l.thread) && Numbers(s, Pc(s, u));
      ThreadNumbers(s, l, u);
      GenerationsGrow(s, l, q.tab);
      if !Threatens(s, u, q.tab) {
        ThreatensFrom(s, l, u, q.tab);
      }
      MutexSteps(s, l);
      hide Next, Enabled, Tidy, Numbered, Formed;
    }
  }

  /** How a thread comes to be about to drop an entry. */
  lemma MutexSteps(s: State, l: Label)
    requires Enabled(s, l) && !ByUser(l)
    ensures var p, q := Pc(s, l.thread), Pc(Next(s, l), l.thread);
      (InMutex(q) && q.job.RetryStartup?) || q.Installed? ==>
        || Bumps(s, l, q.tab)
        || (InMutex(p) && p.job.RetryStartup? && p.tab == q.tab && !l.Refuse?)
  {
    EffectsKeep(s, l);
    hide Effects;
  }

  lemma OthersSettled(s: State, l: Label, t: Id)
    requires Disciplined(s) && Enabled(s, l) && Orderly(s, l) && (ByUser(l) || l.thread != t)
    ensures Settled(Next(s, l), t)
  {
    var n, p := Next(s, l), Pc(s, t);
    EffectsKeep(s, l);
    assert Pc(n, t) == p;
    if (InMutex(p) && p.job.RetryStartup?) || p.Installed? {
      OthersNotStale(s, l, t);
      if !ByUser(l) {
        assert Placed(s, l.thread);
      }
      forall u ensures !Threatens(n, u, p.tab) {
        assert Settled(s, t) && Placed(s, t);
        if Threatens(n, u, p.tab) {
          ThreatensFrom(s, l, u, p.tab);
        }
      }
    }
    hide Next, Enabled;
  }

  /** Under the discipline only startup builds publish over a promise. */
  lemma OverrunThreatens(s: State, l: Label, tab: Id)
    requires Formed(s) && Enabled(s, l) && Orderly(s, l)
    ensures l.Publish? && Overtakes(s, l.thread, tab) ==> Threatens(s, l.thread, tab)
  {
  }

  lemma OthersNotStale(s: State, l: Label, t: Id)
    requires Disciplined(s) && Enabled(s, l) && Orderly(s, l) && (ByUser(l) || l.thread != t)
    requires (InMutex(Pc(s, t)) && Pc(s, t).job.RetryStartup?) || Pc(s, t).Installed?
    ensures !Stale(Next(s, l), Pc(s, t).tab)
  {
    var p := Pc(s, t);
    assert Settled(s, t) && Placed(s, t);
    if !ByUser(l) {
      assert Placed(s, l.thread);
    }
    if Stale(Next(s, l), p.tab) {
      StaleFrom(s, l, p.tab);
      OverrunThreatens(s, l, p.tab);
    }
  }

  lemma TidyStep(s: State, l: Label, tab: Id)
    requires Disciplined(s) && Enabled(s, l) && Orderly(s, l)
    requires Stale(Next(s, l), tab) || exists u :: Threatens(Next(s, l), u, tab)
    ensures Awaited(Next(s, l), tab) || Listed(Next(s, l), tab)
  {
    var n := Next(s, l);
    if Awaited(s, tab) || Listed(s, tab) {
      AttendedStays(s, l, tab);
    } else if Stale(n, tab) {
      StaleFrom(s, l, tab);
      OverrunThreatens(s, l, tab);
      hide Next, Enabled, Stale;
    } else {
      var u :| Threatens(n, u, tab);
      ThreatensFrom(s, l, u, tab);
    }
  }

  lemma AttendedStays(s: State, l: Label, tab: Id)
    requires Disciplined(s) && Enabled(s, l) && Orderly(s, l) && (Awaited(s, tab) || Listed(s, tab))
    requires Stale(Next(s, l), tab) || exists u :: Threatens(Next(s, l), u, tab)
    ensures Awaited(Next(s, l), tab) || Listed(Next(s, l), tab)
  {
    if t :| Carries(s, t, tab) {
      if l.Schedule? && l.thread == t {
        ScheduleLists(s, l, tab);
      } else {
        CarriesFrom(s, l, t, tab);
      }
    } else {
      SettingsStay(s, l, tab);
    }
  }

  /** The ways a settings entry goes away or gives way to a startup entry. */
  predicate Relabels(s: State, l: Label, tab: Id)
    requires Enabled(s, l)
  {
    match l
    case Clear(t) => Pc(s, t).tab == tab
    case Break(t) =>
      InMutex(Pc(s, t)) && ((Pc(s, t).job.RetrySettings? && Pc(s, t).job.entry == tab)
                            || (Pc(s, t).job.RetryStartup? && Pc(s, t).tab == tab))
    case Refuse(t) => Pc(s, t).job.RetryStartup? && Pc(s, t).tab == tab
    case Retry(t, x) => x == tab && (tab !in s.live || ClearsStartup(s, l))
    case StartupRefuse(t) => Pc(s, t).tab == tab && !Superseded(s, tab, Pc(s, t).generation)
    case _ => false
  }

  lemma ListedUnlessRelabelled(s: State, l: Label, tab: Id)
    requires Enabled(s, l) && Listed(s, tab) && !Relabels(s, l, tab)
    ensures Listed(Next(s, l), tab)
  {
    hide NextThread, Generation;
  }

  lemma SettingsStay(s: State, l: Label, tab: Id)
    requires Disciplined(s) && Enabled(s, l) && Orderly(s, l) && Listed(s, tab)
    requires Stale(Next(s, l), tab) || exists u :: Threatens(Next(s, l), u, tab)
    ensures Awaited(Next(s, l), tab) || Listed(Next(s, l), tab)
  {
    if Relabels(s, l, tab) {
      if l.Retry? {
        RetryKeeps(s, l, tab);
      } else if l.StartupRefuse? {
        StartupRefuseKeeps(s, l, tab);
      } else {
        MutexKeeps(s, l, tab);
      }
    } else {
      ListedUnlessRelabelled(s, l, tab);
    }
  }

  /** A tab that is gone is neither stale nor threatened, and a settings entry is not dropped for a startup entry. */
  lemma RetryKeeps(s: State, l: Label, tab: Id)
    requires Disciplined(s) && Enabled(s, l) && Orderly(s, l) && Listed(s, tab) && l.Retry? && Relabels(s, l, tab)
    ensures !Stale(Next(s, l), tab) && forall u :: !Threatens(Next(s, l), u, tab)
  {
    assert tab !in s.live;
  }

  /** Whoever drops an entry under the mutex is settled: the tab is not stale and nothing threatens it, before or after. */
  lemma MutexKeeps(s: State, l: Label, tab: Id)
    requires Disciplined(s) && Enabled(s, l) && (l.Clear? || l.Break? || l.Refuse?) && Relabels(s, l, tab)
    ensures !Stale(Next(s, l), tab) && forall u :: !Threatens(Next(s, l), u, tab)
  {
    var n := Next(s, l);
    assert Settled(s, l.thread);
    if l.Break? && Pc(s, l.thread).job.RetrySettings? {
      assert tab !in n.promise;
    } else {
      if Stale(n, tab) {
        StaleFrom(s, l, tab);
      }
      forall u ensures !Threatens(n, u, tab) {
        if Threatens(n, u, tab) {
          ThreatensFrom(s, l, u, tab);
        }
      }
    }
  }

  /** The refused build was the only current one, and its tab has no controller. */
  lemma StartupRefuseKeeps(s: State, l: Label, tab: Id)
    requires Disciplined(s) && Enabled(s, l) && Orderly(s, l) && Listed(s, tab) && l.StartupRefuse? && Relabels(s, l, tab)
    ensures !Stale(Next(s, l), tab) && forall u :: !Threatens(Next(s, l), u, tab)
  {
    var n, p := Next(s, l), Pc(s, l.thread);
    assert p.generation != 0 && tab !in s.runtime;
    forall u ensures !Threatens(n, u, tab) {
      if Threatens(n, u, tab) {
        ThreatensFrom(s, l, u, tab);
      }
    }
  }

  lemma DisciplinedStep(s: State, l: Label)
    requires Disciplined(s) && Enabled(s, l) && Orderly(s, l)
    ensures Disciplined(Next(s, l)) && Sound(Next(s, l))
  {
    var n := Next(s, l);
    FormedStep(s, l);
    NumberedStep(s, l);
    forall t ensures Settled(n, t) {
      if !ByUser(l) && l.thread == t {
        MovedSettled(s, l);
      } else {
        OthersSettled(s, l, t);
      }
    }
    forall tab | Stale(n, tab) ensures Awaited(n, tab) || Listed(n, tab) {
      TidyStep(s, l, tab);
    }
    forall t, tab | Threatens(n, t, tab) ensures Awaited(n, tab) || Listed(n, tab) {
      TidyStep(s, l, tab);
    }
    hide Next, Enabled, Settled, Numbered, Formed, Threatens, Stale;
  }

  ghost predicate OrderlyThroughout(s: State, run: seq<Label>)
    requires Possible(s, run)
    decreases |run|
  {
    run == [] || (Orderly(s, run[0]) && OrderlyThroughout(Next(s, run[0]), run[1..]))
  }

  /** Under the discipline no promise is lost, whatever saves, switches, retries, builds and tab changes interleave; in
      particular a successful refresh always clears the entry of a tab that has caught up. */
  lemma {:induction false} OrderlyNeverLoses(s: State, run: seq<Label>)
    requires Disciplined(s) && Possible(s, run) && OrderlyThroughout(s, run)
    ensures SoundThroughout(s, run)
    decreases |run|
  {
    assert Sound(s);
    if run != [] {
      DisciplinedStep(s, run[0]);
      hide Disciplined, Sound, Orderly, Enabled, Next;
      OrderlyNeverLoses(Next(s, run[0]), run[1..]);
    }
  }

  lemma InitDisciplined()
    ensures Disciplined(Init)
  {
    InitSound();
  }

  // ---- Where the program does lose one ----

  /** The active tab changes between a refused refresh and its scheduling: the retry is filed under the wrong tab. */
  lemma MisroutedScheduleLoses(s: State, t: Id)
    requires Formed(s) && Sound(s) && Pc(s, t).Failed? && s.active in s.live && s.active != Pc(s, t).tab
    requires Stale(s, Pc(s, t).tab) && Pc(s, t).tab !in s.pending
    requires forall u | u != t :: !Carries(s, u, Pc(s, t).tab)
    ensures Lost(Next(s, Schedule(t)), Pc(s, t).tab)
  {
    CarelessLoses(s, Schedule(t));
  }

  lemma ConsRun(s: State, l: Label, n: State, rest: seq<Label>)
    requires Enabled(s, l) && Next(s, l) == n && Possible(n, rest)
    ensures Possible(s, [l] + rest) && After(s, [l] + rest) == After(n, rest)
  {
    assert ([l] + rest)[1..] == rest;
  }

  lemma NoRun(s: State)
    ensures Possible(s, []) && After(s, []) == s
  {
  }

  const Waiting := Init.(live := {0}, leaseError := {0}, pending := map[0 := Startup], generation := map[0 := 1],
                         threads := map[1 := Idle])
  const Snapped := Waiting.(threads := map[1 := Idle, 2 := Ticking(map[0 := Startup])])
  const Switching := Snapped.(threads := Snapped.threads[3 := Locked(Switch, 0)], mutex := Some(3))
  const Switched := Snapped.(threads := Snapped.threads[3 := Idle], runtime := map[0 := 0], leaseError := {},
                             pending := map[], generation := map[0 := 2])
  const Refusing := Switched.(config := 1, threads := Switched.threads[3 := Locked(Saver(1), 0)], mutex := Some(3))
  const Filed := Refusing.(threads := Switched.threads[3 := Idle], mutex := None, promise := map[0 := 1],
                              pending := map[0 := Settings])

  const Rebuilt := Switching.(threads := Snapped.threads[3 := Built(Switch, 0, 0)])
  const Swapped := Rebuilt.(threads := Snapped.threads[3 := Installed(Switch, 0)], runtime := map[0 := 0],
                            leaseError := {}, generation := map[0 := 2])
  const Stored := Switched.(config := 1, threads := Switched.threads[3 := Saved(1)])
  const Refused0 := Refusing.(threads := Switched.threads[3 := Failed(0, 1)], mutex := None, promise := map[0 := 1])
  const Dropped := Filed.(threads := Filed.threads[2 := Ticking(map[])], pending := map[])

  const Opened := Init.(live := {0})
  const Begun := Opened.(generation := map[0 := 1], threads := map[1 := Admitted(0, 1)])
  const Loaded := Begun.(threads := map[1 := Read(0, 1, 0)])

  lemma StartupRefused()
    ensures Enabled(Init, Open(0)) && Next(Init, Open(0)) == Opened
    ensures Enabled(Opened, Admit(1, 0)) && Next(Opened, Admit(1, 0)) == Begun
  {
  }

  lemma StartupFiled()
    ensures Enabled(Begun, ReadConfig(1)) && Next(Begun, ReadConfig(1)) == Loaded
    ensures Enabled(Loaded, StartupRefuse(1)) && Next(Loaded, StartupRefuse(1)) == Waiting
  {
  }

  /** A tab's startup build meets a held lease and is filed for a retry. */
  lemma ToWaiting(rest: seq<Label>)
    requires Possible(Waiting, rest)
    ensures var run := [Open(0)] + ([Admit(1, 0)] + ([ReadConfig(1)] + ([StartupRefuse(1)] + rest)));
            Possible(Init, run) && After(Init, run) == After(Waiting, rest)
  {
    StartupRefused();
    StartupFiled();
    hide *;
    ConsRun(Loaded, StartupRefuse(1), Waiting, rest);
    ConsRun(Begun, ReadConfig(1), Loaded, [StartupRefuse(1)] + rest);
    ConsRun(Opened, Admit(1, 0), Begun, [ReadConfig(1)] + ([StartupRefuse(1)] + rest));
    ConsRun(Init, Open(0), Opened, [Admit(1, 0)] + ([ReadConfig(1)] + ([StartupRefuse(1)] + rest)));
  }

  lemma SwitchBegins()
    ensures Enabled(Waiting, Tick(2)) && Next(Waiting, Tick(2)) == Snapped
    ensures Enabled(Snapped, LockSwitch(3, 0)) && Next(Snapped, LockSwitch(3, 0)) == Switching
    ensures Enabled(Switching, Build(3)) && Next(Switching, Build(3)) == Rebuilt
  {
  }

  lemma SwitchEnds()
    ensures Enabled(Rebuilt, Install(3)) && Next(Rebuilt, Install(3)) == Swapped
    ensures Enabled(Swapped, Clear(3)) && Next(Swapped, Clear(3)) == Switched
  {
  }

  lemma SaverRefused()
    ensures Enabled(Switched, Save(3)) && Next(Switched, Save(3)) == Stored
    ensures Enabled(Stored, LockSaver(3)) && Next(Stored, LockSaver(3)) == Refusing
    ensures Enabled(Refusing, Refuse(3)) && Next(Refusing, Refuse(3)) == Refused0
  {
  }

  lemma SaverScheduled()
    ensures Enabled(Refused0, Schedule(3)) && Next(Refused0, Schedule(3)) == Filed
    ensures Enabled(Filed, Retry(2, 0)) && Next(Filed, Retry(2, 0)) == Dropped
    ensures Lost(Dropped, 0)
  {
  }

  /** A retry pass copies a startup entry; a model switch gives the tab its controller. */
  lemma ToSwitched(rest: seq<Label>)
    requires Possible(Switched, rest)
    ensures var run := [Tick(2)] + ([LockSwitch(3, 0)] + ([Build(3)] + ([Install(3)] + ([Clear(3)] + rest))));
            Possible(Waiting, run) && After(Waiting, run) == After(Switched, rest)
  {
    SwitchBegins();
    SwitchEnds();
    hide *;
    ConsRun(Swapped, Clear(3), Switched, rest);
    ConsRun(Rebuilt, Install(3), Swapped, [Clear(3)] + rest);
    ConsRun(Switching, Build(3), Rebuilt, [Install(3)] + ([Clear(3)] + rest));
    ConsRun(Snapped, LockSwitch(3, 0), Switching, [Build(3)] + ([Install(3)] + ([Clear(3)] + rest)));
    ConsRun(Waiting, Tick(2), Snapped, [LockSwitch(3, 0)] + ([Build(3)] + ([Install(3)] + ([Clear(3)] + rest))));
  }

  /** A setting is saved, its refresh is refused and scheduled; then the pass gets to its old copy of the entry and drops
      the new one. */
  lemma StaleCopyLoses()
    ensures exists run :: Possible(Init, run) && Lost(After(Init, run), 0)
  {
    SaverRefused();
    SaverScheduled();
    hide *;
    NoRun(Dropped);
    ConsRun(Filed, Retry(2, 0), Dropped, []);
    ConsRun(Refused0, Schedule(3), Filed, [Retry(2, 0)] + []);
    ConsRun(Refusing, Refuse(3), Refused0, [Schedule(3)] + ([Retry(2, 0)] + []));
    ConsRun(Stored, LockSaver(3), Refusing, [Refuse(3)] + ([Schedule(3)] + ([Retry(2, 0)] + [])));
    ConsRun(Switched, Save(3), Stored, [LockSaver(3)] + ([Refuse(3)] + ([Schedule(3)] + ([Retry(2, 0)] + []))));
    var saved := [Save(3)] + ([LockSaver(3)] + ([Refuse(3)] + ([Schedule(3)] + ([Retry(2, 0)] + []))));
    ToSwitched(saved);
    ToWaiting([Tick(2)] + ([LockSwitch(3, 0)] + ([Build(3)] + ([Install(3)] + ([Clear(3)] + saved)))));
  }

  // ---- Three more ways, from the initial state ----

  ghost predicate Reachable(s: State) {
    exists run :: Possible(Init, run) && After(Init, run) == s
  }

  lemma {:induction false} Append(s: State, run: seq<Label>, l: Label)
    requires Possible(s, run) && Enabled(After(s, run), l)
    ensures Possible(s, run + [l]) && After(s, run + [l]) == Next(After(s, run), l)
    decreases |run|
  {
    hide Enabled, Next;
    if run == [] {
      assert ([] + [l])[1..] == [];
      NoRun(Next(s, l));
    } else {
      assert (run + [l])[1..] == run[1..] + [l];
      Append(Next(s, run[0]), run[1..], l);
    }
  }

  lemma ReachStep(s: State, l: Label, n: State)
    requires Reachable(s) && Enabled(s, l) && Next(s, l) == n
    ensures Reachable(n)
  {
    var run :| Possible(Init, run) && After(Init, run) == s;
    hide Enabled, Next, Possible, After;
    Append(Init, run, l);
  }

  lemma OpenedReached()
    ensures Reachable(Opened)
  {
    StartupRefused();
    NoRun(Init);
    hide Enabled, Next;
    ReachStep(Init, Open(0), Opened);
  }

  const Loosened := Opened.(generation := map[0 := 1], threads := map[1 := Admitted(0, 0)])
  const LooseRead := Loosened.(threads := map[1 := Read(0, 0, 0)])
  const LooseSaved := LooseRead.(config := 1, threads := LooseRead.threads[2 := Saved(1)])
  const LooseLocked := LooseSaved.(threads := LooseRead.threads[2 := Locked(Saver(1), 0)], mutex := Some(2))
  const LooseBuilt := LooseLocked.(threads := LooseRead.threads[2 := Built(Saver(1), 0, 1)])
  const LooseInstalled := LooseBuilt.(threads := LooseRead.threads[2 := Installed(Saver(1), 0)], runtime := map[0 := 1],
                                    generation := map[0 := 2], promise := map[0 := 1])
  const LooseCleared := LooseInstalled.(threads := LooseRead.threads[2 := Idle], mutex := None)
  const LooseOver := LooseCleared.(threads := map[1 := Idle, 2 := Idle], runtime := map[0 := 0])

  lemma LooseSteps1()
    ensures Enabled(Opened, AdmitLoose(1, 0, true)) && Next(Opened, AdmitLoose(1, 0, true)) == Loosened
    ensures Enabled(Loosened, ReadConfig(1)) && Next(Loosened, ReadConfig(1)) == LooseRead
  {
  }

  lemma LooseSteps2()
    ensures Enabled(LooseRead, Save(2)) && Next(LooseRead, Save(2)) == LooseSaved
    ensures Enabled(LooseSaved, LockSaver(2)) && Next(LooseSaved, LockSaver(2)) == LooseLocked
  {
  }

  lemma LooseSteps3()
    ensures Enabled(LooseLocked, Build(2)) && Next(LooseLocked, Build(2)) == LooseBuilt
    ensures Enabled(LooseBuilt, Install(2)) && Next(LooseBuilt, Install(2)) == LooseInstalled
  {
  }

  lemma LooseSteps4()
    ensures Enabled(LooseInstalled, Clear(2)) && Next(LooseInstalled, Clear(2)) == LooseCleared
    ensures Enabled(LooseCleared, Publish(1)) && Next(LooseCleared, Publish(1)) == LooseOver
  {
  }

  lemma UngatedBuildLosesMidway()
    ensures Reachable(LooseLocked)
  {
    OpenedReached();
    LooseSteps1();
    LooseSteps2();
    hide *;
    ReachStep(Opened, AdmitLoose(1, 0, true), Loosened);
    ReachStep(Loosened, ReadConfig(1), LooseRead);
    ReachStep(LooseRead, Save(2), LooseSaved);
    ReachStep(LooseSaved, LockSaver(2), LooseLocked);
  }

  lemma UngatedBuildLosesInTheEnd()
    ensures Lost(LooseOver, 0)
  {
  }

  /** A provider removal's build reads the configuration, a setting is saved and its refresh succeeds and clears the entry;
      then the build publishes the older configuration over it, although the saver was told that all went well. */
  lemma UngatedBuildLoses()
    ensures exists s :: Reachable(s) && Lost(s, 0)
  {
    UngatedBuildLosesMidway();
    LooseSteps3();
    LooseSteps4();
    UngatedBuildLosesInTheEnd();
    hide *;
    ReachStep(LooseLocked, Build(2), LooseBuilt);
    ReachStep(LooseBuilt, Install(2), LooseInstalled);
    ReachStep(LooseInstalled, Clear(2), LooseCleared);
    ReachStep(LooseCleared, Publish(1), LooseOver);
  }

  const Two := Opened.(live := {0, 1})
  const TwoLocked := Two.(threads := map[1 := Locked(Switch, 0)], mutex := Some(1))
  const TwoBuilt := TwoLocked.(threads := map[1 := Built(Switch, 0, 0)])
  const TwoInstalled := TwoBuilt.(threads := map[1 := Installed(Switch, 0)], runtime := map[0 := 0], generation := map[0 := 1])
  const TwoReady := TwoInstalled.(threads := map[1 := Idle], mutex := None)
  const TwoSaved := TwoReady.(config := 1, threads := map[1 := Idle, 2 := Saved(1)])
  const TwoRefusing := TwoSaved.(threads := map[1 := Idle, 2 := Locked(Saver(1), 0)], mutex := Some(2))
  const TwoFailed := TwoRefusing.(threads := map[1 := Idle, 2 := Failed(0, 1)], mutex := None, promise := map[0 := 1])
  const TwoTurned := TwoFailed.(active := 1)
  const TwoMisfiled := TwoTurned.(threads := map[1 := Idle, 2 := Idle], pending := map[1 := Settings])

  lemma MisfileSteps1()
    ensures Enabled(Opened, Open(1)) && Next(Opened, Open(1)) == Two
    ensures Enabled(Two, LockSwitch(1, 0)) && Next(Two, LockSwitch(1, 0)) == TwoLocked
  {
  }

  lemma MisfileSteps2()
    ensures Enabled(TwoLocked, Build(1)) && Next(TwoLocked, Build(1)) == TwoBuilt
    ensures Enabled(TwoBuilt, Install(1)) && Next(TwoBuilt, Install(1)) == TwoInstalled
  {
  }

  lemma MisfileSteps3()
    ensures Enabled(TwoInstalled, Clear(1)) && Next(TwoInstalled, Clear(1)) == TwoReady
    ensures Enabled(TwoReady, Save(2)) && Next(TwoReady, Save(2)) == TwoSaved
  {
  }

  lemma MisfileSteps4()
    ensures Enabled(TwoSaved, LockSaver(2)) && Next(TwoSaved, LockSaver(2)) == TwoRefusing
    ensures Enabled(TwoRefusing, Refuse(2)) && Next(TwoRefusing, Refuse(2)) == TwoFailed
  {
  }

  lemma MisfileSteps5()
    ensures Enabled(TwoFailed, Activate(1)) && Next(TwoFailed, Activate(1)) == TwoTurned
    ensures Enabled(TwoTurned, Schedule(2)) && Next(TwoTurned, Schedule(2)) == TwoMisfiled
  {
  }

  lemma MisroutedScheduleReachedMidway()
    ensures Reachable(TwoInstalled)
  {
    OpenedReached();
    MisfileSteps1();
    MisfileSteps2();
    hide *;
    ReachStep(Opened, Open(1), Two);
    ReachStep(Two, LockSwitch(1, 0), TwoLocked);
    ReachStep(TwoLocked, Build(1), TwoBuilt);
    ReachStep(TwoBuilt, Install(1), TwoInstalled);
  }

  lemma MisroutedScheduleReachedInTheEnd()
    ensures Lost(TwoMisfiled, 0) && TwoMisfiled.pending == map[1 := Settings]
  {
  }

  /** The active tab changes between the refusal and the scheduling. */
  lemma MisroutedScheduleReached()
    ensures exists s :: Reachable(s) && Lost(s, 0) && s.pending == map[1 := Settings]
  {
    MisroutedScheduleReachedMidway();
    MisfileSteps3();
    MisfileSteps4();
    MisfileSteps5();
    MisroutedScheduleReachedInTheEnd();
    hide *;
    ReachStep(TwoInstalled, Clear(1), TwoReady);
    ReachStep(TwoReady, Save(2), TwoSaved);
    ReachStep(TwoSaved, LockSaver(2), TwoRefusing);
    ReachStep(TwoRefusing, Refuse(2), TwoFailed);
    ReachStep(TwoFailed, Activate(1), TwoTurned);
    ReachStep(TwoTurned, Schedule(2), TwoMisfiled);
  }

  lemma LoosenedReached()
    ensures Reachable(Loosened)
  {
    OpenedReached();
    LooseSteps1();
    hide *;
    ReachStep(Opened, AdmitLoose(1, 0, true), Loosened);
  }

  const Twice := Loosened.(generation := map[0 := 2], threads := map[1 := Admitted(0, 0), 2 := Admitted(0, 0)])
  const TwiceRead := Twice.(threads := map[1 := Read(0, 0, 0), 2 := Admitted(0, 0)])
  const BothRead := Twice.(threads := map[1 := Read(0, 0, 0), 2 := Read(0, 0, 0)])
  const OnePublished := BothRead.(threads := map[1 := Idle, 2 := Read(0, 0, 0)], runtime := map[0 := 0])
  const OneSaved := OnePublished.(config := 1, threads := OnePublished.threads[3 := Saved(1)])
  const OneRefusing := OneSaved.(threads := OnePublished.threads[3 := Locked(Saver(1), 0)], mutex := Some(3))
  const OneFailed := OneRefusing.(threads := OnePublished.threads[3 := Failed(0, 1)], mutex := None, promise := map[0 := 1])
  const OneFiled := OneFailed.(threads := OnePublished.threads[3 := Idle], pending := map[0 := Settings])
  const OneRelabelled := OneFiled.(threads := OneFiled.threads[2 := Idle], leaseError := {0}, pending := map[0 := Startup])
  const OneTicking := OneRelabelled.(threads := OneRelabelled.threads[4 := Ticking(map[0 := Startup])])
  const OneDropped := OneRelabelled.(threads := OneRelabelled.threads[4 := Ticking(map[])], pending := map[])

  lemma RelabelSteps1()
    ensures Enabled(Loosened, AdmitLoose(2, 0, true)) && Next(Loosened, AdmitLoose(2, 0, true)) == Twice
    ensures Enabled(Twice, ReadConfig(1)) && Next(Twice, ReadConfig(1)) == TwiceRead
  {
  }

  lemma RelabelSteps2()
    ensures Enabled(TwiceRead, ReadConfig(2)) && Next(TwiceRead, ReadConfig(2)) == BothRead
    ensures Enabled(BothRead, Publish(1)) && Next(BothRead, Publish(1)) == OnePublished
  {
  }

  lemma RelabelSteps3()
    ensures Enabled(OnePublished, Save(3)) && Next(OnePublished, Save(3)) == OneSaved
    ensures Enabled(OneSaved, LockSaver(3)) && Next(OneSaved, LockSaver(3)) == OneRefusing
  {
  }

  lemma RelabelSteps4()
    ensures Enabled(OneRefusing, Refuse(3)) && Next(OneRefusing, Refuse(3)) == OneFailed
    ensures Enabled(OneFailed, Schedule(3)) && Next(OneFailed, Schedule(3)) == OneFiled
  {
  }

  lemma RelabelSteps5()
    ensures Enabled(OneFiled, StartupRefuse(2)) && Next(OneFiled, StartupRefuse(2)) == OneRelabelled
    ensures Enabled(OneRelabelled, Tick(4)) && Next(OneRelabelled, Tick(4)) == OneTicking
  {
  }

  lemma RelabelSteps6()
    ensures Enabled(OneTicking, Retry(4, 0)) && Next(OneTicking, Retry(4, 0)) == OneDropped
  {
  }

  lemma RefusedBuildLosesMidway()
    ensures Reachable(OneRefusing)
  {
    LoosenedReached();
    RelabelSteps1();
    RelabelSteps2();
    RelabelSteps3();
    hide *;
    ReachStep(Loosened, AdmitLoose(2, 0, true), Twice);
    ReachStep(Twice, ReadConfig(1), TwiceRead);
    ReachStep(TwiceRead, ReadConfig(2), BothRead);
    ReachStep(BothRead, Publish(1), OnePublished);
    ReachStep(OnePublished, Save(3), OneSaved);
    ReachStep(OneSaved, LockSaver(3), OneRefusing);
  }

  lemma RefusedBuildLosesInTheEnd()
    ensures Lost(OneDropped, 0)
  {
  }

  /** Of two ungated builds of a tab one publishes and the other is refused: its startup entry takes the place of a settings
      entry, and the next pass drops it because the tab has a controller. */
  lemma RefusedBuildLoses()
    ensures exists s :: Reachable(s) && Lost(s, 0)
  {
    RefusedBuildLosesMidway();
    RelabelSteps4();
    RelabelSteps5();
    RelabelSteps6();
    RefusedBuildLosesInTheEnd();
    hide *;
    ReachStep(OneRefusing, Refuse(3), OneFailed);
    ReachStep(OneFailed, Schedule(3), OneFiled);
    ReachStep(OneFiled, StartupRefuse(2), OneRelabelled);
    ReachStep(OneRelabelled, Tick(4), OneTicking);
    ReachStep(OneTicking, Retry(4, 0), OneDropped);
  }
}
