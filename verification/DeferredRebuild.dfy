/** The bookkeeping of refreshes that wait for a session lease, and the loop that retries them.

    `Pool` is the lock-protected object; `Next` is the transition its methods make, and what every run of transitions
    keeps is proved about `Next`. */
module DeferredRebuild {

  type Id = string

  /** `loops` counts the loop goroutines that may still tick; `closes` counts closings of the stop channel. */
  datatype State = State(pending: map<Id, string>, enabled: bool, running: bool, stopped: bool,
                         channel: bool, closes: nat, loops: int)

  datatype Label =
    | Enable
    | Schedule(tab: Id, setting: string)
    | Clear(tab: Id)
    | Tick                  // the loop's own pass
    | Kick                  // a pass outside the loop
    | Halt                  // stopDeferredRebuildRetry
    | Notice                // the loop sees the closed channel

  const Init := State(map[], false, false, false, false, 0, 0)

  predicate Enabled(s: State, l: Label) {
    match l
    case Tick => s.loops > 0
    case Notice => s.loops > 0 && s.closes > 0
    case _ => true
  }

  /** startDeferredRebuildLoopLocked. */
  function Start(s: State): State {
    if !s.enabled || s.running || s.stopped || s.pending == map[] then s
    else s.(running := true, channel := true, loops := s.loops + 1)
  }

  /** A pass that finds nothing to do; only the loop's own pass marks it idle. */
  predicate Finds(s: State) {
    !s.stopped && s.pending != map[]
  }

  function Next(s: State, l: Label): State
    requires Enabled(s, l)
  {
    match l
    case Enable => Start(s.(enabled := true))
    case Schedule(tab, setting) =>
      if tab == "" || s.stopped then s else Start(s.(pending := s.pending[tab := setting]))
    case Clear(tab) => s.(pending := s.pending - {tab})
    case Tick => if Finds(s) then s else s.(running := false, loops := s.loops - 1)
    case Kick => s
    case Halt =>
      if s.stopped then s else s.(stopped := true, closes := s.closes + if s.channel then 1 else 0)
    case Notice => s.(running := false, loops := s.loops - 1)
  }

  class Pool {
    var pending: map<Id, string>
    var enabled: bool
    var running: bool
    var stopped: bool
    var channel: bool
    var closes: nat
    var loops: int

    function View(): State
      reads this
    {
      State(pending, enabled, running, stopped, channel, closes, loops)
    }

    constructor ()
      ensures View() == Init
    {
      pending, enabled, running, stopped, channel, closes, loops := map[], false, false, false, false, 0, 0;
    }

    method StartLoopLocked()
      modifies this
      ensures View() == Start(old(View()))
    {
      if !enabled || running || stopped || pending == map[] {
        return;
      }
      running := true;
      if !channel {
        channel := true;
      }
      loops := loops + 1;
    }

    method EnableRetry()
      modifies this
      ensures View() == Next(old(View()), Enable)
      ensures enabled && pending == old(pending) && stopped == old(stopped)
      ensures pending != map[] && !stopped ==> running
    {
      enabled := true;
      StartLoopLocked();
    }

    method ScheduleRebuild(tab: Id, setting: string)
      modifies this
      ensures View() == Next(old(View()), Schedule(tab, setting))
      ensures pending == if tab == "" || stopped then old(pending) else old(pending)[tab := setting]
      ensures tab != "" && enabled && !stopped ==> running
      ensures enabled == old(enabled) && stopped == old(stopped)
    {
      if tab == "" || stopped {
        return;
      }
      pending := pending[tab := setting];
      assert tab in pending;
      StartLoopLocked();
    }

    method ClearRebuild(tab: Id)
      modifies this
      ensures View() == Next(old(View()), Clear(tab))
      ensures tab !in pending && forall t | t != tab :: t in pending <==> t in old(pending)
      ensures forall t <- pending :: pending[t] == old(pending)[t]
      ensures running == old(running) && loops == old(loops)
    {
      pending := pending - {tab};
    }

    /** deferredRebuildTick up to its retries: what it will retry, and whether it is done. */
    method TickPass(markIdle: bool) returns (done: bool, entries: map<Id, string>)
      requires markIdle ==> Enabled(View(), Tick)
      modifies this
      ensures View() == Next(old(View()), if markIdle then Tick else Kick)
      ensures done == !Finds(old(View()))
      ensures entries == if done then map[] else old(pending)
      ensures done <==> stopped || pending == map[]
      ensures pending == old(pending) && stopped == old(stopped)
      ensures running == (old(running) && !(markIdle && done))
    {
      if stopped || pending == map[] {
        if markIdle {
          running := false;
          loops := loops - 1;
        }
        return true, map[];
      }
      return false, pending;
    }

    method Stop()
      modifies this
      ensures View() == Next(old(View()), Halt)
      ensures stopped && pending == old(pending)
      ensures old(!stopped && channel) ==> closes == old(closes) + 1
    {
      if stopped {
        return;
      }
      stopped := true;
      if channel {
        closes := closes + 1;
      }
    }

    method LoopNotices()
      requires Enabled(View(), Notice)
      modifies this
      ensures View() == Next(old(View()), Notice)
      ensures !running && loops == old(loops) - 1 && pending == old(pending)
    {
      running := false;
      loops := loops - 1;
    }
  }

  /** Work waits only while a loop is there to do it; a loop is alive exactly while it is marked running; the channel is
      closed at most once, by the stop, and exists before any loop does. */
  predicate Sound(s: State) {
    && (s.enabled && !s.stopped && s.pending != map[] ==> s.running)
    && s.loops == (if s.running then 1 else 0)
    && s.closes == (if s.stopped && s.channel then 1 else 0)
    && (s.running ==> s.channel && s.enabled)
    && "" !in s.pending
  }

  predicate Possible(s: State, run: seq<Label>)
    decreases |run|
  {
    run == [] || (Enabled(s, run[0]) && Possible(Next(s, run[0]), run[1..]))
  }

  function After(s: State, run: seq<Label>): State
    requires Possible(s, run)
    decreases |run|
  {
    if run == [] then s else After(Next(s, run[0]), run[1..])
  }

  lemma {:induction false} SoundRun(s: State, run: seq<Label>)
    requires Sound(s) && Possible(s, run)
    ensures Sound(After(s, run))
    decreases |run|
  {
    if run != [] {
      SoundRun(Next(s, run[0]), run[1..]);
    }
  }

  /** After the stop no loop starts, nothing is added, and a loop that is still alive only goes away. */
  lemma {:induction false} StoppedForGood(s: State, run: seq<Label>)
    requires Sound(s) && s.stopped && Possible(s, run)
    ensures var e := After(s, run);
      e.stopped && e.closes == s.closes && e.loops <= s.loops && e.pending.Keys <= s.pending.Keys
    decreases |run|
  {
    if run != [] {
      StoppedForGood(Next(s, run[0]), run[1..]);
    }
  }

  /** An entry stays until something clears it: whatever else happens, the latest label of a tab is still pending. */
  lemma {:induction false} EntryStays(s: State, run: seq<Label>, tab: Id)
    requires Possible(s, run) && tab in s.pending && Clear(tab) !in run
    ensures tab in After(s, run).pending
    ensures (forall setting :: Schedule(tab, setting) !in run) ==> After(s, run).pending[tab] == s.pending[tab]
    decreases |run|
  {
    if run != [] {
      var n := Next(s, run[0]);
      assert run[0] in run && forall l :: l in run[1..] ==> l in run;
      EntryStays(n, run[1..], tab);
    }
  }

  /** Whatever a caller schedules on an armed pool is what the next pass of the loop finds for that tab, until something
      clears it, schedules the tab again or stops the pool. */
  lemma ScheduledIsRetried(run: seq<Label>, tab: Id, setting: string, later: seq<Label>)
    requires Possible(Init, run) && After(Init, run).enabled && !After(Init, run).stopped && tab != ""
    requires Possible(Next(After(Init, run), Schedule(tab, setting)), later)
    requires Clear(tab) !in later && Halt !in later && forall other :: Schedule(tab, other) !in later
    ensures var s := After(Next(After(Init, run), Schedule(tab, setting)), later);
            Enabled(s, Tick) && Finds(s) && tab in s.pending && s.pending[tab] == setting
  {
    var s := After(Init, run);
    var n := Next(s, Schedule(tab, setting));
    SoundRun(Init, run);
    SoundRun(n, later);
    EntryStays(n, later, tab);
    StaysArmed(n, later);
  }

  lemma {:induction false} StaysArmed(s: State, run: seq<Label>)
    requires Possible(s, run) && Halt !in run && s.enabled && !s.stopped
    ensures After(s, run).enabled && !After(s, run).stopped
    decreases |run|
  {
    if run != [] {
      assert run[0] in run && forall l :: l in run[1..] ==> l in run;
      StaysArmed(Next(s, run[0]), run[1..]);
    }
  }

  /** A cleared tab stays out until it is scheduled again. */
  lemma {:induction false} ClearedStaysOut(s: State, run: seq<Label>, tab: Id)
    requires Possible(s, run) && forall setting :: Schedule(tab, setting) !in run
    ensures tab !in Next(s, Clear(tab)).pending
    ensures tab !in s.pending ==> tab !in After(s, run).pending
    decreases |run|
  {
    if run != [] {
      assert run[0] in run && forall l :: l in run[1..] ==> l in run;
      ClearedStaysOut(Next(s, run[0]), run[1..], tab);
    }
  }

  /** From any reachable state, whatever waits while the retry is armed is seen by the next pass of the one loop there is;
      and a loop that was told to stop can always leave. */
  lemma PendingIsRetried(run: seq<Label>)
    requires Possible(Init, run)
    ensures var s := After(Init, run);
      && (s.enabled && !s.stopped && s.pending != map[] ==> Enabled(s, Tick) && Finds(s) && Next(s, Tick) == s)
      && (s.stopped && s.loops > 0 ==> Enabled(s, Notice) && Next(s, Notice).loops == 0)
      && s.loops <= 1 && s.closes <= 1
  {
    SoundRun(Init, run);
  }
}
