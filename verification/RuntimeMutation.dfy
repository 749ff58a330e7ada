/** A plugin or MCP change takes three gates, supersedes the startup builds, reserves every live controller, works, and
    undoes all of it on every exit.  The classes follow one call from beginning to end; `MutationSystem` lets every
    other thread interleave with it. */
module RuntimeMutation {

  class Controller {
    const guarded: bool        // implements RuntimeMutationGuard
    var running: bool
    var rotating: bool
    var waiting: nat           // pending prompts and background jobs

    constructor (guarded: bool)
      ensures this.guarded == guarded && !running && !rotating && waiting == 0
    {
      this.guarded := guarded;
      running, rotating, waiting := false, false, 0;
    }

    predicate Active()
      reads this
    {
      running || waiting > 0
    }

    predicate Reservable()
      reads this
    {
      guarded && !Active() && !rotating
    }

    /** Claims the rotation flag first and only then looks at prompts and jobs. */
    method BeginRuntimeMutation() returns (ok: bool)
      modifies this`rotating
      ensures ok == old(!running && waiting == 0 && !rotating)
      ensures rotating == (old(rotating) || ok)
    {
      if running || rotating {
        return false;
      }
      rotating := true;
      if waiting > 0 {
        rotating := false;
        return false;
      }
      return true;
    }

    method EndRuntimeMutation()
      modifies this`rotating
      ensures !rotating
    {
      rotating := false;
    }
  }

  predicate Distinct<T(==)>(s: seq<T>) {
    forall i, j :: 0 <= i < j < |s| ==> s[i] != s[j]
  }

  /** Reserves every target or none: it succeeds exactly when the targets are pairwise distinct and each can be
      reserved, and when it fails every claim it made is gone. */
  method BeginLiveControllerRuntimeMutation(targets: seq<Controller>) returns (ok: bool)
    modifies targets`rotating
    ensures ok <==> Distinct(targets) && forall c <- targets :: c.guarded && old(!c.running && c.waiting == 0 && !c.rotating)
    ensures forall c <- targets :: c.rotating == (old(c.rotating) || ok)
  {
    var n := 0;
    while n < |targets|
      invariant 0 <= n <= |targets|
      invariant Distinct(targets[..n])
      invariant forall c <- targets[..n] :: old(c.Reservable()) && c.rotating
      invariant forall c <- targets :: c !in targets[..n] ==> c.rotating == old(c.rotating)
    {
      var c := targets[n];
      var taken := false;
      if c.guarded {
        taken := c.BeginRuntimeMutation();
      }
      if !taken {
        assert c in targets[..n] || !old(c.Reservable());
        ReleaseAll(targets[..n]);
        return false;
      }
      assert targets[..n + 1] == targets[..n] + [c];
      n := n + 1;
    }
    assert targets[..n] == targets;
    return true;
  }

  /** The guards given back in reverse order. */
  method ReleaseAll(taken: seq<Controller>)
    modifies taken`rotating
    ensures forall c <- taken :: !c.rotating
  {
    var i := |taken|;
    while i > 0
      invariant 0 <= i <= |taken|
      invariant forall k :: i <= k < |taken| ==> !taken[k].rotating
    {
      i := i - 1;
      taken[i].EndRuntimeMutation();
    }
  }

  /** The release handed to the caller of a mutation that may end much later.  Using it again does nothing, even if
      another mutation has reserved the same controllers since. */
  class Reservation {
    const targets: seq<Controller>
    var released: bool

    constructor (targets: seq<Controller>)
      ensures this.targets == targets && !released
    {
      this.targets := targets;
      released := false;
    }

    method Release()
      modifies this`released, targets`rotating
      ensures released
      ensures forall c <- targets :: c.rotating == (old(released) && old(c.rotating))
    {
      if !released {
        released := true;
        ReleaseAll(targets);
      }
    }
  }

  /** Work done while every target is reserved; afterwards every flag is what it was. */
  method UnderReservation(targets: seq<Controller>, works: bool) returns (ok: bool)
    modifies targets`rotating
    ensures ok == (works && Distinct(targets) && forall c <- targets :: old(c.Reservable()))
    ensures forall c <- targets :: c.rotating == old(c.rotating)
  {
    ok := BeginLiveControllerRuntimeMutation(targets);
    if ok {
      ok := works;
      ReleaseAll(targets);
    }
  }

  class Tab {
    var ctrl: Controller?
    var generation: nat
    var building: bool          // buildCancel is set
    var removed: bool

    constructor ()
      ensures ctrl == null && generation == 0 && !building && !removed
    {
      ctrl, generation, building, removed := null, 0, false, false;
    }

    /** A startup build a plugin or MCP writer has to invalidate. */
    predicate Superseding()
      reads this
    {
      building && !removed
    }
  }

  class Desktop {
    var tabs: seq<Tab>
    var detached: seq<Tab>
    var pluginGate: bool
    var buildGate: bool
    var rebuildMu: bool

    constructor ()
      ensures Valid() && tabs == [] && detached == [] && GatesFree()
    {
      tabs, detached := [], [];
      pluginGate, buildGate, rebuildMu := false, false, false;
    }

    predicate Valid()
      reads this
    {
      Distinct(tabs + detached)
    }

    predicate GatesFree()
      reads this
    {
      !pluginGate && !buildGate && !rebuildMu
    }

    /** The controllers of the visible and the detached sessions. */
    function Live(): (live: seq<Controller>)
      reads this`tabs, this`detached, tabs`ctrl, detached`ctrl
      ensures forall c <- live :: exists t <- tabs + detached :: t.ctrl == c
      ensures forall t <- tabs + detached :: t.ctrl != null ==> t.ctrl in live
    {
      Controllers(tabs + detached)
    }

    method SnapshotTargets() returns (targets: seq<Controller>)
      ensures targets == Live()
    {
      targets := [];
      var all := tabs + detached;
      var i := 0;
      while i < |all|
        invariant 0 <= i <= |all|
        invariant targets == Controllers(all[..i])
      {
        assert all[..i + 1][..i] == all[..i];
        if all[i].ctrl != null {
          targets := targets + [all[i].ctrl];
        }
        i := i + 1;
      }
      assert all[..i] == all;
    }

    method Supersede() returns (restart: seq<Tab>)
      requires Valid()
      modifies tabs`generation, tabs`building
      ensures Distinct(restart) && forall t :: t in restart <==> t in tabs && old(t.Superseding() && t.ctrl == null)
      ensures forall t <- tabs :: t.building == (old(t.building) && t.removed)
      ensures forall t <- tabs :: t.generation == old(t.generation) + (if old(t.Superseding()) then 1 else 0)
    {
      restart := [];
      var i := 0;
      while i < |tabs|
        invariant 0 <= i <= |tabs|
        invariant Distinct(restart)
        invariant forall t :: t in restart <==> t in tabs[..i] && old(t.Superseding() && t.ctrl == null)
        invariant forall t <- tabs[..i] :: t.building == (old(t.building) && t.removed)
        invariant forall t <- tabs[..i] :: t.generation == old(t.generation) + (if old(t.Superseding()) then 1 else 0)
        invariant forall k :: i <= k < |tabs| ==>
                    tabs[k].building == old(tabs[k].building) && tabs[k].generation == old(tabs[k].generation)
      {
        var tab := tabs[i];
        assert forall k | 0 <= k < |tabs| && k != i :: tab != tabs[k] by {
          assert forall k | 0 <= k < |tabs| :: (tabs + detached)[k] == tabs[k];
        }
        assert tabs[..i + 1] == tabs[..i] + [tab];
        if tab.Superseding() {
          tab.generation := tab.generation + 1;
          tab.building := false;
          if tab.ctrl == null {
            restart := restart + [tab];
          }
        }
        i := i + 1;
      }
      assert tabs[..i] == tabs;
    }

    /** startTabControllerBuild claims the next generation of each tab; it needs the build gate for admission. */
    method Restart(list: seq<Tab>)
      requires Distinct(list) && !buildGate && forall t <- list :: t in tabs
      modifies tabs`generation, tabs`building
      ensures forall t <- tabs :: t !in list ==> t.building == old(t.building) && t.generation == old(t.generation)
      ensures forall t <- list :: t.building == (old(t.building) || !t.removed)
      ensures forall t <- list :: t.generation == old(t.generation) + (if t.removed then 0 else 1)
    {
      var i := 0;
      while i < |list|
        invariant 0 <= i <= |list|
        invariant forall t <- tabs :: t !in list ==> t.building == old(t.building) && t.generation == old(t.generation)
        invariant forall t <- list[..i] :: t.building == (old(t.building) || !t.removed)
        invariant forall t <- list[..i] :: t.generation == old(t.generation) + (if t.removed then 0 else 1)
        invariant forall k :: i <= k < |list| ==>
                    list[k].building == old(list[k].building) && list[k].generation == old(list[k].generation)
      {
        var tab := list[i];
        assert list[..i + 1] == list[..i] + [tab];
        assert tab in tabs;
        if !tab.removed {
          tab.generation := tab.generation + 1;
          tab.building := true;
        }
        i := i + 1;
      }
      assert list[..i] == list;
    }

    predicate CanMutate()
      reads this`tabs, this`detached, tabs`ctrl, detached`ctrl, Live()
    {
      Distinct(Live()) && forall c <- Live() :: c.guarded && !c.running && c.waiting == 0 && !c.rotating
    }

    predicate AnyActive()
      reads this`tabs, this`detached, tabs`ctrl, detached`ctrl, Live()
    {
      exists c <- Live() :: c.running || c.waiting > 0
    }

    /** How a mutation that got past its check leaves one tab while its gates are held. */
    twostate predicate SupersededTab(t: Tab)
      reads t
    {
      && t.building == (old(t.building) && t.removed)
      && t.generation == old(t.generation) + (if old(t.Superseding()) then 1 else 0)
    }

    /** The part of a mutation that runs under the gates. */
    method MutateUnderGates(targets: seq<Controller>, allowed: bool, works: bool)
      returns (ok: bool, restart: seq<Tab>)
      requires Valid() && targets == Live()
      modifies tabs`generation, tabs`building, targets`rotating
      ensures ok == (allowed && works && old(CanMutate()))
      ensures forall c <- targets :: c.rotating == old(c.rotating)
      ensures forall t <- restart :: t in tabs
      ensures allowed && !old(AnyActive()) ==>
                && (forall t :: t in restart <==> t in tabs && old(t.Superseding() && t.ctrl == null))
                && forall t <- tabs :: SupersededTab(t)
      ensures Distinct(restart)
      ensures !allowed || old(AnyActive()) ==>
                restart == [] && forall t <- tabs :: t.building == old(t.building) && t.generation == old(t.generation)
    {
      restart := [];
      ok := false;
      hide Controllers;
      var active := AnyTargetActive(targets);
      if allowed && !active {
        restart := Supersede();
        assert forall c <- targets :: c.Reservable() == old(c.Reservable()) && c.rotating == old(c.rotating);
        label superseded:
        ok := UnderReservation(targets, works);
        assert forall t <- tabs :: t.building == old@superseded(t.building) && t.generation == old@superseded(t.generation);
      } else {
        assert !old(CanMutate()) || !allowed;
      }
    }

    /** A visible tab after a whole mutation: a superseded empty tab is building again under a later generation. */
    twostate predicate RestartedTab(t: Tab, begun: bool)
      reads t
    {
      && t.building == (old(t.building) && (t.removed || t.ctrl == null || !begun))
      && t.generation == old(t.generation) +
           (if !begun || !old(t.Superseding()) then 0 else if t.ctrl == null then 2 else 1)
    }

    /** Supersede, work, and hand the superseded empty tabs back for a restart. */
    method MutateLive(allowed: bool, works: bool) returns (ok: bool, restart: seq<Tab>)
      requires Valid()
      modifies tabs`generation, tabs`building, Live()`rotating
      ensures ok == (allowed && works && old(CanMutate()))
      ensures forall c <- Live() :: c.rotating == old(c.rotating)
      ensures forall t <- restart :: t in tabs
      ensures Distinct(restart)
      ensures forall t <- tabs :: t in restart <==> allowed && !old(AnyActive()) && old(t.Superseding() && t.ctrl == null)
      ensures forall t <- tabs :: if allowed && !old(AnyActive()) then SupersededTab(t)
                                  else t.building == old(t.building) && t.generation == old(t.generation)
    {
      var targets := SnapshotTargets();
      hide Controllers, Distinct;
      assert targets == old(Live());
      ok, restart := MutateUnderGates(targets, allowed, works);
    }

    /** One whole mutation.  Whatever happens inside, the gates are free again, no claim is left behind and no visible
        empty tab has lost its build. */
    method ApplyPluginOperation(allowed: bool, works: bool) returns (ok: bool)
      requires Valid() && GatesFree()
      modifies this`pluginGate, this`buildGate, this`rebuildMu, tabs`generation, tabs`building, Live()`rotating
      ensures GatesFree()
      ensures ok == (allowed && works && old(CanMutate()))
      ensures forall c <- Live() :: c.rotating == old(c.rotating)
      ensures forall t <- tabs :: RestartedTab(t, allowed && !old(AnyActive()))
    {
      hide Controllers, Distinct, Live, AnyActive, CanMutate;
      ghost var begun, can := allowed && !AnyActive(), CanMutate();
      pluginGate, buildGate, rebuildMu := true, true, true;
      assert begun == (allowed && !AnyActive()) && can == CanMutate();
      var restart;
      ok, restart := MutateLive(allowed, works);
      rebuildMu, buildGate, pluginGate := false, false, false;
      Restart(restart);
    }
  }

  method AnyTargetActive(targets: seq<Controller>) returns (active: bool)
    ensures active == exists c <- targets :: c.running || c.waiting > 0
  {
    for i := 0 to |targets|
      invariant forall c <- targets[..i] :: !c.Active()
    {
      if targets[i].Active() {
        return true;
      }
    }
    assert targets[..|targets|] == targets;
    return false;
  }

  /** The controllers of a list of tabs, in order. */
  function Controllers(tabs: seq<Tab>): (r: seq<Controller>)
    reads tabs`ctrl
    ensures forall c <- r :: exists t <- tabs :: t.ctrl == c
    ensures forall t <- tabs :: t.ctrl != null ==> t.ctrl in r
  {
    if tabs == [] then []
    else
      var front, last := tabs[..|tabs| - 1], tabs[|tabs| - 1];
      assert forall t <- tabs :: t in front || t == last;
      Controllers(front) + if last.ctrl == null then [] else [last.ctrl]
  }
}
