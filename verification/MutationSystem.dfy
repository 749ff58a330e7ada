/** The runtime mutation of `RuntimeMutation` interleaved with every other thread: turns start and end, tabs open, close,
    detach and attach, builds are admitted, publish and end.  One label is one critical section.

    Two kinds of build take no gate and no mutex and have no generation: those a provider removal starts on the tabs it
    empties, and the workspace repair reached from steering and from dropped folders.  They are what decides whether a
    working mutation is exclusive. */
module MutationSystem {
  import opened Options

  type Id = int

  /** Who set the controller's rotation flag; the program sees only whether it is set. */
  datatype Claim = Free | Mutation | Rotation

  datatype Controller = Controller(guarded: bool, running: bool, claim: Claim, waiting: int)

  datatype Tab = Tab(ctrl: Option<Id>, generation: int, building: bool)

  datatype Build = Build(tab: Id, generation: int)

  /** The one thread that holds the three gates. */
  datatype Mutator =
    | Outside
    | Gated
    | Checked
    | Superseded
    | Taking(todo: seq<Id>, taken: seq<Id>)
    | Confirming(todo: seq<Id>, taken: seq<Id>, claimed: Id)
    | Holding(taken: seq<Id>)
    | Unwinding(taken: seq<Id>)

  datatype State = State(
    tabs: map<Id, Tab>,             // a.tabs
    created: int,                   // tabs opened so far
    detached: set<Id>,              // controllers of detached sessions
    ctrls: map<Id, Controller>,
    builds: set<Build>,             // startup builds in flight
    loose: map<Id, Id>,             // ungated builds in flight and their tabs
    mutator: Mutator,
    restart: set<Id>,               // what the mutation in progress will restart
    owed: set<Id>,                  // what finished mutations are still restarting
    starved: set<Id>,               // empty tabs whose build a mutation took away and nobody replaced
    strays: set<Id>)                // controllers that ungated builds have published since the snapshot

  datatype Label =
    | Open
    | Admit(tab: Id)
    | Publish(build: Build, made: Id, guarded: bool)
    | EndBuild(build: Build)
    | Swap(tab: Id, made: Id, guarded: bool)
    | Retarget(tab: Id, loose: Id)  // a provider removal empties the tab and starts a build
    | Repair(tab: Id, loose: Id)    // a workspace repair closes an idle controller and starts a build
    | PublishLoose(loose: Id, made: Id, guarded: bool)
    | EndLoose(loose: Id)
    | Remove(tab: Id)
    | Detach(tab: Id)
    | Attach(c: Id, tab: Id)
    | StartTurn(c: Id)
    | Park(c: Id)                   // the running turn asks the user or starts a background job
    | EndTurn(c: Id)
    | Answer(c: Id)
    | Rotate(c: Id)
    | EndRotate(c: Id)
    | Enter
    | Check
    | Supersede
    | Snapshot(order: seq<Id>)
    | ClaimNext
    | Confirm
    | Settle
    | Release
    | Unclaim
    | Leave
    | RestartOne(tab: Id)

  const Init := State(map[], 0, {}, map[], {}, map[], Outside, {}, {}, {}, {})

  function Live(s: State): set<Id> {
    s.detached + set t | t in s.tabs && s.tabs[t].ctrl.Some? :: s.tabs[t].ctrl.value
  }

  predicate Current(s: State, b: Build) {
    b.tab in s.tabs && s.tabs[b.tab].generation == b.generation
  }

  predicate Active(c: Controller) {
    c.running || c.waiting > 0
  }

  predicate AnyActive(s: State) {
    exists c <- Live(s) :: c in s.ctrls && Active(s.ctrls[c])
  }

  /** Empty visible tabs with a build to take away. */
  function Empty(s: State): set<Id> {
    set t | t in s.tabs && s.tabs[t].building && s.tabs[t].ctrl.None?
  }

  predicate Enabled(s: State, l: Label) {
    match l
    case Open => true
    case Admit(t) => s.mutator.Outside? && t in s.tabs
    case Publish(b, made, _) => b in s.builds && made !in s.ctrls
    case EndBuild(b) => b in s.builds
    case Swap(t, made, _) => s.mutator.Outside? && t in s.tabs && made !in s.ctrls
    case Retarget(t, b) => t in s.tabs && b !in s.loose
    case Repair(t, b) =>
      t in s.tabs && b !in s.loose && s.tabs[t].ctrl.Some?
      && s.tabs[t].ctrl.value in s.ctrls && !Active(s.ctrls[s.tabs[t].ctrl.value])
    case PublishLoose(b, made, _) => b in s.loose && made !in s.ctrls
    case EndLoose(b) => b in s.loose
    case Remove(t) => t in s.tabs
    case Detach(t) => t in s.tabs && s.tabs[t].ctrl.Some?
    case Attach(c, t) => c in s.detached && t in s.tabs
    case StartTurn(c) => c in s.ctrls && !s.ctrls[c].running && s.ctrls[c].claim == Free
    case Park(c) => c in s.ctrls && s.ctrls[c].running
    case EndTurn(c) => c in s.ctrls && s.ctrls[c].running
    case Answer(c) => c in s.ctrls && s.ctrls[c].waiting > 0
    case Rotate(c) => c in s.ctrls && !s.ctrls[c].running && s.ctrls[c].claim == Free
    case EndRotate(c) => c in s.ctrls && s.ctrls[c].claim == Rotation
    case Enter => s.mutator.Outside?
    case Check => s.mutator.Gated?
    case Supersede => s.mutator.Checked?
    case Snapshot(order) => s.mutator.Superseded? && (set c | c in order) == Live(s)
    case ClaimNext => s.mutator.Taking? && s.mutator.todo != [] && s.mutator.todo[0] in s.ctrls
    case Confirm => s.mutator.Confirming? && s.mutator.claimed in s.ctrls
    case Settle => s.mutator.Taking? && s.mutator.todo == []
    case Release => s.mutator.Holding?
    case Unclaim => s.mutator.Unwinding? && s.mutator.taken != []
                    && s.mutator.taken[|s.mutator.taken| - 1] in s.ctrls
    case Leave => s.mutator == Unwinding([])
    case RestartOne(t) => s.mutator.Outside? && t in s.owed
  }

  function SetTab(s: State, t: Id, v: Tab): State {
    s.(tabs := s.tabs[t := v])
  }

  function StartBuild(s: State, t: Id): State
    requires t in s.tabs
  {
    var generation := s.tabs[t].generation + 1;
    SetTab(s, t, s.tabs[t].(generation := generation, building := true))
      .(builds := s.builds + {Build(t, generation)}, starved := s.starved - {t})
  }

  /** The mutating thread's own progress. */
  function NextMutator(s: State, l: Label): Mutator
    requires Enabled(s, l)
  {
    match l
    case Enter => Gated
    case Check => if AnyActive(s) then Unwinding([]) else Checked
    case Supersede => Superseded
    case Snapshot(order) => Taking(order, [])
    case ClaimNext =>
      var c, taken := s.mutator.todo[0], s.mutator.taken;
      if !s.ctrls[c].guarded || s.ctrls[c].running || s.ctrls[c].claim != Free then Unwinding(taken)
      else Confirming(s.mutator.todo[1..], taken, c)
    case Confirm =>
      var c, taken := s.mutator.claimed, s.mutator.taken;
      if s.ctrls[c].waiting > 0 then Unwinding(taken) else Taking(s.mutator.todo, taken + [c])
    case Settle => Holding(s.mutator.taken)
    case Release => Unwinding(s.mutator.taken)
    case Unclaim => Unwinding(s.mutator.taken[..|s.mutator.taken| - 1])
    case Leave => Outside
    case _ => s.mutator
  }

  /** What a step does to the controllers themselves. */
  function NextCtrls(s: State, l: Label): map<Id, Controller>
    requires Enabled(s, l)
  {
    match l
    case Publish(b, made, guarded) =>
      if Current(s, b) then s.ctrls[made := Controller(guarded, false, Free, 0)] else s.ctrls
    case PublishLoose(b, made, guarded) =>
      if s.loose[b] in s.tabs then s.ctrls[made := Controller(guarded, false, Free, 0)] else s.ctrls
    case Swap(t, made, guarded) => s.ctrls[made := Controller(guarded, false, Free, 0)]
    case StartTurn(c) => s.ctrls[c := s.ctrls[c].(running := true)]
    case Park(c) => s.ctrls[c := s.ctrls[c].(waiting := s.ctrls[c].waiting + 1)]
    case EndTurn(c) => s.ctrls[c := s.ctrls[c].(running := false)]
    case Answer(c) => s.ctrls[c := s.ctrls[c].(waiting := s.ctrls[c].waiting - 1)]
    case Rotate(c) => s.ctrls[c := s.ctrls[c].(claim := Rotation)]
    case EndRotate(c) => s.ctrls[c := s.ctrls[c].(claim := Free)]
    case ClaimNext =>
      var c := s.mutator.todo[0];
      if !s.ctrls[c].guarded || s.ctrls[c].running || s.ctrls[c].claim != Free then s.ctrls
      else s.ctrls[c := s.ctrls[c].(claim := Mutation)]
    case Confirm =>
      var c := s.mutator.claimed;
      if s.ctrls[c].waiting > 0 then s.ctrls[c := s.ctrls[c].(claim := Free)] else s.ctrls
    case Unclaim =>
      var c := s.mutator.taken[|s.mutator.taken| - 1];
      s.ctrls[c := s.ctrls[c].(claim := Free)]
    case _ => s.ctrls
  }

  /** What a step does to tabs, sessions and builds. */
  function Effects(s: State, l: Label): State
    requires Enabled(s, l)
  {
    match l
    case Open => SetTab(s, s.created, Tab(None, 0, false)).(created := s.created + 1)
    case Admit(t) => StartBuild(s, t)
    case Publish(b, made, _) =>
      if !Current(s, b) then s.(builds := s.builds - {b})
      else
        SetTab(s, b.tab, s.tabs[b.tab].(ctrl := Some(made), building := false))
          .(builds := s.builds - {b}, starved := s.starved - {b.tab})
    case EndBuild(b) =>
      (if Current(s, b) then SetTab(s, b.tab, s.tabs[b.tab].(building := false)) else s).(builds := s.builds - {b})
    case Swap(t, made, _) => SetTab(s, t, Tab(Some(made), s.tabs[t].generation + 1, false)).(starved := s.starved - {t})
    case Retarget(t, b) =>
      SetTab(s, t, Tab(None, s.tabs[t].generation + 1, false)).(loose := s.loose[b := t], starved := s.starved - {t})
    case Repair(t, b) => SetTab(s, t, s.tabs[t].(ctrl := None)).(loose := s.loose[b := t])
    case PublishLoose(b, made, _) =>
      if s.loose[b] !in s.tabs then s.(loose := s.loose - {b})
      else
        SetTab(s, s.loose[b], s.tabs[s.loose[b]].(ctrl := Some(made)))
          .(loose := s.loose - {b}, starved := s.starved - {s.loose[b]},
            strays := if PastSnapshot(s.mutator) then s.strays + {made} else s.strays)
    case EndLoose(b) => s.(loose := s.loose - {b})
    case Remove(t) => s.(tabs := s.tabs - {t}, starved := s.starved - {t})
    case Detach(t) => s.(tabs := s.tabs - {t}, starved := s.starved - {t}, detached := s.detached + {s.tabs[t].ctrl.value})
    case Attach(c, t) =>
      SetTab(s, t, s.tabs[t].(ctrl := Some(c))).(detached := s.detached - {c}, starved := s.starved - {t})
    case Supersede =>
      s.(restart := Empty(s), starved := s.starved + Empty(s),
         tabs := map t | t in s.tabs ::
           if s.tabs[t].building then Tab(s.tabs[t].ctrl, s.tabs[t].generation + 1, false) else s.tabs[t])
    case Snapshot(_) => s.(strays := {})
    case Leave => s.(owed := s.owed + s.restart, restart := {})
    case RestartOne(t) => (if t in s.tabs then StartBuild(s, t) else s).(owed := s.owed - {t})
    case _ => s
  }

  function Next(s: State, l: Label): State
    requires Enabled(s, l)
  {
    Effects(s, l).(mutator := NextMutator(s, l), ctrls := NextCtrls(s, l))
  }

  // ---- What the other threads do ----

  lemma PutBack(ctrls: map<Id, Controller>, c: Id, v: Controller)
    requires c in ctrls
    ensures ctrls[c := v][c := ctrls[c]] == ctrls
  {
  }

  /** A turn shows while it runs, and nothing is left of it when it ends. */
  lemma TurnsEnd(s: State, c: Id)
    requires Enabled(s, StartTurn(c))
    ensures var r := Next(s, StartTurn(c));
      Active(r.ctrls[c]) && Enabled(r, EndTurn(c)) && Enabled(r, Park(c)) && Next(r, EndTurn(c)) == s
  {
    var v := s.ctrls[c];
    PutBack(s.ctrls, c, v.(running := true));
    assert v.(running := true).(running := false) == v;
  }

  /** So does what waits for an answer. */
  lemma WaitsEnd(s: State, c: Id)
    requires Enabled(s, Park(c)) && s.ctrls[c].waiting >= 0
    ensures var r := Next(s, Park(c));
      Active(r.ctrls[c].(running := false)) && Enabled(r, Answer(c)) && Next(r, Answer(c)) == s
  {
    var v := s.ctrls[c];
    PutBack(s.ctrls, c, v.(waiting := v.waiting + 1));
  }

  /** A rotation keeps turns and other rotations out until it ends. */
  lemma RotationsEnd(s: State, c: Id)
    requires Enabled(s, Rotate(c))
    ensures var r := Next(s, Rotate(c));
      !Enabled(r, StartTurn(c)) && !Enabled(r, Rotate(c)) && Enabled(r, EndRotate(c)) && Next(r, EndRotate(c)) == s
  {
    var v := s.ctrls[c];
    PutBack(s.ctrls, c, v.(claim := Rotation));
  }

  /** A build that is admitted overtakes the ones before it. */
  lemma AdmissionOvertakes(s: State, t: Id, b: Build)
    requires Enabled(s, Admit(t))
    ensures var n, mine := Next(s, Admit(t)), Build(t, s.tabs[t].generation + 1);
      mine in n.builds && Current(n, mine) && n.tabs[t].building && (b.tab == t && b != mine ==> !Current(n, b))
  {
  }

  /** A build that is current when it publishes puts its controller on the tab; another leaves every tab as it is. */
  lemma CurrentPublishes(s: State, b: Build, made: Id, guarded: bool)
    requires Enabled(s, Publish(b, made, guarded))
    ensures var n := Next(s, Publish(b, made, guarded));
      && b !in n.builds
      && if Current(s, b) then n.tabs[b.tab].ctrl == Some(made) && made in Live(n) && made in n.ctrls
         else n.tabs == s.tabs && n.ctrls == s.ctrls
  {
  }

  lemma EndedBuildIsGone(s: State, b: Build)
    requires Enabled(s, EndBuild(b))
    ensures var n := Next(s, EndBuild(b));
      b !in n.builds && Live(n) == Live(s) && (Current(s, b) ==> !n.tabs[b.tab].building)
  {
    var n := Next(s, EndBuild(b));
    assert n.tabs.Keys == s.tabs.Keys && forall x <- s.tabs :: n.tabs[x].ctrl == s.tabs[x].ctrl;
  }

  /** A switch puts its controller on the tab and overtakes the tab's build. */
  lemma SwapOvertakes(s: State, t: Id, made: Id, guarded: bool, b: Build)
    requires Enabled(s, Swap(t, made, guarded))
    ensures var n := Next(s, Swap(t, made, guarded));
      n.tabs[t].ctrl == Some(made) && made in Live(n) && made in n.ctrls && (b.tab == t && Current(s, b) ==> !Current(n, b))
  {
  }

  /** A repair empties its tab first; its build can end without leaving a trace. */
  lemma RepairEmpties(s: State, t: Id, b: Id)
    requires Enabled(s, Repair(t, b))
    ensures var n := Next(s, Repair(t, b));
      && n.tabs[t].ctrl.None? && Enabled(n, EndLoose(b))
      && Next(n, EndLoose(b)).tabs == n.tabs && Next(n, EndLoose(b)).loose == s.loose
  {
  }

  /** Closing a tab takes it away; detaching it keeps its controller alive, and attaching a detached session puts its
      controller on the tab. */
  lemma SessionsMove(s: State, t: Id, c: Id)
    ensures Enabled(s, Remove(t)) ==> var n := Next(s, Remove(t)); n.tabs == s.tabs - {t} && n.detached == s.detached
    ensures Enabled(s, Detach(t)) ==>
              var n := Next(s, Detach(t)); n.tabs == s.tabs - {t} && Live(n) == Live(s)
    ensures Enabled(s, Attach(c, t)) ==>
              var n := Next(s, Attach(c, t)); n.tabs[t].ctrl == Some(c) && c !in n.detached && c in Live(n)
  {
    if Enabled(s, Detach(t)) {
      var n := Next(s, Detach(t));
      forall x <- Live(s) ensures x in Live(n) {
        if x !in s.detached {
          var u :| u in s.tabs && s.tabs[u].ctrl == Some(x);
          assert u != t ==> u in n.tabs && n.tabs[u].ctrl == Some(x);
        }
      }
      forall x <- Live(n) ensures x in Live(s) {
        if x !in n.detached {
          var u :| u in n.tabs && n.tabs[u].ctrl == Some(x);
          assert u in s.tabs && s.tabs[u].ctrl == Some(x);
        }
      }
    }
  }

  /** How many steps of its own a mutation has left at most. */
  function Left(m: Mutator): nat {
    match m
    case Outside => 0
    case Unwinding(taken) => 1 + |taken|
    case Holding(taken) => 2 + |taken|
    case Taking(todo, taken) => 3 + 4 * |todo| + |taken|
    case Confirming(todo, taken, _) => 6 + 4 * |todo| + |taken|
    case Superseded => 3
    case Checked => 4
    case Gated => 5
  }

  /** Once its targets are listed, each step of a mutation brings it closer to leaving, whatever it is refused. */
  lemma MutationAdvances(s: State, l: Label)
    requires Enabled(s, l)
    requires l.Check? || l.Supersede? || l.ClaimNext? || l.Confirm? || l.Settle? || l.Release? || l.Unclaim? || l.Leave?
    ensures Left(Next(s, l).mutator) < Left(s.mutator)
    ensures l.Leave? ==> Next(s, l).mutator == Outside && Enabled(Next(s, l), Enter)
  {
    hide Effects, NextCtrls, AnyActive;
  }

  // ---- What every step keeps ----

  /** The guards the mutator has taken. */
  function Taken(m: Mutator): seq<Id> {
    match m
    case Taking(_, taken) => taken
    case Confirming(_, taken, c) => taken + [c]
    case Holding(taken) => taken
    case Unwinding(taken) => taken
    case _ => []
  }

  function Confirmed(m: Mutator): seq<Id> {
    if m.Confirming? then m.taken else Taken(m)
  }

  function Todo(m: Mutator): seq<Id> {
    if m.Taking? || m.Confirming? then m.todo else []
  }

  predicate PastSnapshot(m: Mutator) {
    m.Taking? || m.Confirming? || m.Holding?
  }

  predicate PastSupersede(m: Mutator) {
    m.Superseded? || PastSnapshot(m)
  }

  /** What the mutation has claimed or is about to. */
  function Pool(m: Mutator): set<Id> {
    (set c | c in Todo(m)) + (set c | c in Taken(m))
  }

  ghost predicate Distinct(s: seq<Id>) {
    forall i, j :: 0 <= i < j < |s| ==> s[i] != s[j]
  }

  /** The mutation's claims are exactly the guards it has taken, each once. */
  ghost predicate Claims(s: State) {
    && Distinct(Taken(s.mutator))
    && (forall c <- Taken(s.mutator) :: c in s.ctrls)
    && forall c <- s.ctrls :: s.ctrls[c].claim == Mutation <==> c in Taken(s.mutator)
  }

  /** A claimed controller runs nothing, and a confirmed one has nothing waiting either. */
  ghost predicate Idle(s: State) {
    forall c <- s.ctrls ::
      && (c in Taken(s.mutator) ==> !s.ctrls[c].running)
      && (c in Confirmed(s.mutator) ==> s.ctrls[c].waiting <= 0)
  }

  /** Published controllers exist. */
  ghost predicate CtrlsKnown(s: State) {
    && (forall t <- s.tabs | s.tabs[t].ctrl.Some? :: s.tabs[t].ctrl.value in s.ctrls)
    && (forall c <- s.detached :: c in s.ctrls)
  }

  /** Tabs and builds are of tabs opened so far, and no build is ahead of its tab's generation. */
  ghost predicate BuildsKnown(s: State) {
    && (forall t <- s.tabs :: t < s.created)
    && (forall b <- s.loose :: s.loose[b] < s.created)
    && (forall b <- s.builds :: b.tab < s.created && (b.tab in s.tabs ==> b.generation <= s.tabs[b.tab].generation))
  }

  ghost predicate Known(s: State) {
    CtrlsKnown(s) && BuildsKnown(s)
  }

  /** Only a build that the next writer will supersede can still publish; none can once it has. */
  ghost predicate Cancellable(s: State) {
    forall b <- s.builds :: Current(s, b) ==> s.tabs[b.tab].building && !PastSupersede(s.mutator)
  }

  /** After the snapshot every live controller is to be claimed, is claimed, or is a stray. */
  ghost predicate Covered(s: State) {
    PastSnapshot(s.mutator) ==> Live(s) <= Pool(s.mutator) + s.strays
  }

  /** A stray is never among those the mutation claims. */
  ghost predicate Apart(s: State) {
    PastSnapshot(s.mutator) ==> Pool(s.mutator) !! s.strays && Pool(s.mutator) + s.strays <= s.ctrls.Keys
  }

  ghost predicate Tended(s: State) {
    && (forall t <- s.starved :: t in s.tabs && (t in s.restart || t in s.owed))
    && (s.mutator.Outside? || s.mutator.Gated? || s.mutator.Checked? ==> s.restart == {})
  }

  ghost predicate Sound(s: State) {
    Claims(s) && Idle(s) && Known(s) && Cancellable(s) && Covered(s) && Apart(s) && Tended(s)
  }

  /** The mutator's own steps, as against those of every other thread. */
  predicate Own(l: Label) {
    || l.Enter? || l.Check? || l.Supersede? || l.Snapshot? || l.ClaimNext? || l.Confirm?
    || l.Settle? || l.Release? || l.Unclaim? || l.Leave?
  }

  lemma ClaimNextKeepsClaims(s: State)
    requires Claims(s) && Enabled(s, ClaimNext)
    ensures Claims(Next(s, ClaimNext))
  {
    hide Effects, Live;
    var c := s.mutator.todo[0];
    if s.ctrls[c].claim == Free {
      assert c !in s.mutator.taken;
    }
  }

  lemma ConfirmKeepsClaims(s: State)
    requires Claims(s) && Enabled(s, Confirm)
    ensures Claims(Next(s, Confirm))
  {
    hide Effects;
    var m := s.mutator;
    assert forall k | 0 <= k < |m.taken| :: (m.taken + [m.claimed])[k] == m.taken[k];
    assert (m.taken + [m.claimed])[|m.taken|] == m.claimed;
  }

  lemma SplitLast(taken: seq<Id>)
    requires taken != [] && Distinct(taken)
    ensures var front, last := taken[..|taken| - 1], taken[|taken| - 1];
      Distinct(front) && last !in front && forall c :: c in taken <==> c in front || c == last
  {
    assert taken == taken[..|taken| - 1] + [taken[|taken| - 1]];
  }

  lemma UnclaimKeepsClaims(s: State)
    requires Claims(s) && Enabled(s, Unclaim)
    ensures Claims(Next(s, Unclaim))
  {
    hide Effects;
    SplitLast(s.mutator.taken);
    hide Distinct;
  }

  lemma OwnClaimsStep(s: State, l: Label)
    requires Claims(s) && Enabled(s, l) && Own(l)
    ensures Claims(Next(s, l))
  {
    if l.ClaimNext? {
      ClaimNextKeepsClaims(s);
    } else if l.Confirm? {
      ConfirmKeepsClaims(s);
    } else if l.Unclaim? {
      UnclaimKeepsClaims(s);
    } else {
      hide Effects, Distinct;
      assert Taken(Next(s, l).mutator) == Taken(s.mutator) && Next(s, l).ctrls == s.ctrls;
    }
  }

  /** Other threads neither change the mutator nor touch a claim of its own. */
  lemma OthersKeepClaims(s: State, l: Label)
    requires Claims(s) && Enabled(s, l) && !Own(l)
    ensures Next(s, l).mutator == s.mutator && Claims(Next(s, l))
  {
    hide Effects, Current, Distinct;
  }

  lemma OwnIdleStep(s: State, l: Label)
    requires Claims(s) && Idle(s) && Enabled(s, l) && Own(l)
    ensures Idle(Next(s, l))
  {
    hide Effects, AnyActive, Live, Distinct;
  }

  lemma OthersKeepIdle(s: State, l: Label)
    requires Claims(s) && Idle(s) && Enabled(s, l) && !Own(l)
    ensures Idle(Next(s, l))
  {
    hide Effects, Current, Distinct;
  }

  lemma MadeKnown(s: State, l: Label)
    requires Enabled(s, l)
    ensures l.Publish? && Current(s, l.build) ==> l.made in Next(s, l).ctrls
    ensures l.PublishLoose? && s.loose[l.loose] in s.tabs ==> l.made in Next(s, l).ctrls
    ensures l.Swap? ==> l.made in Next(s, l).ctrls
  {
    hide Effects, NextMutator;
  }

  lemma CtrlsKnownStep(s: State, l: Label)
    requires CtrlsKnown(s) && Enabled(s, l)
    ensures CtrlsKnown(Next(s, l))
  {
    KeysGrow(s, l);
    MadeKnown(s, l);
    hide NextMutator, NextCtrls, AnyActive, Empty, Live;
  }

  lemma BuildsKnownStep(s: State, l: Label)
    requires BuildsKnown(s) && Enabled(s, l)
    ensures BuildsKnown(Next(s, l))
  {
    hide NextMutator, NextCtrls, AnyActive, Empty, Live;
  }

  lemma CancellableStep(s: State, l: Label)
    requires Known(s) && Cancellable(s) && Enabled(s, l)
    ensures Cancellable(Next(s, l))
  {
    hide NextCtrls, AnyActive, Empty, Live;
  }

  lemma OwnStrays(s: State, l: Label)
    requires Enabled(s, l) && Own(l)
    ensures Effects(s, l).strays == if l.Snapshot? then {} else s.strays
  {
    hide AnyActive, Empty, Live;
  }

  /** The snapshot fills the pool; the mutator's later steps only move controllers within it. */
  lemma OwnPool(s: State, l: Label)
    requires Enabled(s, l) && Own(l)
    ensures var n := Next(s, l);
      PastSnapshot(n.mutator) ==>
        if l.Snapshot? then Pool(n.mutator) == Live(s) && n.strays == {}
        else PastSnapshot(s.mutator) && Pool(n.mutator) == Pool(s.mutator) && n.strays == s.strays
  {
    var m := s.mutator;
    hide Effects, Empty, Live, NextCtrls, AnyActive;
    if l.ClaimNext? {
      assert m.todo == [m.todo[0]] + m.todo[1..];
    }
    if !l.Snapshot? {
      assert Effects(s, l).strays == s.strays by {
        hide NextMutator, Pool;
        OwnStrays(s, l);
      }
    } else {
      OwnStrays(s, l);
    }
  }

  lemma LiveKnown(s: State)
    requires Known(s)
    ensures Live(s) <= s.ctrls.Keys
  {
    forall c <- Live(s) ensures c in s.ctrls {
      if c !in s.detached {
        var t :| t in s.tabs && s.tabs[t].ctrl == Some(c);
      }
    }
  }

  lemma OwnKeepsLive(s: State, l: Label)
    requires Enabled(s, l) && Own(l)
    ensures Live(Next(s, l)) == Live(s) && s.ctrls.Keys <= Next(s, l).ctrls.Keys
  {
    KeysGrow(s, l);
    hide AnyActive, Empty, NextMutator, NextCtrls;
    var n := Next(s, l);
    assert n.detached == s.detached && n.tabs.Keys == s.tabs.Keys;
    assert forall t <- s.tabs :: n.tabs[t].ctrl == s.tabs[t].ctrl;
    assert forall c :: c in Live(n) <==> c in Live(s);
  }

  lemma KeysGrow(s: State, l: Label)
    requires Enabled(s, l)
    ensures s.ctrls.Keys <= Next(s, l).ctrls.Keys
  {
    hide Effects, NextMutator;
  }

  lemma OwnCoveredStep(s: State, l: Label)
    requires Covered(s) && Enabled(s, l) && Own(l)
    ensures Covered(Next(s, l))
  {
    OwnPool(s, l);
    OwnKeepsLive(s, l);
    hide Next, Enabled, Live, Pool;
  }

  /** After the snapshot other threads only move or drop live controllers, ungated builds apart. */
  lemma OthersAddStrays(s: State, l: Label)
    requires Cancellable(s) && Enabled(s, l) && !Own(l)
    ensures PastSnapshot(s.mutator) ==> Live(Next(s, l)) <= Live(s) + Next(s, l).strays && s.strays <= Next(s, l).strays
    ensures !l.PublishLoose? ==> Next(s, l).strays == s.strays
    ensures Next(s, l).mutator == s.mutator
  {
    var n := Next(s, l);
    if PastSnapshot(s.mutator) {
      assert forall t <- n.tabs | n.tabs[t].ctrl.Some? :: n.tabs[t].ctrl.value in Live(s) + n.strays;
      assert forall c <- n.detached :: c in Live(s);
    }
  }

  lemma OthersKeepCovered(s: State, l: Label)
    requires Cancellable(s) && Covered(s) && Enabled(s, l) && !Own(l)
    ensures Covered(Next(s, l))
  {
    var n := Next(s, l);
    OthersAddStrays(s, l);
    hide Next, Enabled, Live;
  }

  lemma OwnKeepApart(s: State, l: Label)
    requires Known(s) && Claims(s) && Apart(s) && Enabled(s, l) && Own(l)
    ensures Apart(Next(s, l))
  {
    OwnPool(s, l);
    OwnKeepsLive(s, l);
    LiveKnown(s);
    hide Next, Enabled, Live, Pool, Known, Claims;
  }

  lemma OthersKeepApart(s: State, l: Label)
    requires Claims(s) && Apart(s) && Enabled(s, l) && !Own(l)
    ensures Apart(Next(s, l))
  {
    hide Current, Distinct;
  }

  lemma TendedStep(s: State, l: Label)
    requires Tended(s) && Enabled(s, l)
    ensures Tended(Next(s, l))
  {
    hide NextCtrls, AnyActive, Live;
  }

  lemma SoundStep(s: State, l: Label)
    requires Sound(s) && Enabled(s, l)
    ensures Sound(Next(s, l))
  {
    if Own(l) {
      OwnClaimsStep(s, l);
      OwnIdleStep(s, l);
      OwnCoveredStep(s, l);
      OwnKeepApart(s, l);
    } else {
      OthersKeepClaims(s, l);
      OthersKeepIdle(s, l);
      OthersKeepCovered(s, l);
      OthersKeepApart(s, l);
    }
    CtrlsKnownStep(s, l);
    BuildsKnownStep(s, l);
    CancellableStep(s, l);
    TendedStep(s, l);
    hide Next, Enabled, Claims, Idle, Covered, Apart, CtrlsKnown, BuildsKnown, Cancellable, Tended;
  }

  predicate Possible(s: State, run: seq<Label>)
    decreases |run|
  {
    run == [] || (Enabled(s, run[0]) && Possible(Next(s, run[0]), run[1..]))
  }

  function After(s: State, run: seq<Label>): State
    requires Possible(s, run)
    decreases |run|
  {
    if run == [] then s else After(Next(s, run[0]), run[1..])
  }

  lemma {:induction false} SoundRun(s: State, run: seq<Label>)
    requires Sound(s) && Possible(s, run)
    ensures Sound(After(s, run))
    decreases |run|
  {
    if run != [] {
      SoundStep(s, run[0]);
      SoundRun(Next(s, run[0]), run[1..]);
    }
  }

  // ---- Main results ----

  /** The controller is claimed by the mutation, runs nothing, and no turn can start on it. */
  predicate Reserved(s: State, c: Id) {
    c in s.ctrls && s.ctrls[c].claim == Mutation && !Active(s.ctrls[c]) && !Enabled(s, StartTurn(c))
  }

  lemma HoldingReservesIff(s: State, c: Id)
    requires Claims(s) && Idle(s) && Covered(s) && Apart(s) && s.mutator.Holding? && c in Live(s)
    ensures Reserved(s, c) <==> c !in s.strays
  {
    hide Live, Distinct;
    assert c in Pool(s.mutator) <==> c in s.mutator.taken;
  }

  /** While a mutation is working, a live controller is reserved if and only if it is not a stray: however the mutation and
      the other threads interleaved, only what an ungated build has published since the snapshot escapes. */
  lemma WorkingReservesIff(run: seq<Label>, c: Id)
    requires Possible(Init, run) && After(Init, run).mutator.Holding? && c in Live(After(Init, run))
    ensures Reserved(After(Init, run), c) <==> c !in After(Init, run).strays
  {
    InitSound();
    SoundRun(Init, run);
    hide After, Possible, Claims, Idle, Covered, Apart, Known, Cancellable, Tended, Reserved, Live;
    HoldingReservesIff(After(Init, run), c);
  }

  /** The work is exclusive exactly when no stray is still live. */
  lemma WorkingIsExclusiveIff(run: seq<Label>)
    requires Possible(Init, run) && After(Init, run).mutator.Holding?
    ensures var s := After(Init, run);
      (forall c <- Live(s) :: Reserved(s, c)) <==> (forall c <- Live(s) :: c !in s.strays)
  {
    var s := After(Init, run);
    forall c <- Live(s) ensures Reserved(s, c) <==> c !in s.strays {
      WorkingReservesIff(run, c);
    }
  }

  // ---- The exact condition on the steps ----

  /** From the snapshot on, every live controller is claimed or about to be. */
  ghost predicate Enclosed(s: State) {
    PastSnapshot(s.mutator) ==> Live(s) <= Pool(s.mutator)
  }

  /** No ungated build publishes on a tab that is still there while the mutation is past its snapshot. */
  predicate Timely(s: State, l: Label)
    requires Enabled(s, l)
  {
    l.PublishLoose? ==> !PastSnapshot(s.mutator) || s.loose[l.loose] !in s.tabs
  }

  lemma EnclosedStep(s: State, l: Label)
    requires Sound(s) && Enclosed(s) && Enabled(s, l)
    ensures Enclosed(Next(s, l)) <==> Timely(s, l)
  {
    var n := Next(s, l);
    if Own(l) {
      OwnKeepsEnclosed(s, l);
    } else if l.PublishLoose? {
      LooseEscapes(s, l);
    } else {
      OthersAddStrays(s, l);
      OthersAddNothing(s, l);
      hide Next, Enabled, Live, Sound;
    }
  }

  lemma OwnKeepsEnclosed(s: State, l: Label)
    requires Enclosed(s) && Enabled(s, l) && Own(l)
    ensures Enclosed(Next(s, l))
  {
    OwnPool(s, l);
    OwnKeepsLive(s, l);
    hide Next, Enabled, Live, Pool;
  }

  lemma OthersAddNothing(s: State, l: Label)
    requires Cancellable(s) && Enabled(s, l) && !Own(l) && !l.PublishLoose?
    ensures PastSnapshot(s.mutator) ==> Live(Next(s, l)) <= Live(s)
  {
    var n := Next(s, l);
    if PastSnapshot(s.mutator) {
      assert forall t <- n.tabs | n.tabs[t].ctrl.Some? :: n.tabs[t].ctrl.value in Live(s);
      assert forall c <- n.detached :: c in Live(s);
    }
  }

  /** A publication past the snapshot puts a controller among the live ones that is neither claimed nor about to be. */
  lemma LooseEscapes(s: State, l: Label)
    requires Claims(s) && Apart(s) && Enclosed(s) && Enabled(s, l) && l.PublishLoose?
    ensures Enclosed(Next(s, l)) <==> Timely(s, l)
  {
    var n := Next(s, l);
    if Timely(s, l) {
      if PastSnapshot(s.mutator) {
        assert Live(n) == Live(s);
      }
    } else {
      assert n.tabs[s.loose[l.loose]].ctrl == Some(l.made);
      assert l.made in Live(n);
    }
  }

  ghost predicate EnclosedThroughout(s: State, run: seq<Label>)
    requires Possible(s, run)
    decreases |run|
  {
    Enclosed(s) && (run == [] || EnclosedThroughout(Next(s, run[0]), run[1..]))
  }

  predicate TimelyThroughout(s: State, run: seq<Label>)
    requires Possible(s, run)
    decreases |run|
  {
    run == [] || (Timely(s, run[0]) && TimelyThroughout(Next(s, run[0]), run[1..]))
  }

  /** Over whole runs: mutations enclose all live controllers in every state if and only if no ungated build publishes on a
      live tab between a snapshot and the end of that mutation's work. */
  lemma {:induction false} EnclosedIffTimely(s: State, run: seq<Label>)
    requires Sound(s) && Enclosed(s) && Possible(s, run)
    ensures EnclosedThroughout(s, run) <==> TimelyThroughout(s, run)
    decreases |run|
  {
    if run != [] {
      EnclosedStep(s, run[0]);
      SoundStep(s, run[0]);
      hide Sound, Enclosed, Timely, Enabled, Next;
      if Enclosed(Next(s, run[0])) {
        EnclosedIffTimely(Next(s, run[0]), run[1..]);
      }
    }
  }

  /** In an enclosed state the work is exclusive. */
  lemma EnclosedReserves(s: State)
    requires Sound(s) && Enclosed(s) && s.mutator.Holding?
    ensures forall c <- Live(s) :: Reserved(s, c)
  {
    forall c <- Live(s) ensures Reserved(s, c) {
      assert c in s.mutator.taken;
    }
  }

  /** What a writer could check and enforce: no ungated build is in flight when it supersedes, and none starts while it is
      past that. */
  predicate Gatekept(s: State, l: Label)
    requires Enabled(s, l)
  {
    && (l.Supersede? ==> s.loose == map[])
    && (l.Retarget? || l.Repair? ==> !PastSupersede(s.mutator))
  }

  predicate GatekeptThroughout(s: State, run: seq<Label>)
    requires Possible(s, run)
    decreases |run|
  {
    run == [] || (Gatekept(s, run[0]) && GatekeptThroughout(Next(s, run[0]), run[1..]))
  }

  lemma GatekeptStep(s: State, l: Label)
    requires Enabled(s, l) && Gatekept(s, l) && (PastSupersede(s.mutator) ==> s.loose == map[])
    ensures Timely(s, l)
    ensures PastSupersede(Next(s, l).mutator) ==> Next(s, l).loose == map[]
  {
    hide AnyActive, Empty, Live, Current;
  }

  /** With such a check every mutation is exclusive, in every run. */
  lemma {:induction false} GatekeptIsExclusive(s: State, run: seq<Label>)
    requires Sound(s) && Enclosed(s) && (PastSupersede(s.mutator) ==> s.loose == map[])
    requires Possible(s, run) && GatekeptThroughout(s, run)
    ensures EnclosedThroughout(s, run)
    ensures var e := After(s, run); e.mutator.Holding? ==> forall c <- Live(e) :: Reserved(e, c)
    decreases |run|
  {
    if run != [] {
      GatekeptStep(s, run[0]);
      EnclosedStep(s, run[0]);
      SoundStep(s, run[0]);
      hide Sound, Enclosed, Timely, Enabled, Next, Gatekept, Reserved, Live;
      GatekeptIsExclusive(Next(s, run[0]), run[1..]);
    } else if s.mutator.Holding? {
      EnclosedReserves(s);
    }
  }

  lemma InitSound()
    ensures Sound(Init) && Enclosed(Init)
  {
  }

  lemma ConsRun(s: State, l: Label, n: State, rest: seq<Label>)
    requires Enabled(s, l) && Next(s, l) == n && Possible(n, rest)
    ensures Possible(s, [l] + rest) && After(s, [l] + rest) == After(n, rest)
  {
    assert ([l] + rest)[1..] == rest;
  }

  const Opened := Init.(tabs := map[0 := Tab(None, 0, false)], created := 1)
  const Retargeted := Opened.(tabs := map[0 := Tab(None, 1, false)], loose := map[5 := 0])
  const Entered := Retargeted.(mutator := Gated)
  const Cleared := Retargeted.(mutator := Checked)
  const Advanced := Retargeted.(mutator := Superseded)
  const Listed := Retargeted.(mutator := Taking([], []))
  const Working := Retargeted.(mutator := Holding([]))
  const Escaped := Working.(tabs := map[0 := Tab(Some(7), 1, false)], loose := map[], strays := {7},
                            ctrls := map[7 := Controller(true, false, Free, 0)])

  lemma WriterArrives()
    ensures Enabled(Init, Open) && Next(Init, Open) == Opened
    ensures Enabled(Opened, Retarget(0, 5)) && Next(Opened, Retarget(0, 5)) == Retargeted
    ensures Enabled(Retargeted, Enter) && Next(Retargeted, Enter) == Entered
  {
  }

  lemma WriterChecks()
    ensures Enabled(Entered, Check) && Next(Entered, Check) == Cleared
    ensures Enabled(Cleared, Supersede) && Next(Cleared, Supersede) == Advanced
  {
    assert !AnyActive(Entered);
    assert Empty(Cleared) == {} && Next(Cleared, Supersede).tabs == Cleared.tabs;
  }

  lemma WriterLists()
    ensures Enabled(Advanced, Snapshot([])) && Next(Advanced, Snapshot([])) == Listed
  {
    assert Live(Advanced) == {};
  }

  lemma WriterWorks()
    ensures Enabled(Listed, Settle) && Next(Listed, Settle) == Working
    ensures Enabled(Working, PublishLoose(5, 7, true)) && Next(Working, PublishLoose(5, 7, true)) == Escaped
    ensures 7 in Live(Escaped) && !Reserved(Escaped, 7) && Enabled(Escaped, StartTurn(7))
  {
    assert Escaped.tabs[0].ctrl == Some(7);
  }

  lemma ToWorking(rest: seq<Label>)
    requires Possible(Working, rest)
    ensures exists run :: Possible(Retargeted, run) && After(Retargeted, run) == After(Working, rest)
  {
    WriterArrives();
    WriterChecks();
    WriterLists();
    WriterWorks();
    hide *;
    ConsRun(Listed, Settle, Working, rest);
    ConsRun(Advanced, Snapshot([]), Listed, [Settle] + rest);
    ConsRun(Cleared, Supersede, Advanced, [Snapshot([])] + ([Settle] + rest));
    ConsRun(Entered, Check, Cleared, [Supersede] + ([Snapshot([])] + ([Settle] + rest)));
    ConsRun(Retargeted, Enter, Entered, [Check] + ([Supersede] + ([Snapshot([])] + ([Settle] + rest))));
  }

  /** It is not exclusive as it is: a build that a provider removal started before the writer arrived publishes while the
      mutation is working, and a turn can start on its controller. */
  lemma UngatedBuildEscapes()
    ensures exists run :: Possible(Init, run)
              && var s := After(Init, run);
                 s.mutator.Holding? && 7 in Live(s) && !Reserved(s, 7) && Enabled(s, StartTurn(7))
  {
    WriterArrives();
    WriterWorks();
    assert Escaped.mutator.Holding? && Possible(Escaped, []) && After(Escaped, []) == Escaped;
    hide *;
    ConsRun(Working, PublishLoose(5, 7, true), Escaped, []);
    ToWorking([PublishLoose(5, 7, true)] + []);
    var run :| Possible(Retargeted, run) && After(Retargeted, run) == Escaped;
    ConsRun(Opened, Retarget(0, 5), Retargeted, run);
    ConsRun(Init, Open, Opened, [Retarget(0, 5)] + run);
  }

  /** Once a mutation is over, whether it was refused at the check, failed at some guard or ran to its end, it has left
      no controller claimed; and every empty tab whose build it took away is restarted or is owed its restart. */
  lemma FinishedLeavesNothing(run: seq<Label>)
    requires Possible(Init, run) && After(Init, run).mutator.Outside?
    ensures var s := After(Init, run);
      && (forall c <- s.ctrls :: s.ctrls[c].claim != Mutation)
      && s.starved <= s.owed
      && (forall t <- s.owed :: Enabled(s, RestartOne(t)) && t !in Next(s, RestartOne(t)).owed)
  {
    InitSound();
    SoundRun(Init, run);
    hide After, Possible, Known, Cancellable, Idle, Covered, Apart;
    OutsideLeavesNothing(After(Init, run));
    hide Claims, Tended, Next, Enabled;
  }

  lemma OutsideLeavesNothing(s: State)
    requires Claims(s) && Tended(s) && s.mutator.Outside?
    ensures forall c <- s.ctrls :: s.ctrls[c].claim != Mutation
    ensures s.starved <= s.owed
    ensures forall t <- s.owed :: Enabled(s, RestartOne(t)) && t !in Next(s, RestartOne(t)).owed
  {
    assert s.restart == {};
    assert forall t <- s.starved :: t in s.owed;
  }

  /** A build admitted before the writer arrived never publishes once the writer has superseded it: until the writer is
      done, no visible tab gains a controller by publishing. */
  lemma SupersededNeverPublishes(run: seq<Label>, build: Build, made: Id, guarded: bool)
    requires Possible(Init, run) && PastSupersede(After(Init, run).mutator)
    requires Enabled(After(Init, run), Publish(build, made, guarded))
    ensures Next(After(Init, run), Publish(build, made, guarded)).tabs == After(Init, run).tabs
    ensures made !in Next(After(Init, run), Publish(build, made, guarded)).ctrls
  {
    SoundRun(Init, run);
  }
}
