/** Shared plugin hosts under every interleaving of builds, swaps, removals, detaching and attaching.

    A tab's host key is published before the reference is taken, and whoever takes the key gives a reference back.  The
    count stays equal to the number of holders exactly while the guard `Careful`, which speaks of the holders, is met at
    each step; `Orderly` is the same guard in terms of what the program can see.  Runs from the empty application show that
    the program does not always meet it. */
module HostSystem {

  type Id = int
  type Root = int

  datatype Thread =
    | Idle
    | Started(tab: Id, generation: int)               // generation 0: a synchronous build
    | Keyed(tab: Id, generation: int, root: Root)     // key published, reference not yet taken
    | Acquired(tab: Id, generation: int, root: Root)
    | Releasing(root: Root)

  datatype Holder = ByThread(thread: Id) | ByTab(tab: Id)

  datatype State = State(
    created: int,                  // tab objects so far
    live: set<Id>,                 // reachable through a.tabs
    generation: map<Id, int>,
    keys: map<Id, Root>,           // tab.SharedHostKey, absent when empty
    running: set<Id>,              // tabs whose controller uses the host of their key
    threads: map<Id, Thread>,
    refs: map<Root, int>,          // a.sharedHosts
    held: map<Holder, Root>)       // bookkeeping: who answers for one reference

  datatype Label =
    | Open
    | Start(thread: Id, onTab: Id)
    | StartSync(thread: Id, onTab: Id)
    | Publish(thread: Id, at: Root)
    | Acquire(thread: Id)
    | Fail(thread: Id)                    // boot.Build or the session lease fails
    | Yield(thread: Id)                   // an existing runtime was attached instead
    | Finish(thread: Id)
    | Release(thread: Id)
    | Take(thread: Id, onTab: Id)         // takeTabSharedHostKey after the controller is closed
    | Close(onTab: Id)                    // a rebind closes the controller and keeps the key
    | Supersede(onTab: Id)
    | Remove(onTab: Id)
    | Swap(onTab: Id)                     // a rebuilt controller reuses the tab's host
    | Detach(onTab: Id)
    | Attach(onTab: Id, source: Id)

  const Init := State(0, {}, map[], map[], {}, map[], map[], map[])

  function Pc(s: State, t: Id): Thread {
    if t in s.threads then s.threads[t] else Idle
  }

  function Generation(s: State, tab: Id): int {
    if tab in s.generation then s.generation[tab] else 0
  }

  function Refs(s: State, root: Root): int {
    if root in s.refs then s.refs[root] else 0
  }

  predicate Superseded(s: State, tab: Id, generation: int) {
    tab !in s.live || (generation != 0 && Generation(s, tab) != generation)
  }

  /** The tab's runtime answers for a reference of its own. */
  predicate Owns(s: State, tab: Id) {
    ByTab(tab) in s.held
  }

  predicate Enabled(s: State, l: Label) {
    match l
    case Open => true
    case Start(t, tab) => Pc(s, t) == Idle && tab in s.live
    case StartSync(t, tab) => Pc(s, t) == Idle && tab in s.live
    case Publish(t, _) => Pc(s, t).Started?
    case Acquire(t) => Pc(s, t).Keyed?
    case Fail(t) => Pc(s, t).Acquired?
    case Yield(t) => Pc(s, t).Acquired?
    case Finish(t) => Pc(s, t).Acquired?
    case Release(t) => Pc(s, t).Releasing?
    case Take(t, tab) => Pc(s, t) == Idle && 0 <= tab < s.created
    case Close(tab) => tab in s.live
    case Supersede(tab) => tab in s.live
    case Remove(tab) => tab in s.live
    case Swap(tab) => tab in s.live && tab in s.keys
    case Detach(tab) => tab in s.live
    case Attach(tab, source) => tab in s.live && 0 <= source < s.created && source != tab
  }

  function Move(s: State, t: Id, p: Thread): State {
    s.(threads := s.threads[t := p])
  }

  function Bump(s: State, tab: Id): State {
    s.(generation := s.generation[tab := Generation(s, tab) + 1])
  }

  function With<K, V>(m: map<K, V>, k: K, from: map<K, V>, source: K): map<K, V> {
    if source in from then m[k := from[source]] else m - {k}
  }

  /** The tab's key is cleared and the thread now has to release it. */
  function TakeKey(s: State, t: Id, tab: Id): State {
    if tab !in s.keys then Move(s, t, Idle).(held := s.held - {ByThread(t)})
    else
      Move(s, t, Releasing(s.keys[tab]))
        .(keys := s.keys - {tab}, held := (s.held - {ByTab(tab)})[ByThread(t) := s.keys[tab]])
  }

  function Next(s: State, l: Label): State
    requires Enabled(s, l)
  {
    match l
    case Open => s.(created := s.created + 1, live := s.live + {s.created})
    case Start(t, tab) => Move(Bump(s, tab), t, Started(tab, Generation(s, tab) + 1))
    case StartSync(t, tab) => Move(s, t, Started(tab, 0))
    case Publish(t, root) =>
      var p := Pc(s, t);
      if Superseded(s, p.tab, p.generation) then Move(s, t, Idle)
      else Move(s, t, Keyed(p.tab, p.generation, root)).(keys := s.keys[p.tab := root])
    case Acquire(t) =>
      var p := Pc(s, t);
      Move(s, t, Acquired(p.tab, p.generation, p.root))
        .(refs := s.refs[p.root := Refs(s, p.root) + 1], held := s.held[ByThread(t) := p.root])
    case Fail(t) =>
      var p := Pc(s, t);
      if Superseded(s, p.tab, p.generation) then Move(s, t, Releasing(p.root)) else TakeKey(s, t, p.tab)
    case Yield(t) => Move(s, t, Releasing(Pc(s, t).root))
    case Finish(t) =>
      var p := Pc(s, t);
      if Superseded(s, p.tab, p.generation) then Move(s, t, Releasing(p.root))
      else
        Move(s, t, Idle)
          .(running := s.running + {p.tab}, held := (s.held - {ByThread(t)})[ByTab(p.tab) := p.root])
    case Release(t) =>
      var root := Pc(s, t).root;
      Move(s, t, Idle)
        .(held := s.held - {ByThread(t)},
          refs := if Refs(s, root) <= 1 then s.refs - {root} else s.refs[root := Refs(s, root) - 1])
    case Take(t, tab) => TakeKey(s, t, tab).(running := s.running - {tab})
    case Close(tab) => s.(running := s.running - {tab})
    case Supersede(tab) => Bump(s, tab)
    case Remove(tab) => s.(live := s.live - {tab})
    case Swap(tab) => Bump(s, tab).(running := s.running + {tab})
    case Detach(tab) =>
      var clone := s.created;
      s.(created := clone + 1,
         keys := With(s.keys, clone, s.keys, tab),
         held := With(s.held, ByTab(clone), s.held, ByTab(tab)) - {ByTab(tab)},
         running := (s.running - {tab}) + if tab in s.running then {clone} else {})
    case Attach(tab, source) =>
      s.(live := s.live - {source},
         keys := With(s.keys, tab, s.keys, source),
         held := With(s.held, ByTab(tab), s.held, ByTab(source)) - {ByTab(source)},
         running := (s.running - {tab, source}) + if source in s.running then {tab} else {})
  }

  // ---- Going on ----

  /** How many steps of its own a thread has left at most. */
  function Left(p: Thread): nat {
    match p
    case Idle => 0
    case Releasing(_) => 1
    case Acquired(_, _, _) => 2
    case Keyed(_, _, _) => 3
    case Started(_, _) => 4
  }

  /** Each step of a build brings it closer to its end: it hands its reference to the tab or goes on to release it. */
  lemma BuildAdvances(s: State, l: Label)
    requires Enabled(s, l) && (l.Publish? || l.Acquire? || l.Fail? || l.Yield? || l.Finish? || l.Release?)
    ensures var p, q := Pc(s, l.thread), Pc(Next(s, l), l.thread);
      && Left(q) < Left(p)
      && (l.Yield? ==> q == Releasing(p.root))
      && (l.Finish? && Superseded(s, p.tab, p.generation) ==> q == Releasing(p.root))
      && (l.Release? ==> q == Idle)
  {
  }

  /** A superseded startup build never gets to publish its key or to keep its reference for the tab. */
  lemma SupersedesBuild(s: State, tab: Id, t: Id)
    requires tab in s.live && Generation(s, tab) > 0
    requires var p := Pc(s, t); (p.Started? || p.Acquired?) && p.tab == tab && p.generation == Generation(s, tab)
    ensures var n := Next(s, Supersede(tab));
      && (Pc(s, t).Started? ==> forall root :: Next(n, Publish(t, root)).keys == n.keys)
      && (Pc(s, t).Acquired? ==> Next(n, Finish(t)).running == n.running && Pc(Next(n, Finish(t)), t).Releasing?)
  {
  }

  // ---- What is to be kept ----

  function Holders(held: map<Holder, Root>, root: Root): set<Holder> {
    set h | h in held && held[h] == root
  }

  function Count(held: map<Holder, Root>, root: Root): nat {
    |Holders(held, root)|
  }

  ghost predicate Answers(s: State, t: Id) {
    match Pc(s, t)
    case Acquired(_, _, root) => ByThread(t) in s.held && s.held[ByThread(t)] == root
    case Releasing(root) => ByThread(t) in s.held && s.held[ByThread(t)] == root
    case _ => ByThread(t) !in s.held
  }

  predicate OnTab(p: Thread, created: int) {
    p.Started? || p.Keyed? || p.Acquired? ==> 0 <= p.tab < created
  }

  /** Threads between taking and giving back answer for one reference of their root; the others for none. */
  ghost predicate Answering(s: State) {
    && (forall t :: Answers(s, t))
    && (forall root <- s.refs :: s.refs[root] > 0)
  }

  ghost predicate Ranged(s: State) {
    && s.created >= 0
    && (forall tab <- s.live :: 0 <= tab < s.created)
    && (forall tab <- s.keys :: 0 <= tab < s.created)
    && (forall tab <- s.running :: 0 <= tab < s.created)
    && (forall h <- s.held :: h.ByTab? ==> 0 <= h.tab < s.created)
    && (forall t :: OnTab(Pc(s, t), s.created))
  }

  /** Kept by every step, careful or not. */
  ghost predicate Formed(s: State) {
    Answering(s) && Ranged(s)
  }

  /** A root's count is the number of its holders. */
  ghost predicate Balanced(s: State) {
    forall root :: Refs(s, root) == Count(s.held, root)
  }

  /** A tab that owns a reference carries its key, so the reference can be given back. */
  ghost predicate Returnable(s: State) {
    forall tab :: Owns(s, tab) ==> tab in s.keys && s.keys[tab] == s.held[ByTab(tab)]
  }

  /** A running controller's tab owns a reference, so its host stays open. */
  ghost predicate Served(s: State) {
    forall tab <- s.running :: Owns(s, tab)
  }

  ghost predicate Sound(s: State) {
    Balanced(s) && Returnable(s) && Served(s)
  }

  /** The key on the tab is the build's own and no runtime of the tab answers for a reference. */
  predicate Settles(s: State, p: Thread)
    requires p.Acquired?
  {
    Superseded(s, p.tab, p.generation) || (!Owns(s, p.tab) && p.tab in s.keys && s.keys[p.tab] == p.root)
  }

  /** The guard of each step that may upset the count. */
  predicate Careful(s: State, l: Label)
    requires Enabled(s, l)
  {
    match l
    case Publish(t, root) =>
      var p := Pc(s, t);
      Superseded(s, p.tab, p.generation) || !Owns(s, p.tab) || s.held[ByTab(p.tab)] == root
    case Fail(t) => Settles(s, Pc(s, t))
    case Finish(t) => Settles(s, Pc(s, t))
    case Take(_, tab) => tab in s.keys ==> Owns(s, tab)
    case Swap(tab) => Owns(s, tab)
    case Attach(tab, _) => !Owns(s, tab)
    case _ => true
  }

  /** The steps that move a thread. */
  predicate OfThread(l: Label) {
    l.Start? || l.StartSync? || l.Publish? || l.Acquire? || l.Fail? || l.Yield? || l.Finish? || l.Release? || l.Take?
  }

  lemma MovedAnswers(s: State, l: Label)
    requires OfThread(l) && Answers(s, l.thread) && Enabled(s, l)
    ensures Answers(Next(s, l), l.thread)
  {
    hide Superseded, Generation, Refs, With;
  }

  /** The other threads stay where they are and keep what they answer for. */
  predicate Unmoved(s: State, n: State, t: Id) {
    && Pc(n, t) == Pc(s, t)
    && (ByThread(t) in n.held <==> ByThread(t) in s.held)
    && (ByThread(t) in s.held ==> n.held[ByThread(t)] == s.held[ByThread(t)])
  }

  lemma OtherAnswers(s: State, l: Label, t: Id)
    requires Enabled(s, l) && (OfThread(l) ==> t != l.thread)
    ensures Unmoved(s, Next(s, l), t)
  {
    if OfThread(l) {
      ThreadStepUnmoved(s, l, t);
    } else {
      TabStepUnmoved(s, l, t);
    }
  }

  lemma ThreadStepUnmoved(s: State, l: Label, t: Id)
    requires Enabled(s, l) && OfThread(l) && t != l.thread
    ensures Unmoved(s, Next(s, l), t)
  {
    hide Superseded, Generation, Refs, With;
  }

  lemma TabStepUnmoved(s: State, l: Label, t: Id)
    requires Enabled(s, l) && !OfThread(l)
    ensures Unmoved(s, Next(s, l), t)
  {
    hide Superseded, Generation, Refs, TakeKey;
  }

  lemma AnsweringStep(s: State, l: Label)
    requires Answering(s) && Enabled(s, l)
    ensures Answering(Next(s, l))
  {
    forall t ensures Answers(Next(s, l), t) {
      assert Answers(s, t);
      hide Next, Enabled;
      if OfThread(l) && t == l.thread {
        MovedAnswers(s, l);
      } else {
        OtherAnswers(s, l, t);
      }
    }
    hide Superseded, Generation, Owns, Answers, With;
  }

  lemma RangedTabs(s: State, l: Label)
    requires Ranged(s) && Enabled(s, l)
    ensures var n := Next(s, l);
      && n.created >= s.created
      && (forall tab <- n.live :: 0 <= tab < n.created)
      && (forall tab <- n.running :: 0 <= tab < n.created)
  {
    hide Superseded, Owns, Generation, Refs, With;
    if OfThread(l) {
      assert Next(s, l).created == s.created && Next(s, l).live == s.live;
    } else {
      hide TakeKey;
    }
  }

  lemma RangedThreads(s: State, l: Label)
    requires Ranged(s) && Enabled(s, l)
    ensures forall t :: OnTab(Pc(Next(s, l), t), Next(s, l).created)
  {
    RangedTabs(s, l);
    forall t ensures OnTab(Pc(Next(s, l), t), Next(s, l).created) {
      assert OnTab(Pc(s, t), s.created);
      if OfThread(l) && t == l.thread {
        MovedOnTab(s, l);
      } else {
        OtherAnswers(s, l, t);
      }
      hide Next, Enabled;
    }
    hide Next;
  }

  lemma MovedOnTab(s: State, l: Label)
    requires Ranged(s) && Enabled(s, l) && OfThread(l)
    ensures OnTab(Pc(Next(s, l), l.thread), Next(s, l).created)
  {
    hide Superseded, Owns, Generation, Refs, With;
    assert OnTab(Pc(s, l.thread), s.created);
  }

  lemma RangedHolders(s: State, l: Label)
    requires Ranged(s) && Enabled(s, l)
    ensures var n := Next(s, l);
      && (forall tab <- n.keys :: 0 <= tab < n.created)
      && (forall h <- n.held :: h.ByTab? ==> 0 <= h.tab < n.created)
  {
    hide Superseded, Owns, Generation, Refs;
  }

  lemma RangedStep(s: State, l: Label)
    requires Ranged(s) && Enabled(s, l)
    ensures Ranged(Next(s, l))
  {
    RangedTabs(s, l);
    RangedThreads(s, l);
    RangedHolders(s, l);
    hide Next, Enabled;
  }

  // ---- Counting ----

  lemma CountAdd(held: map<Holder, Root>, h: Holder, root: Root)
    requires h !in held
    ensures forall x :: Count(held[h := root], x) == Count(held, x) + if x == root then 1 else 0
  {
    forall x ensures Count(held[h := root], x) == Count(held, x) + if x == root then 1 else 0 {
      CountAddAt(held, h, root, x);
    }
    hide Count;
  }

  lemma CountAddAt(held: map<Holder, Root>, h: Holder, root: Root, x: Root)
    requires h !in held
    ensures Count(held[h := root], x) == Count(held, x) + if x == root then 1 else 0
  {
    assert Holders(held[h := root], x) == Holders(held, x) + if x == root then {h} else {};
  }

  lemma CountDrop(held: map<Holder, Root>, h: Holder)
    ensures forall x :: Count(held - {h}, x) == Count(held, x) - if h in held && x == held[h] then 1 else 0
  {
    if h in held {
      CountAdd(held - {h}, h, held[h]);
      assert (held - {h})[h := held[h]] == held;
    } else {
      assert held - {h} == held;
    }
  }

  /** One holder hands its reference to another. */
  lemma CountMove(held: map<Holder, Root>, from: Holder, to: Holder)
    requires from in held && to !in held
    ensures forall x :: Count((held - {from})[to := held[from]], x) == Count(held, x)
  {
    CountDrop(held, from);
    CountAdd(held - {from}, to, held[from]);
  }

  // ---- The exact condition, step by step ----

  /** Steps that touch neither counts nor owners. */
  predicate Quiet(l: Label) {
    || l.Open? || l.Start? || l.StartSync? || l.Yield? || l.Close? || l.Supersede? || l.Remove? || l.Publish? || l.Swap?
  }

  lemma QuietKeepsCounts(s: State, l: Label)
    requires Enabled(s, l) && Quiet(l)
    ensures var n := Next(s, l);
      && n.held == s.held && n.refs == s.refs
      && (if l.Publish? then n.running == s.running else n.keys == s.keys)
      && n.running <= s.running + if l.Swap? then {l.onTab} else {}
  {
    hide With, TakeKey;
  }

  lemma QuietExact(s: State, l: Label)
    requires Formed(s) && Sound(s) && Enabled(s, l) && Quiet(l)
    ensures Sound(Next(s, l)) <==> Careful(s, l)
  {
    var n := Next(s, l);
    QuietKeepsCounts(s, l);
    assert forall tab :: Owns(n, tab) == Owns(s, tab);
    assert Balanced(n) by {
      assert forall root :: Refs(n, root) == Refs(s, root);
    }
    hide Balanced, Formed, With, TakeKey;
    if l.Publish? {
      var p := Pc(s, l.thread);
      if Owns(s, p.tab) && !Superseded(s, p.tab, p.generation) && s.held[ByTab(p.tab)] != l.at {
        assert Owns(n, p.tab);
      }
    } else if l.Swap? {
      assert l.onTab in n.running;
    } else {
      hide Next;
    }
  }

  lemma AcquireKeeps(s: State, t: Id)
    requires Formed(s) && Sound(s) && Enabled(s, Acquire(t))
    ensures Sound(Next(s, Acquire(t)))
  {
    assert Answers(s, t);
    var n, root := Next(s, Acquire(t)), Pc(s, t).root;
    CountAdd(s.held, ByThread(t), root);
    assert forall x :: Refs(n, x) == Refs(s, x) + if x == root then 1 else 0;
    assert forall tab :: Owns(n, tab) == Owns(s, tab);
  }

  lemma ReleaseKeeps(s: State, t: Id)
    requires Formed(s) && Sound(s) && Enabled(s, Release(t))
    ensures Sound(Next(s, Release(t)))
  {
    assert Answers(s, t);
    var n, root := Next(s, Release(t)), Pc(s, t).root;
    CountDrop(s.held, ByThread(t));
    assert Refs(s, root) == Count(s.held, root);
    assert forall x :: Refs(n, x) == Refs(s, x) - if x == root then 1 else 0;
    assert forall tab :: Owns(n, tab) == Owns(s, tab);
  }

  /** Taking a key: nothing to take costs the thread its reference if it has one; a key that no runtime of the tab
      answers for must be the thread's own. */
  lemma TakeKeyExact(s: State, t: Id, tab: Id)
    requires Formed(s) && Sound(s)
    requires Pc(s, t) == Idle || Pc(s, t).Acquired?
    ensures var mine := ByThread(t) in s.held;
      Balanced(TakeKey(s, t, tab)) <==>
      if mine then tab in s.keys && !Owns(s, tab) && s.keys[tab] == s.held[ByThread(t)]
      else tab in s.keys ==> Owns(s, tab)
    ensures Returnable(TakeKey(s, t, tab))
    ensures forall x :: Owns(TakeKey(s, t, tab), x) == (Owns(s, x) && x != tab)
  {
    assert Answers(s, t);
    var n := TakeKey(s, t, tab);
    var byThread, byTab := ByThread(t), ByTab(tab);
    assert Owns(s, tab) ==> tab in s.keys;
    assert forall x :: Owns(n, x) == (Owns(s, x) && x != tab);
    assert forall x :: Refs(n, x) == Refs(s, x);
    CountDrop(s.held, byThread);
    if tab in s.keys {
      var key := s.keys[tab];
      CountDrop(s.held - {byTab}, byThread);
      CountDrop(s.held, byTab);
      CountAdd(s.held - {byTab} - {byThread}, byThread, key);
      assert (s.held - {byTab})[byThread := key] == (s.held - {byTab} - {byThread})[byThread := key];
      assert n.held == (s.held - {byTab})[byThread := key];
      assert Refs(n, key) == Count(s.held, key);
      if byThread in s.held {
        assert Refs(n, s.held[byThread]) == Count(s.held, s.held[byThread]);
      }
    } else if byThread in s.held {
      assert Refs(n, s.held[byThread]) == Count(s.held, s.held[byThread]);
    }
  }

  lemma TakeExact(s: State, t: Id, tab: Id)
    requires Formed(s) && Sound(s) && Enabled(s, Take(t, tab))
    ensures Sound(Next(s, Take(t, tab))) <==> Careful(s, Take(t, tab))
  {
    assert Answers(s, t);
    var k, n := TakeKey(s, t, tab), Next(s, Take(t, tab));
    TakeKeyExact(s, t, tab);
    assert forall x :: Owns(n, x) == Owns(k, x);
    assert forall root :: Refs(n, root) == Refs(k, root);
    assert Balanced(n) <==> Balanced(k);
    assert Returnable(n);
    assert Served(n);
  }

  lemma FailExact(s: State, t: Id)
    requires Formed(s) && Sound(s) && Enabled(s, Fail(t))
    ensures Sound(Next(s, Fail(t))) <==> Careful(s, Fail(t))
  {
    assert Answers(s, t);
    var p, n := Pc(s, t), Next(s, Fail(t));
    if Superseded(s, p.tab, p.generation) {
      assert forall x :: Owns(n, x) == Owns(s, x);
      assert forall root :: Refs(n, root) == Refs(s, root);
    } else {
      TakeKeyExact(s, t, p.tab);
      assert Careful(s, Fail(t)) <==> Balanced(n);
    }
  }

  lemma FinishExact(s: State, t: Id)
    requires Formed(s) && Sound(s) && Enabled(s, Finish(t))
    ensures Sound(Next(s, Finish(t))) <==> Careful(s, Finish(t))
  {
    assert Answers(s, t);
    var p, n := Pc(s, t), Next(s, Finish(t));
    assert forall root :: Refs(n, root) == Refs(s, root);
    if Superseded(s, p.tab, p.generation) {
      assert forall x :: Owns(n, x) == Owns(s, x);
    } else {
      var byThread, byTab := ByThread(t), ByTab(p.tab);
      assert forall x :: Owns(n, x) == (Owns(s, x) || x == p.tab);
      assert Owns(n, p.tab) && n.held[byTab] == p.root;
      if Owns(s, p.tab) {
        CountDrop(s.held, byThread);
        CountDrop(s.held - {byThread}, byTab);
        CountAdd(s.held - {byThread} - {byTab}, byTab, p.root);
        assert n.held == (s.held - {byThread} - {byTab})[byTab := p.root];
        var root := s.held[byTab];
        assert Refs(n, root) == Count(s.held, root) && Count(n.held, root) == Count(s.held, root) - 1;
      } else {
        CountMove(s.held, byThread, byTab);
      }
    }
  }

  lemma DetachBalance(s: State, tab: Id)
    requires Formed(s) && Enabled(s, Detach(tab))
    ensures var n := Next(s, Detach(tab));
      && (Balanced(n) <==> Balanced(s))
      && forall x :: Owns(n, x) == (if x == s.created then Owns(s, tab) else Owns(s, x) && x != tab)
  {
    var n, clone := Next(s, Detach(tab)), s.created;
    assert ByTab(clone) !in s.held;
    if Owns(s, tab) {
      CountMove(s.held, ByTab(tab), ByTab(clone));
      assert n.held == (s.held - {ByTab(tab)})[ByTab(clone) := s.held[ByTab(tab)]];
    } else {
      assert n.held == s.held;
    }
    assert forall root :: Refs(n, root) == Refs(s, root) && Count(n.held, root) == Count(s.held, root);
  }

  lemma DetachKeeps(s: State, tab: Id)
    requires Formed(s) && Sound(s) && Enabled(s, Detach(tab))
    ensures Sound(Next(s, Detach(tab)))
  {
    DetachBalance(s, tab);
    hide Balanced;
    var n, clone := Next(s, Detach(tab)), s.created;
    assert clone !in s.keys && clone !in s.running;
    assert Owns(s, tab) ==> n.keys[clone] == n.held[ByTab(clone)];
  }

  lemma AttachBalance(s: State, tab: Id, source: Id)
    requires Balanced(s) && Enabled(s, Attach(tab, source))
    ensures var n := Next(s, Attach(tab, source));
      && (Balanced(n) <==> !Owns(s, tab))
      && forall x :: Owns(n, x) == (if x == tab then Owns(s, source) else Owns(s, x) && x != source)
  {
    var n, byTab, bySource := Next(s, Attach(tab, source)), ByTab(tab), ByTab(source);
    CountDrop(s.held, byTab);
    if Owns(s, source) {
      CountMove(s.held - {byTab}, bySource, byTab);
      assert n.held == (s.held - {byTab} - {bySource})[byTab := s.held[bySource]];
    } else {
      assert n.held == s.held - {byTab};
    }
    assert forall root :: Refs(n, root) == Refs(s, root) && Count(n.held, root) == Count(s.held - {byTab}, root);
    if Owns(s, tab) {
      var root := s.held[byTab];
      assert Refs(s, root) == Count(s.held, root);
      assert Refs(n, root) != Count(n.held, root);
    } else {
      assert forall root :: Refs(n, root) == Count(n.held, root);
    }
  }

  lemma AttachExact(s: State, tab: Id, source: Id)
    requires Formed(s) && Sound(s) && Enabled(s, Attach(tab, source))
    ensures Sound(Next(s, Attach(tab, source))) <==> Careful(s, Attach(tab, source))
  {
    AttachBalance(s, tab, source);
    var n := Next(s, Attach(tab, source));
    assert Served(n);
    assert Returnable(n) by {
      hide Balanced, Served;
      assert Owns(s, source) ==> n.keys[tab] == n.held[ByTab(tab)];
    }
    hide Balanced, Served, Returnable, Formed, Owns;
  }

  /** From a sound state a step leads to a sound state if and only if its guard holds. */
  lemma StepExact(s: State, l: Label)
    requires Formed(s) && Sound(s) && Enabled(s, l)
    ensures Sound(Next(s, l)) <==> Careful(s, l)
  {
    if l.Acquire? {
      AcquireKeeps(s, l.thread);
    } else if l.Release? {
      ReleaseKeeps(s, l.thread);
    } else if l.Fail? {
      FailExact(s, l.thread);
    } else if l.Finish? {
      FinishExact(s, l.thread);
    } else if l.Take? {
      TakeExact(s, l.thread, l.onTab);
    } else if l.Detach? {
      DetachKeeps(s, l.onTab);
    } else if l.Attach? {
      AttachExact(s, l.onTab, l.source);
    } else {
      QuietExact(s, l);
    }
    hide Sound, Formed;
  }

  // ---- Runs ----

  predicate Possible(s: State, run: seq<Label>)
    decreases |run|
  {
    run == [] || (Enabled(s, run[0]) && Possible(Next(s, run[0]), run[1..]))
  }

  function After(s: State, run: seq<Label>): State
    requires Possible(s, run)
    decreases |run|
  {
    if run == [] then s else After(Next(s, run[0]), run[1..])
  }

  /** Every state of the run, the last one included, is sound. */
  ghost predicate SoundThroughout(s: State, run: seq<Label>)
    requires Possible(s, run)
    decreases |run|
  {
    Sound(s) && (run == [] || SoundThroughout(Next(s, run[0]), run[1..]))
  }

  predicate CarefulThroughout(s: State, run: seq<Label>)
    requires Possible(s, run)
    decreases |run|
  {
    run == [] || (Careful(s, run[0]) && CarefulThroughout(Next(s, run[0]), run[1..]))
  }

  /** Over whole runs: the counts equal the holders all along if and only if every step met its guard. */
  lemma {:induction false} SoundIffCareful(s: State, run: seq<Label>)
    requires Formed(s) && Sound(s) && Possible(s, run)
    ensures SoundThroughout(s, run) <==> CarefulThroughout(s, run)
    decreases |run|
  {
    if run != [] {
      var n := Next(s, run[0]);
      StepExact(s, run[0]);
      AnsweringStep(s, run[0]);
      RangedStep(s, run[0]);
      if Sound(n) {
        SoundIffCareful(n, run[1..]);
      }
    }
  }

  lemma InitSound()
    ensures Formed(Init) && Sound(Init)
  {
    assert forall t :: Answers(Init, t);
    assert forall root :: Holders(Init.held, root) == {};
  }

  /** In a sound state a host is open exactly while something holds it, every running controller's host is open, and a
      release closes a host exactly when no other holder is left. */
  lemma SoundHosts(s: State, root: Root)
    requires Formed(s) && Sound(s)
    ensures root in s.refs <==> Holders(s.held, root) != {}
    ensures forall tab <- s.running :: tab in s.keys && s.keys[tab] in s.refs
    ensures forall t | Pc(s, t) == Releasing(root) ::
              root !in Next(s, Release(t)).refs <==> Holders(s.held, root) == {ByThread(t)}
  {
    assert Refs(s, root) == Count(s.held, root);
    assert root in s.refs <==> Holders(s.held, root) != {};
    forall tab <- s.running ensures tab in s.keys && s.keys[tab] in s.refs {
      assert Owns(s, tab) && ByTab(tab) in Holders(s.held, s.keys[tab]);
      assert Refs(s, s.keys[tab]) == Count(s.held, s.keys[tab]);
    }
    forall t | Pc(s, t) == Releasing(root) ensures
      root !in Next(s, Release(t)).refs <==> Holders(s.held, root) == {ByThread(t)} {
      assert Answers(s, t);
      var mine := {ByThread(t)};
      assert mine <= Holders(s.held, root);
      assert |Holders(s.held, root)| == |Holders(s.held, root) - mine| + 1;
      assert |Holders(s.held, root) - mine| == 0 <==> Holders(s.held, root) - mine == {};
    }
  }

  // ---- A discipline the program can check ----

  /** A tab's runtime owns a reference exactly while the tab has a controller. */
  ghost predicate Mirrored(s: State) {
    forall tab :: Owns(s, tab) <==> tab in s.running
  }

  /** What a caller can see before the step: who has a controller, which key the tab carries, and whether the build is
      still current.  A build keeps the key of a running tab and fails or finishes only on an idle one; a key is taken
      along with its controller and never left behind by one; a rebuilt controller replaces a running one; and runtimes
      are attached to idle tabs. */
  predicate Orderly(s: State, l: Label)
    requires Enabled(s, l)
  {
    match l
    case Publish(t, root) =>
      var p := Pc(s, t);
      Superseded(s, p.tab, p.generation) || p.tab !in s.running || (p.tab in s.keys && s.keys[p.tab] == root)
    case Fail(t) => Alone(s, Pc(s, t))
    case Finish(t) => Alone(s, Pc(s, t))
    case Take(_, tab) => tab in s.keys ==> tab in s.running
    case Close(tab) => tab !in s.running
    case Swap(tab) => tab in s.running
    case Attach(tab, _) => tab !in s.running
    case _ => true
  }

  predicate Alone(s: State, p: Thread)
    requires p.Acquired?
  {
    Superseded(s, p.tab, p.generation) || (p.tab !in s.running && p.tab in s.keys && s.keys[p.tab] == p.root)
  }

  /** A controller is not closed without its key being given back. */
  predicate NoBareClose(s: State, l: Label)
    requires Enabled(s, l)
  {
    l.Close? ==> l.onTab !in s.running
  }

  lemma OrderlyIffCareful(s: State, l: Label)
    requires Mirrored(s) && Returnable(s) && Enabled(s, l) && NoBareClose(s, l)
    ensures Orderly(s, l) <==> Careful(s, l)
  {
    hide Superseded, Generation;
    match l
    case Publish(t, _) => assert Owns(s, Pc(s, t).tab) <==> Pc(s, t).tab in s.running;
    case Fail(t) => assert Owns(s, Pc(s, t).tab) <==> Pc(s, t).tab in s.running;
    case Finish(t) => assert Owns(s, Pc(s, t).tab) <==> Pc(s, t).tab in s.running;
    case Take(_, tab) => assert Owns(s, tab) <==> tab in s.running;
    case Swap(tab) => assert Owns(s, tab) <==> tab in s.running;
    case Attach(tab, _) => assert Owns(s, tab) <==> tab in s.running;
    case _ =>
  }

  lemma MirroredStep(s: State, l: Label, tab: Id)
    requires Mirrored(s) && Ranged(s) && Returnable(s) && Enabled(s, l) && Orderly(s, l)
    ensures Owns(Next(s, l), tab) <==> tab in Next(s, l).running
  {
    hide Superseded, Generation, Refs;
    assert Owns(s, tab) <==> tab in s.running;
    if l.Attach? {
      assert Owns(s, l.source) <==> l.source in s.running;
      assert Owns(s, l.onTab) <==> l.onTab in s.running;
    } else if l.Detach? {
      assert Owns(s, l.onTab) <==> l.onTab in s.running;
      assert !Owns(s, s.created);
    } else if l.Take? {
      assert Owns(s, l.onTab) <==> l.onTab in s.running;
    } else if l.Fail? || l.Finish? {
      assert Owns(s, Pc(s, l.thread).tab) <==> Pc(s, l.thread).tab in s.running;
    }
  }

  predicate OrderlyThroughout(s: State, run: seq<Label>)
    requires Possible(s, run)
    decreases |run|
  {
    run == [] || (Orderly(s, run[0]) && OrderlyThroughout(Next(s, run[0]), run[1..]))
  }

  predicate NoBareCloseThroughout(s: State, run: seq<Label>)
    requires Possible(s, run)
    decreases |run|
  {
    run == [] || (NoBareClose(s, run[0]) && NoBareCloseThroughout(Next(s, run[0]), run[1..]))
  }

  lemma {:induction false} SoundIffOrderlyFrom(s: State, run: seq<Label>)
    requires Formed(s) && Sound(s) && Mirrored(s) && Possible(s, run) && NoBareCloseThroughout(s, run)
    ensures SoundThroughout(s, run) <==> OrderlyThroughout(s, run)
    decreases |run|
  {
    if run != [] {
      var n := Next(s, run[0]);
      OrderlyIffCareful(s, run[0]);
      StepExact(s, run[0]);
      AnsweringStep(s, run[0]);
      RangedStep(s, run[0]);
      if Orderly(s, run[0]) {
        forall tab ensures Owns(n, tab) <==> tab in n.running {
          MirroredStep(s, run[0], tab);
        }
        hide Sound, Answering, Ranged, Mirrored, Careful, Orderly, Enabled, Next;
        SoundIffOrderlyFrom(n, run[1..]);
      }
    }
  }

  /** Over every run of the application in which no controller is closed without its key: the counts equal the holders,
      every reference can be returned and every running controller has its host open, all along, if and only if every step
      met the guard the program can check. */
  lemma SoundIffOrderly(run: seq<Label>)
    requires Possible(Init, run) && NoBareCloseThroughout(Init, run)
    ensures SoundThroughout(Init, run) <==> OrderlyThroughout(Init, run)
  {
    InitSound();
    SoundIffOrderlyFrom(Init, run);
  }

  // ---- Where the program is not careful ----

  /** The tab has a controller that runs on the host of this root. */
  predicate Uses(s: State, tab: Id, root: Root) {
    tab in s.running && tab in s.keys && s.keys[tab] == root
  }

  lemma NoRun(s: State)
    ensures Possible(s, []) && After(s, []) == s && CarefulThroughout(s, [])
  {
  }

  lemma ConsRun(s: State, l: Label, rest: seq<Label>)
    requires Enabled(s, l) && Possible(Next(s, l), rest)
    ensures Possible(s, [l] + rest) && After(s, [l] + rest) == After(Next(s, l), rest)
    ensures CarefulThroughout(s, [l] + rest) == (Careful(s, l) && CarefulThroughout(Next(s, l), rest))
  {
    assert ([l] + rest)[1..] == rest;
  }

  /** One release for the key and one for the build that lost its tab take away both references. */
  lemma ReleasedTwice(s: State, build: Id, deletion: Id, root: Root)
    requires build != deletion && Pc(s, deletion) == Releasing(root) && Refs(s, root) == 2
    requires Pc(s, build).Acquired? && Pc(s, build).root == root && Pc(s, build).tab !in s.live
    ensures var s3 := Next(s, Release(deletion));
      && Enabled(s3, Finish(build))
      && var s4 := Next(s3, Finish(build));
      && Enabled(s4, Release(build))
      && root !in Next(s4, Release(build)).refs
      && Next(s4, Release(build)).running == s.running && Next(s4, Release(build)).keys == s.keys
  {
    var s3 := Next(s, Release(deletion));
    assert Refs(s3, root) == 1 && Pc(s3, build) == Pc(s, build);
    var s4 := Next(s3, Finish(build));
    assert Pc(s4, build) == Releasing(root) && Refs(s4, root) == 1;
  }

  /** A session deleted while its tab is still being built: the deletion gives back the key the build published, the
      superseded build gives the same reference back again, and the host closes under another tab that is using it. */
  lemma DeletionDuringBuildReleasesTwice(s: State, build: Id, deletion: Id, tab: Id, other: Id)
    requires Formed(s) && Sound(s) && build != deletion && tab != other
    requires Pc(s, build).Acquired? && Pc(s, build).tab == tab && tab in s.live && Pc(s, deletion) == Idle
    requires tab in s.keys && s.keys[tab] == Pc(s, build).root && !Owns(s, tab)
    requires Uses(s, other, Pc(s, build).root) && Refs(s, Pc(s, build).root) == 2
    ensures var run := [Remove(tab)] + ([Take(deletion, tab)] + ([Release(deletion)] + ([Finish(build)] + ([Release(build)] + []))));
      && Possible(s, run) && !CarefulThroughout(s, run)
      && Uses(After(s, run), other, Pc(s, build).root)
      && Pc(s, build).root !in After(s, run).refs
  {
    var root := Pc(s, build).root;
    assert Owns(s, other) && Answers(s, build);
    hide Sound, Formed, Answering, Ranged, Balanced, Returnable, Served, Count;
    var s1 := Next(s, Remove(tab));
    assert Enabled(s1, Take(deletion, tab)) && !Careful(s1, Take(deletion, tab));
    var s2 := Next(s1, Take(deletion, tab));
    assert Pc(s2, deletion) == Releasing(root) && Pc(s2, build) == Pc(s, build) && Uses(s2, other, root) && tab !in s2.live;
    var s3 := Next(s2, Release(deletion));
    ReleasedTwice(s2, build, deletion, root);
    var s4 := Next(s3, Finish(build));
    var s5 := Next(s4, Release(build));
    hide Next, Enabled, Careful, Possible, After, CarefulThroughout, Sound, Formed;
    NoRun(s5);
    ConsRun(s4, Release(build), []);
    ConsRun(s3, Finish(build), [Release(build)] + []);
    ConsRun(s2, Release(deletion), [Finish(build)] + ([Release(build)] + []));
    ConsRun(s1, Take(deletion, tab), [Release(deletion)] + ([Finish(build)] + ([Release(build)] + [])));
    ConsRun(s, Remove(tab), [Take(deletion, tab)] + ([Release(deletion)] + ([Finish(build)] + ([Release(build)] + []))));
  }

  /** A switch that installs its controller while the tab's first build is in flight: the controller uses the build's host,
      and the superseded build then closes it. */
  lemma SwitchDuringBuildLosesHost(s: State, build: Id, tab: Id)
    requires Formed(s) && Sound(s) && Pc(s, build).Acquired? && Pc(s, build).generation > 0
    requires Pc(s, build).tab == tab && tab in s.live && Generation(s, tab) == Pc(s, build).generation
    requires tab in s.keys && s.keys[tab] == Pc(s, build).root && !Owns(s, tab) && Refs(s, Pc(s, build).root) == 1
    ensures var run := [Swap(tab)] + ([Finish(build)] + ([Release(build)] + []));
      && Possible(s, run) && !CarefulThroughout(s, run)
      && Uses(After(s, run), tab, Pc(s, build).root)
      && Pc(s, build).root !in After(s, run).refs
  {
    var root := Pc(s, build).root;
    assert !Careful(s, Swap(tab));
    var s1 := Next(s, Swap(tab));
    assert Pc(s1, build) == Pc(s, build) && Superseded(s1, tab, Pc(s, build).generation);
    var s2 := Next(s1, Finish(build));
    assert Pc(s2, build) == Releasing(root) && Refs(s2, root) == 1;
    var s3 := Next(s2, Release(build));
    assert root !in s3.refs && Uses(s3, tab, root);
    hide Next, Enabled, Careful, Possible, After, CarefulThroughout, Sound, Formed;
    NoRun(s3);
    ConsRun(s2, Release(build), []);
    ConsRun(s1, Finish(build), [Release(build)] + []);
    ConsRun(s, Swap(tab), [Finish(build)] + ([Release(build)] + []));
  }

  /** A tab's synchronous rebuild up to the point where it has taken its reference. */
  function Rebuilt(s: State, t: Id, tab: Id, root: Root): State {
    s.(running := s.running - {tab}, threads := s.threads[t := Acquired(tab, 0, root)], keys := s.keys[tab := root],
       refs := s.refs[root := Refs(s, root) + 1], held := s.held[ByThread(t) := root])
  }

  lemma RebindStarts(s: State, t: Id, tab: Id, root: Root)
    requires Pc(s, t) == Idle && tab in s.live
    ensures var s1 := s.(running := s.running - {tab});
            var s2 := s1.(threads := s.threads[t := Started(tab, 0)]);
      && Enabled(s, Close(tab)) && Next(s, Close(tab)) == s1
      && Enabled(s1, StartSync(t, tab)) && Next(s1, StartSync(t, tab)) == s2
  {
  }

  lemma RebindAcquires(s: State, t: Id, tab: Id, root: Root)
    requires Pc(s, t) == Idle && tab in s.live
    ensures var s2 := s.(running := s.running - {tab}, threads := s.threads[t := Started(tab, 0)]);
            var s3 := s2.(threads := s.threads[t := Keyed(tab, 0, root)], keys := s.keys[tab := root]);
      && Enabled(s2, Publish(t, root)) && Next(s2, Publish(t, root)) == s3
      && Enabled(s3, Acquire(t)) && Next(s3, Acquire(t)) == Rebuilt(s, t, tab, root)
  {
    var s2 := s.(running := s.running - {tab}, threads := s.threads[t := Started(tab, 0)]);
    var s3 := s2.(threads := s.threads[t := Keyed(tab, 0, root)], keys := s.keys[tab := root]);
    assert s2.threads[t := Keyed(tab, 0, root)] == s3.threads;
    assert s3.threads[t := Acquired(tab, 0, root)] == Rebuilt(s, t, tab, root).threads;
  }

  lemma RebindRebuilds(s: State, t: Id, tab: Id, root: Root)
    requires Pc(s, t) == Idle && tab in s.live
    ensures var run := [Close(tab)] + ([StartSync(t, tab)] + ([Publish(t, root)] + ([Acquire(t)] + [])));
            Possible(s, run) && After(s, run) == Rebuilt(s, t, tab, root)
  {
    var s1 := s.(running := s.running - {tab});
    var s2 := s1.(threads := s.threads[t := Started(tab, 0)]);
    var s3 := s2.(threads := s.threads[t := Keyed(tab, 0, root)], keys := s.keys[tab := root]);
    var s4 := Rebuilt(s, t, tab, root);
    RebindStarts(s, t, tab, root);
    RebindAcquires(s, t, tab, root);
    hide *;
    NoRun(s4);
    ConsRun(s3, Acquire(t), []);
    ConsRun(s2, Publish(t, root), [Acquire(t)] + []);
    ConsRun(s1, StartSync(t, tab), [Publish(t, root)] + ([Acquire(t)] + []));
    ConsRun(s, Close(tab), [StartSync(t, tab)] + ([Publish(t, root)] + ([Acquire(t)] + [])));
  }

  /** Resuming another session in a tab closes the idle controller but keeps the tab's reference; the rebuild takes a
      second one under the same key and becomes the tab's runtime, so one reference is left that nobody answers for. */
  lemma RebindKeepsReference(s: State, t: Id, tab: Id)
    requires Formed(s) && Sound(s) && Pc(s, t) == Idle && tab in s.live && Owns(s, tab)
    ensures var root := s.held[ByTab(tab)];
            var s' := Rebuilt(s, t, tab, root);
      && Enabled(s', Finish(t)) && !Careful(s', Finish(t))
      && Next(s', Finish(t)).held == s.held
      && Refs(Next(s', Finish(t)), root) == Count(s.held, root) + 1
  {
    var root := s.held[ByTab(tab)];
    assert Answers(s, t);
    assert Refs(s, root) == Count(s.held, root);
    var s' := Rebuilt(s, t, tab, root);
    assert Pc(s', t) == Acquired(tab, 0, root);
    assert Next(s', Finish(t)).held == (s'.held - {ByThread(t)})[ByTab(tab) := root] == s.held;
  }

  // ---- Those runs, from the empty application ----

  ghost predicate Reachable(s: State) {
    exists run :: Possible(Init, run) && After(Init, run) == s
  }

  lemma {:induction false} Append(s: State, run: seq<Label>, l: Label)
    requires Possible(s, run) && Enabled(After(s, run), l)
    ensures Possible(s, run + [l]) && After(s, run + [l]) == Next(After(s, run), l)
    decreases |run|
  {
    if run == [] {
      assert [l][1..] == [];
      NoRun(Next(s, l));
    } else {
      assert (run + [l])[1..] == run[1..] + [l];
      Append(Next(s, run[0]), run[1..], l);
    }
  }

  lemma ReachStep(s: State, l: Label)
    requires Reachable(s) && Enabled(s, l)
    ensures Reachable(Next(s, l))
  {
    var run :| Possible(Init, run) && After(Init, run) == s;
    Append(Init, run, l);
  }

  lemma {:induction false} ReachRun(s: State, run: seq<Label>)
    requires Reachable(s) && Possible(s, run)
    ensures Reachable(After(s, run))
    decreases |run|
  {
    if run != [] {
      ReachStep(s, run[0]);
      ReachRun(Next(s, run[0]), run[1..]);
    }
  }

  /** Reached from the empty application with all counts right. */
  ghost predicate Reached(s: State) {
    Reachable(s) && Formed(s) && Sound(s)
  }

  lemma ReachedStep(s: State, l: Label, n: State)
    requires Reached(s) && Enabled(s, l) && Careful(s, l) && Next(s, l) == n
    ensures Reached(n)
  {
    ReachStep(s, l);
    StepExact(s, l);
    AnsweringStep(s, l);
    RangedStep(s, l);
  }

  lemma InitReached()
    ensures Reached(Init)
  {
    InitSound();
    NoRun(Init);
  }

  const Opened := Init.(created := 1, live := {0})
  const Begun := Opened.(generation := map[0 := 1], threads := map[0 := Started(0, 1)])
  const Announced := Begun.(threads := map[0 := Keyed(0, 1, 7)], keys := map[0 := 7])
  const First := Announced.(threads := map[0 := Acquired(0, 1, 7)], refs := map[7 := 1], held := map[ByThread(0) := 7])
  const Runs := First.(threads := map[0 := Idle], running := {0}, held := map[ByTab(0) := 7])
  const Second := Runs.(created := 2, live := {0, 1})
  const SecondBegun := Second.(generation := map[0 := 1, 1 := 1], threads := map[0 := Idle, 1 := Started(1, 1)])
  const SecondAnnounced := SecondBegun.(threads := map[0 := Idle, 1 := Keyed(1, 1, 7)], keys := map[0 := 7, 1 := 7])
  const Both := SecondAnnounced.(threads := map[0 := Idle, 1 := Acquired(1, 1, 7)], refs := map[7 := 2],
                                 held := map[ByTab(0) := 7, ByThread(1) := 7])

  lemma StepsToFirst()
    ensures Enabled(Init, Open) && Next(Init, Open) == Opened
    ensures Enabled(Opened, Start(0, 0)) && Next(Opened, Start(0, 0)) == Begun
    ensures Enabled(Begun, Publish(0, 7)) && Careful(Begun, Publish(0, 7)) && Next(Begun, Publish(0, 7)) == Announced
    ensures Enabled(Announced, Acquire(0)) && Next(Announced, Acquire(0)) == First
  {
  }

  lemma FirstReached()
    ensures Reached(First)
  {
    StepsToFirst();
    InitReached();
    hide Reached, Next, Enabled;
    ReachedStep(Init, Open, Opened);
    ReachedStep(Opened, Start(0, 0), Begun);
    ReachedStep(Begun, Publish(0, 7), Announced);
    ReachedStep(Announced, Acquire(0), First);
  }

  lemma StepsToRuns()
    ensures Enabled(First, Finish(0)) && Careful(First, Finish(0)) && Next(First, Finish(0)) == Runs
  {
    assert (First.held - {ByThread(0)})[ByTab(0) := 7] == Runs.held;
  }

  lemma RunsReached()
    ensures Reached(Runs)
  {
    FirstReached();
    StepsToRuns();
    hide Reached, Next, Enabled, Careful;
    ReachedStep(First, Finish(0), Runs);
  }

  lemma StepsToSecond()
    ensures Enabled(Runs, Open) && Next(Runs, Open) == Second
    ensures Enabled(Second, Start(1, 1)) && Next(Second, Start(1, 1)) == SecondBegun
  {
  }

  lemma StepsToBoth()
    ensures Enabled(SecondBegun, Publish(1, 7)) && Careful(SecondBegun, Publish(1, 7))
    ensures Next(SecondBegun, Publish(1, 7)) == SecondAnnounced
  {
  }

  lemma StepToBoth()
    ensures Enabled(SecondAnnounced, Acquire(1)) && Next(SecondAnnounced, Acquire(1)) == Both
  {
  }

  lemma BothReached()
    ensures Reached(Both)
  {
    RunsReached();
    StepsToSecond();
    StepsToBoth();
    StepToBoth();
    hide Reached, Next, Enabled;
    ReachedStep(Runs, Open, Second);
    ReachedStep(Second, Start(1, 1), SecondBegun);
    ReachedStep(SecondBegun, Publish(1, 7), SecondAnnounced);
    ReachedStep(SecondAnnounced, Acquire(1), Both);
  }

  /** The application gets there: a session deleted while its tab is built closes the host another tab runs on. */
  lemma DeletionClosesHostInUse()
    ensures exists s, tab, root :: Reachable(s) && Uses(s, tab, root) && root !in s.refs
  {
    BothReached();
    assert Uses(Both, 0, 7) && !Owns(Both, 1) && Refs(Both, 7) == 2 && Pc(Both, 2) == Idle;
    DeletionDuringBuildReleasesTwice(Both, 1, 2, 1, 0);
    var run := [Remove(1)] + ([Take(2, 1)] + ([Release(2)] + ([Finish(1)] + ([Release(1)] + []))));
    assert Pc(Both, 1).root == 7;
    hide Next, Enabled, Uses, Formed, Sound, Possible, After, CarefulThroughout;
    ReachRun(Both, run);
  }

  /** So does a switch installed during a tab's first build. */
  lemma SwitchClosesOwnHost()
    ensures exists s, root :: Reachable(s) && Uses(s, 0, root) && root !in s.refs
  {
    FirstReached();
    assert !Owns(First, 0) && Refs(First, 7) == 1 && Pc(First, 0) == Acquired(0, 1, 7) && Generation(First, 0) == 1;
    SwitchDuringBuildLosesHost(First, 0, 0);
    var run := [Swap(0)] + ([Finish(0)] + ([Release(0)] + []));
    hide Next, Enabled, Uses, Formed, Sound, Possible, After, CarefulThroughout;
    ReachRun(First, run);
  }

  /** And resuming another session reaches a count above the number of holders. */
  lemma RebindReachesSurplus()
    ensures exists s, root :: Reachable(s) && Refs(s, root) == Count(s.held, root) + 1
  {
    RunsReached();
    assert Owns(Runs, 0) && Pc(Runs, 1) == Idle && Runs.held[ByTab(0)] == 7;
    RebindRebuilds(Runs, 1, 0, 7);
    RebindKeepsReference(Runs, 1, 0);
    var run := [Close(0)] + ([StartSync(1, 0)] + ([Publish(1, 7)] + ([Acquire(1)] + [])));
    ReachRun(Runs, run);
    ReachStep(Rebuilt(Runs, 1, 0, 7), Finish(1));
  }
}
