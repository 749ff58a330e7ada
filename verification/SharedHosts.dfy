/** Reference-counted plugin hosts and the closing passes of a session deletion. */
module SharedHosts {

  /** `a.sharedHosts`: the reference count of every open host, and how often a host of each root was closed. */
  class Hosts {
    var refs: map<string, nat>
    var closes: multiset<string>

    constructor ()
      ensures refs == map[] && closes == multiset{}
    {
      refs, closes := map[], multiset{};
    }

    function Refs(root: string): nat
      reads this
    {
      if root in refs then refs[root] else 0
    }

    predicate Valid()
      reads this
    {
      forall root <- refs :: refs[root] > 0
    }

    method Acquire(root: string)
      requires Valid()
      modifies this`refs
      ensures Valid()
      ensures forall r :: Refs(r) == old(Refs(r)) + (if r == root then 1 else 0)
    {
      if root in refs {
        refs := refs[root := refs[root] + 1];
      } else {
        refs := refs[root := 1];
      }
    }

    /** Releasing an unknown root does nothing; the last release closes the host. */
    method Release(root: string)
      requires Valid()
      modifies this
      ensures Valid()
      ensures forall r :: Refs(r) == (if r == root && old(Refs(r)) > 0 then old(Refs(r)) - 1 else old(Refs(r)))
      ensures closes == old(closes) + (if old(Refs(root)) == 1 then multiset{root} else multiset{})
    {
      if root !in refs {
        return;
      }
      if refs[root] > 1 {
        refs := refs[root := refs[root] - 1];
        return;
      }
      refs := refs - {root};
      closes := closes + multiset{root};
    }
  }

  class Tab {
    var hostKey: string       // empty when the tab holds no reference

    constructor (key: string)
      ensures hostKey == key
    {
      hostKey := key;
    }
  }

  class Controller {
    var closes: nat

    constructor ()
      ensures closes == 0
    {
      closes := 0;
    }

    method Close()
      modifies this
      ensures closes == old(closes) + 1
    {
      closes := closes + 1;
    }
  }

  /** A tab unlinked by the deletion; `matches` when its session is the deleted one. */
  datatype Removed = Removed(tab: Tab, ctrl: Controller?, matches: bool)

  method ReleaseTab(hosts: Hosts, tab: Tab)
    requires hosts.Valid()
    modifies hosts, tab
    ensures hosts.Valid() && tab.hostKey == ""
    ensures forall r | r != "" :: hosts.Refs(r) ==
              if r == old(tab.hostKey) && old(hosts.Refs(r)) > 0 then old(hosts.Refs(r)) - 1 else old(hosts.Refs(r))
    ensures forall r | r != "" :: hosts.closes[r] ==
              old(hosts.closes[r]) + (if r == old(tab.hostKey) && old(hosts.Refs(r)) == 1 then 1 else 0)
  {
    var key := tab.hostKey;
    tab.hostKey := "";
    if key != "" {
      hosts.Release(key);
    }
  }

  function Sub(a: nat, b: nat): nat {
    if a > b then a - b else 0
  }

  /** What is left of a root's count once all the listed keys are given back. */
  function Settled(refs: nat, keys: seq<string>, root: string): nat {
    Sub(refs, multiset(keys)[root])
  }

  /** How often the host of a root is closed while the listed keys are given back. */
  function Closings(refs: nat, keys: seq<string>, root: string): nat {
    if refs > 0 && Settled(refs, keys, root) == 0 then 1 else 0
  }

  ghost predicate DistinctTabs(removed: seq<Removed>) {
    forall i, j :: 0 <= i < j < |removed| ==> removed[i].tab != removed[j].tab
  }

  function Tabs(removed: seq<Removed>): set<Tab> {
    set item <- removed :: item.tab
  }

  function Controllers(removed: seq<Removed>): set<Controller> {
    set item <- removed | item.ctrl != null :: item.ctrl
  }

  /** The host keys of the removed tabs. */
  function Keys(removed: seq<Removed>): (keys: seq<string>)
    reads Tabs(removed)
    ensures |keys| == |removed| && forall i :: 0 <= i < |keys| ==> keys[i] == removed[i].tab.hostKey
  {
    seq(|removed|, i requires 0 <= i < |removed| reads Tabs(removed) => removed[i].tab.hostKey)
  }

  lemma ClearKey(keys: seq<string>, i: nat, root: string)
    requires i < |keys| && root != ""
    ensures multiset(keys[i := ""])[root] == multiset(keys)[root] - (if keys[i] == root then 1 else 0)
  {
    var front, back := keys[..i], keys[i + 1..];
    assert keys == front + [keys[i]] + back;
    assert keys[i := ""] == front + [""] + back;
  }

  function Ahead(refs: nat, closes: nat, keys: seq<string>, root: string): (nat, nat) {
    (Settled(refs, keys, root), closes + Closings(refs, keys, root))
  }

  /** What a root's count will be, and how often its host will have been closed, once every removed tab has given back
      the key it still carries.  Every closing step leaves both as they are. */
  function Outcome(hosts: Hosts, removed: seq<Removed>, root: string): (nat, nat)
    reads hosts, Tabs(removed)
  {
    Ahead(hosts.Refs(root), hosts.closes[root], Keys(removed), root)
  }

  lemma ClearKeyOutcome(keys: seq<string>, i: nat, refs: nat, closes: nat, root: string)
    requires i < |keys| && root != ""
    ensures var mine := keys[i] == root;
      Ahead(refs, closes, keys, root)
      == Ahead(if mine && refs > 0 then refs - 1 else refs, closes + (if mine && refs == 1 then 1 else 0), keys[i := ""], root)
  {
    ClearKey(keys, i, root);
  }

  /** closeRemovedSessionRuntime: the tab's key goes back and its controller is closed unless a pass has closed it. */
  method CloseOne(hosts: Hosts, removed: seq<Removed>, i: nat, closed: set<Controller>) returns (now: set<Controller>)
    requires hosts.Valid() && DistinctTabs(removed) && i < |removed|
    modifies hosts, removed[i].tab, Controllers(removed)
    ensures hosts.Valid()
    ensures now == closed + (if removed[i].ctrl == null then {} else {removed[i].ctrl})
    ensures forall c <- Controllers(removed) :: c.closes == old(c.closes) + (if c in now - closed then 1 else 0)
    ensures Keys(removed) == old(Keys(removed))[i := ""]
    ensures forall r | r != "" :: Outcome(hosts, removed, r) == old(Outcome(hosts, removed, r))
  {
    ghost var keys := Keys(removed);
    var item := removed[i];
    ReleaseTab(hosts, item.tab);
    assert Keys(removed) == keys[i := ""];
    forall r | r != "" ensures Outcome(hosts, removed, r) == old(Outcome(hosts, removed, r)) {
      ClearKeyOutcome(keys, i, old(hosts.Refs(r)), old(hosts.closes[r]), r);
    }
    now := closed;
    if item.ctrl != null && item.ctrl !in closed {
      now := now + {item.ctrl};
      item.ctrl.Close();
    }
  }

  /** One pass over the removed tabs, or over those whose session is the deleted one. */
  method ClosePass(hosts: Hosts, removed: seq<Removed>, matching: bool, closed: set<Controller>) returns (now: set<Controller>)
    requires hosts.Valid() && DistinctTabs(removed)
    modifies hosts, Tabs(removed), Controllers(removed)
    ensures hosts.Valid()
    ensures closed <= now <= closed + Controllers(removed)
    ensures !matching ==> Controllers(removed) <= now && forall item <- removed :: item.tab.hostKey == ""
    ensures forall c <- Controllers(removed) :: c.closes == old(c.closes) + (if c in now - closed then 1 else 0)
    ensures forall r | r != "" :: Outcome(hosts, removed, r) == old(Outcome(hosts, removed, r))
  {
    hide Outcome;
    now := closed;
    for i := 0 to |removed|
      invariant hosts.Valid()
      invariant closed <= now <= closed + Controllers(removed)
      invariant !matching ==> forall k :: 0 <= k < i ==>
                  removed[k].tab.hostKey == "" && (removed[k].ctrl == null || removed[k].ctrl in now)
      invariant forall c <- Controllers(removed) :: c.closes == old(c.closes) + (if c in now - closed then 1 else 0)
      invariant forall r | r != "" :: Outcome(hosts, removed, r) == old(Outcome(hosts, removed, r))
    {
      if !matching || removed[i].matches {
        assert removed[i] in removed;
        now := CloseOne(hosts, removed, i, now);
      }
    }
  }

  /** How a deletion leaves its locked section. */
  datatype Exit =
    | PrepareFails      // a snapshot or a running turn stops it before any job is destroyed
    | MarkFails         // the jobs timed out and the cleanup marker cannot be written
    | Deferred          // the jobs timed out; the files follow later
    | TrashFails
    | Done

  /** The closing passes of deleteSession.  On every exit each removed controller is closed exactly once, each removed
      tab has given back its key exactly once, and each host is closed exactly when its count comes down to nothing. */
  method CloseDeleted(hosts: Hosts, removed: seq<Removed>, exit: Exit)
    requires hosts.Valid() && DistinctTabs(removed)
    modifies hosts, Tabs(removed), Controllers(removed)
    ensures hosts.Valid()
    ensures forall c <- Controllers(removed) :: c.closes == old(c.closes) + 1
    ensures forall item <- removed :: item.tab.hostKey == ""
    ensures forall r | r != "" :: (hosts.Refs(r), hosts.closes[r]) == old(Outcome(hosts, removed, r))
  {
    hide Outcome;
    if exit.PrepareFails? {
      var _ := ClosePass(hosts, removed, false, {});
    } else {
      var closed := ClosePass(hosts, removed, true, {});
      closed := ClosePass(hosts, removed, false, closed);
    }
    forall r | r != "" ensures Outcome(hosts, removed, r) == (hosts.Refs(r), hosts.closes[r]) {
      NothingAhead(hosts, removed, r);
    }
  }

  lemma NothingAhead(hosts: Hosts, removed: seq<Removed>, root: string)
    requires root != "" && forall item <- removed :: item.tab.hostKey == ""
    ensures Outcome(hosts, removed, root) == (hosts.Refs(root), hosts.closes[root])
  {
    assert root !in Keys(removed);
  }

  /** While every removed tab's key stands for a reference that is counted, the outcome is exact: the references given
      back are one for each removed tab with that key, and the host is closed if and only if those were the last. */
  lemma OutcomeMeans(hosts: Hosts, removed: seq<Removed>, root: string)
    requires multiset(Keys(removed))[root] <= hosts.Refs(root)
    ensures Outcome(hosts, removed, root).0 == hosts.Refs(root) - multiset(Keys(removed))[root]
    ensures Outcome(hosts, removed, root).1 == hosts.closes[root]
              + if hosts.Refs(root) > 0 && hosts.Refs(root) == multiset(Keys(removed))[root] then 1 else 0
  {
  }
}
