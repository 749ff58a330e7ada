/** The same export while other processes change names and files between any two of its steps.

    Every step is one call into the file system.  What is proved is what the export's own steps do to files that are not
    its own; what the others do is up to them. */
module ExportInterference {
  import opened Options
  import opened ExportTransaction

  datatype Phase =
    | Checking(i: nat)
    | Creating
    | Writing
    | Stating(i: nat)
    | Linking(i: nat, seen: Inode)
    | Verifying(i: nat, seen: Inode)
    | Opening(i: nat)
    | Copying(i: nat, made: Inode, source: Inode)
    | RollingBack(j: nat)
    | Cleaning(j: nat, ok: bool)
    | Done(ok: bool)

  /** `mine` are the files this export has created. */
  datatype State = State(view: View, targets: seq<Path>, phase: Phase, staged: seq<Staged>, files: seq<Committed>, mine: set<Inode>)

  datatype Label =
    | Others(now: View)                       // anything another process does
    | Check
    | Create(temp: Path, ok: bool)
    | Write(content: Data, ok: bool)
    | Stat
    | Link(ok: bool)
    | Verify
    | Open(ok: bool)
    | Copy(ok: bool)
    | RollBackOne
    | CleanOne

  function Begin(view: View, targets: seq<Path>): State {
    State(view, targets, if targets == [] then Done(false) else Checking(0), [], [], {})
  }

  predicate Valid(v: View) {
    forall p <- v.names :: v.names[p] < v.next
  }

  predicate At(s: State, i: nat) {
    i < |s.staged|
  }

  predicate Enabled(s: State, l: Label) {
    match l
    case Others(now) => Valid(now) && now.next >= s.view.next
    case Check => s.phase.Checking?
    case Create(_, _) => s.phase.Creating? && |s.staged| < |s.targets|
    case Write(_, _) => s.phase.Writing? && s.staged != []
    case Stat => s.phase.Stating? && At(s, s.phase.i)
    case Link(_) => s.phase.Linking? && At(s, s.phase.i)
    case Verify => s.phase.Verifying? && At(s, s.phase.i)
    case Open(_) => s.phase.Opening? && At(s, s.phase.i)
    case Copy(_) => s.phase.Copying? && At(s, s.phase.i)
    case RollBackOne => s.phase.RollingBack?
    case CleanOne => s.phase.Cleaning?
  }

  function Bind(v: View, p: Path, inode: Inode): View {
    v.(names := v.names[p := inode])
  }

  function Unbind(v: View, p: Path): View {
    v.(names := v.names - {p})
  }

  function UnbindIfSame(v: View, p: Path, inode: Inode): View {
    if p in v.names && v.names[p] == inode then Unbind(v, p) else v
  }

  function Made(v: View, p: Path): View {
    View(v.names[p := v.next], v.data[v.next := ""], v.next + 1)
  }

  /** The next part to commit, or the clean-up once all are committed. */
  function Onward(s: State, i: nat): Phase {
    if i + 1 < |s.staged| then Stating(i + 1) else Cleaning(0, true)
  }

  function Next(s: State, l: Label): State
    requires Enabled(s, l)
  {
    var v := s.view;
    match l
    case Others(now) => s.(view := now)
    case Check =>
      var i := s.phase.i;
      s.(phase := if i >= |s.targets| then Creating else if s.targets[i] in v.names then Done(false) else Checking(i + 1))
    case Create(temp, ok) =>
      if temp in v.names then s
      else if !ok then s.(phase := Cleaning(0, false))
      else
        s.(view := Made(v, temp), staged := s.staged + [Staged(s.targets[|s.staged|], temp, v.next)],
           mine := s.mine + {v.next}, phase := Writing)
    case Write(content, ok) =>
      s.(view := v.(data := v.data[s.staged[|s.staged| - 1].inode := content]),
         phase := if !ok then Cleaning(0, false) else if |s.staged| < |s.targets| then Creating else Stating(0))
    case Stat =>
      var temp := s.staged[s.phase.i].temp;
      s.(phase := if temp in v.names then Linking(s.phase.i, v.names[temp]) else RollingBack(0))
    case Link(ok) =>
      var part := s.staged[s.phase.i];
      if ok && part.temp in v.names && part.target !in v.names then
        s.(view := Bind(v, part.target, v.names[part.temp]), phase := Verifying(s.phase.i, s.phase.seen))
      else s.(phase := Opening(s.phase.i))
    case Verify =>
      var part := s.staged[s.phase.i];
      if part.target in v.names && v.names[part.target] == s.phase.seen then
        s.(files := s.files + [Committed(part.target, s.phase.seen)], phase := Onward(s, s.phase.i))
      else s.(phase := RollingBack(0))
    case Open(ok) =>
      var part := s.staged[s.phase.i];
      if ok && part.temp in v.names && part.target !in v.names then
        s.(view := Made(v, part.target), mine := s.mine + {v.next},
           phase := Copying(s.phase.i, v.next, v.names[part.temp]))
      else s.(phase := RollingBack(0))
    case Copy(ok) =>
      var part, p := s.staged[s.phase.i], s.phase;
      if ok then
        s.(view := v.(data := v.data[p.made := if p.source in v.data then v.data[p.source] else ""]),
           files := s.files + [Committed(part.target, p.made)], phase := Onward(s, p.i))
      else s.(view := UnbindIfSame(v, part.target, p.made), phase := RollingBack(0))
    case RollBackOne =>
      var j := s.phase.j;
      if j < |s.files| then
        s.(view := UnbindIfSame(v, s.files[j].path, s.files[j].inode), phase := RollingBack(j + 1))
      else s.(phase := Cleaning(0, false))
    case CleanOne =>
      var j := s.phase.j;
      if j < |s.staged| then s.(view := Unbind(v, s.staged[j].temp), phase := Cleaning(j + 1, s.phase.ok))
      else s.(phase := Done(s.phase.ok))
  }

  // ---- What the export does to others ----

  /** Names are removed only from the export's own files, new names stand for its own files, and no other file's data
      changes: every name of a foreign file stays, and no foreign file gets another. */
  ghost predicate Harmless(was: View, now: View, mine: set<Inode>) {
    && (forall p <- was.names :: if p in now.names then now.names[p] == was.names[p] else was.names[p] in mine)
    && (forall p <- now.names :: p in was.names || now.names[p] in mine)
    && forall i: Inode | i !in mine :: (i in was.data <==> i in now.data) && (i in was.data ==> now.data[i] == was.data[i])
  }

  /** The temporary name the step is about to use. */
  function TempOf(s: State, l: Label): Option<Path>
    requires Enabled(s, l)
  {
    match l
    case Stat => Some(s.staged[s.phase.i].temp)
    case Link(_) => Some(s.staged[s.phase.i].temp)
    case CleanOne => if s.phase.j < |s.staged| then Some(s.staged[s.phase.j].temp) else None
    case _ => None
  }

  /** A caller can see it before the step: the temporary name is free or stands for a file of the export. */
  predicate FindsOwn(s: State, l: Label)
    requires Enabled(s, l)
  {
    match TempOf(s, l)
    case Some(temp) => temp in s.view.names ==> s.view.names[temp] in s.mine
    case None => true
  }

  /** What the export has recorded is its own. */
  predicate Owned(s: State) {
    && (forall part <- s.staged :: part.inode in s.mine)
    && (forall c <- s.files :: c.inode in s.mine)
    && (s.phase.Linking? || s.phase.Verifying? ==> s.phase.seen in s.mine)
    && (s.phase.Copying? ==> s.phase.made in s.mine)
  }

  lemma OwnedStep(s: State, l: Label)
    requires Owned(s) && Enabled(s, l) && FindsOwn(s, l)
    ensures Owned(Next(s, l))
  {
  }

  /** Whoever finds its temporary names its own harms nobody: in particular the rollback, which goes by file identity, takes
      away names only from files it created, whatever the targets stand for by then. */
  lemma OwnStepHarmless(s: State, l: Label)
    requires Owned(s) && Enabled(s, l) && FindsOwn(s, l) && !l.Others?
    ensures Harmless(s.view, Next(s, l).view, Next(s, l).mine)
  {
  }

  /** Cleaning up by name is harmless if and only if the name is free or still stands for a file of the export. */
  lemma CleanHarmlessIff(s: State)
    requires Owned(s) && Enabled(s, CleanOne)
    ensures Harmless(s.view, Next(s, CleanOne).view, s.mine) <==> FindsOwn(s, CleanOne)
  {
    if s.phase.j < |s.staged| {
      var temp := s.staged[s.phase.j].temp;
      assert temp !in Next(s, CleanOne).view.names;
    }
  }

  /** So is linking, once the target is free. */
  lemma LinkHarmlessIff(s: State)
    requires Owned(s) && Enabled(s, Link(true)) && s.staged[s.phase.i].target !in s.view.names
    ensures Harmless(s.view, Next(s, Link(true)).view, s.mine) <==> FindsOwn(s, Link(true))
  {
    var part, n := s.staged[s.phase.i], Next(s, Link(true)).view;
    if part.temp in s.view.names {
      assert part.target in n.names && n.names[part.target] == s.view.names[part.temp];
    }
  }

  predicate Possible(s: State, run: seq<Label>)
    decreases |run|
  {
    run == [] || (Enabled(s, run[0]) && Possible(Next(s, run[0]), run[1..]))
  }

  function After(s: State, run: seq<Label>): State
    requires Possible(s, run)
    decreases |run|
  {
    if run == [] then s else After(Next(s, run[0]), run[1..])
  }

  predicate FindsOwnThroughout(s: State, run: seq<Label>)
    requires Possible(s, run)
    decreases |run|
  {
    run == [] || (FindsOwn(s, run[0]) && FindsOwnThroughout(Next(s, run[0]), run[1..]))
  }

  ghost predicate HarmlessThroughout(s: State, run: seq<Label>)
    requires Possible(s, run)
    decreases |run|
  {
    run == [] || ((run[0].Others? || Harmless(s.view, Next(s, run[0]).view, Next(s, run[0]).mine))
                  && HarmlessThroughout(Next(s, run[0]), run[1..]))
  }

  lemma {:induction false} HarmlessFrom(s: State, run: seq<Label>)
    requires Owned(s) && Possible(s, run) && FindsOwnThroughout(s, run)
    ensures HarmlessThroughout(s, run) && Owned(After(s, run))
    decreases |run|
  {
    if run != [] {
      if !run[0].Others? {
        OwnStepHarmless(s, run[0]);
      }
      OwnedStep(s, run[0]);
      hide Enabled, Next, FindsOwn, Harmless, Owned;
      HarmlessFrom(Next(s, run[0]), run[1..]);
    }
  }

  /** Over every interleaving with any other processes, from any disk: as long as each temporary name is free or the
      export's own when it is used, no step of the export takes a name from a foreign file, gives it one, or changes its
      data. */
  lemma ExportIsHarmless(view: View, targets: seq<Path>, run: seq<Label>)
    requires Valid(view) && Possible(Begin(view, targets), run) && FindsOwnThroughout(Begin(view, targets), run)
    ensures HarmlessThroughout(Begin(view, targets), run)
  {
    HarmlessFrom(Begin(view, targets), run);
  }

  /** A name that stands for a foreign file survives each step of the export that finds its temporary names its own. */
  lemma ForeignNameStays(s: State, l: Label, p: Path)
    requires Owned(s) && Enabled(s, l) && FindsOwn(s, l) && !l.Others?
    requires p in s.view.names && s.view.names[p] !in Next(s, l).mine
    ensures p in Next(s, l).view.names && Next(s, l).view.names[p] == s.view.names[p]
  {
    OwnStepHarmless(s, l);
    hide Next, Enabled, FindsOwn;
  }

  // ---- Where it does harm ----

  const Empty := View(map[], map[], 0)
  const Targets: seq<Path> := ["b"]
  const Ready := State(Empty, Targets, Creating, [], [], {})
  const OneStaged := State(View(map["t" := 0], map[0 := ""], 1), Targets, Writing, [Staged("b", "t", 0)], [], {0})
  const Replaced := OneStaged.(view := View(map["t" := 1], map[0 := "", 1 := "theirs"], 2))
  const Failed := Replaced.(view := View(map["t" := 1], map[0 := "", 1 := "theirs"], 2), phase := Cleaning(0, false))
  const Harmed := Failed.(view := View(map[], map[0 := "", 1 := "theirs"], 2), phase := Cleaning(1, false))

  /** Another process puts its own file in the place of a temporary name, the write fails, and the clean-up takes that
      process's file away. */
  lemma CleanUpTakesForeignFile()
    ensures exists run :: Possible(Begin(Empty, Targets), run) && !HarmlessThroughout(Begin(Empty, Targets), run)
  {
    var start := Begin(Empty, Targets);
    var checked := start.(phase := Checking(1));
    assert Enabled(start, Check) && Next(start, Check) == checked;
    assert Enabled(checked, Check) && Next(checked, Check) == Ready;
    StagesAndFails();
    HarmsForeignFile();
    hide *;
    ConsRun(Failed, CleanOne, Harmed, []);
    ConsRun(Replaced, Write("", false), Failed, [CleanOne] + []);
    ConsRun(OneStaged, Others(Replaced.view), Replaced, [Write("", false)] + ([CleanOne] + []));
    var rest := [Others(Replaced.view)] + ([Write("", false)] + ([CleanOne] + []));
    ConsRun(Ready, Create("t", true), OneStaged, rest);
    ConsRun(checked, Check, Ready, [Create("t", true)] + rest);
    ConsRun(start, Check, checked, [Check] + ([Create("t", true)] + rest));
  }

  lemma StagesAndFails()
    ensures Enabled(Ready, Create("t", true)) && Next(Ready, Create("t", true)) == OneStaged
    ensures Enabled(OneStaged, Others(Replaced.view)) && Next(OneStaged, Others(Replaced.view)) == Replaced
    ensures Enabled(Replaced, Write("", false)) && Next(Replaced, Write("", false)) == Failed
  {
  }

  lemma HarmsForeignFile()
    ensures Enabled(Failed, CleanOne) && Next(Failed, CleanOne) == Harmed
    ensures Possible(Harmed, []) && HarmlessThroughout(Harmed, [])
    ensures !Harmless(Failed.view, Harmed.view, Harmed.mine)
  {
    assert Failed.view.names - {"t"} == map[];
    assert "t" in Failed.view.names && Failed.view.names["t"] == 1;
  }

  lemma ConsRun(s: State, l: Label, n: State, rest: seq<Label>)
    requires Enabled(s, l) && Next(s, l) == n && Possible(n, rest)
    ensures Possible(s, [l] + rest)
    ensures HarmlessThroughout(s, [l] + rest)
       <==> (l.Others? || Harmless(s.view, n.view, n.mine)) && HarmlessThroughout(n, rest)
  {
    assert ([l] + rest)[1..] == rest;
  }
}
