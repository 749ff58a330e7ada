/** Exporting several image files at once: all of them or none, on a disk of names and inodes where any step may fail. */
module ExportTransaction {
  import opened Options

  type Path = string
  type Inode = nat
  type Data = string

  // ---- Numbered targets ----

  function Decimal(n: nat): (s: string)
    ensures |s| > 0
  {
    var digit := [(n % 10) as char + '0'];
    if n < 10 then digit else Decimal(n / 10) + digit
  }

  function Value(s: string): int {
    if s == "" then 0 else Value(s[..|s| - 1]) * 10 + (s[|s| - 1] as int - '0' as int)
  }

  lemma {:induction false} DecimalReadsBack(n: nat)
    ensures Value(Decimal(n)) == n
  {
    var s := Decimal(n);
    if n >= 10 {
      DecimalReadsBack(n / 10);
      assert s[..|s| - 1] == Decimal(n / 10);
    } else {
      assert s[..|s| - 1] == "";
    }
  }

  /** Where the extension begins: at the last dot of the last path element, or at the end. */
  function ExtAt(path: Path, i: nat): (k: nat)
    requires i <= |path|
    ensures k <= |path|
  {
    if i == 0 || path[i - 1] == '/' then |path|
    else if path[i - 1] == '.' then i - 1
    else ExtAt(path, i - 1)
  }

  function Numbered(path: Path, part: nat, count: nat): Path {
    if count <= 1 then path
    else
      var k := ExtAt(path, |path|);
      path[..k] + "-" + Decimal(part + 1) + ("-of-" + Decimal(count) + path[k..])
  }

  lemma NumberedDistinct(path: Path, i: nat, j: nat, count: nat)
    requires i < count && j < count && Numbered(path, i, count) == Numbered(path, j, count)
    ensures i == j
  {
    if count > 1 {
      var k := ExtAt(path, |path|);
      var before, behind := path[..k] + "-", "-of-" + Decimal(count) + path[k..];
      var a, b := Numbered(path, i, count), Numbered(path, j, count);
      assert a == before + Decimal(i + 1) + behind && b == before + Decimal(j + 1) + behind;
      assert a[|before|..|a| - |behind|] == Decimal(i + 1) && b[|before|..|b| - |behind|] == Decimal(j + 1);
      DecimalReadsBack(i + 1);
      DecimalReadsBack(j + 1);
    }
  }

  // ---- The disk ----

  datatype View = View(names: map<Path, Inode>, data: map<Inode, Data>, next: Inode)

  class Disk {
    var names: map<Path, Inode>
    var data: map<Inode, Data>
    var next: Inode              // no inode from here on is in use

    constructor (names: map<Path, Inode>, data: map<Inode, Data>, next: Inode)
      requires forall p <- names :: names[p] < next
      ensures this.names == names && this.data == data && this.next == next && Valid()
    {
      this.names, this.data, this.next := names, data, next;
    }

    predicate Valid()
      reads this
    {
      forall p <- names :: names[p] < next
    }

    function Look(): View
      reads this
    {
      View(names, data, next)
    }

    function Content(p: Path): Option<Data>
      reads this
    {
      if p in names && names[p] in data then Some(data[names[p]]) else None
    }

    /** Opening with O_CREATE and O_EXCL. */
    method CreateExclusive(p: Path) returns (made: Option<Inode>)
      requires Valid()
      modifies this
      ensures Valid() && next >= old(next)
      ensures made.Some? <==> p !in old(names)
      ensures made.Some? ==> made.value == old(next) < next && names == old(names)[p := made.value]
                             && data == old(data)[made.value := ""]
      ensures made.None? ==> names == old(names) && data == old(data)
    {
      if p in names {
        return None;
      }
      made := Some(next);
      names := names[p := next];
      data := data[next := ""];
      next := next + 1;
    }

    method Write(inode: Inode, content: Data)
      requires Valid()
      modifies this`data
      ensures data == old(data)[inode := content]
    {
      data := data[inode := content];
    }

    /** A second name for the file; fails when the name is taken. */
    method Link(from: Path, to: Path) returns (ok: bool)
      requires Valid() && from in names
      modifies this`names
      ensures Valid() && ok == (to !in old(names))
      ensures names == if ok then old(names)[to := old(names)[from]] else old(names)
    {
      ok := to !in names;
      if ok {
        names := names[to := names[from]];
      }
    }

    method Remove(p: Path)
      requires Valid()
      modifies this`names
      ensures Valid() && names == old(names) - {p}
    {
      names := names - {p};
    }

    /** removeExportFileIfSame. */
    method RemoveIfSame(p: Path, inode: Inode)
      requires Valid()
      modifies this`names
      ensures Valid()
      ensures names == if p in old(names) && old(names)[p] == inode then old(names) - {p} else old(names)
    {
      if p in names && names[p] == inode {
        Remove(p);
      }
    }
  }

  // ---- One export ----

  datatype Staged = Staged(target: Path, temp: Path, inode: Inode)

  datatype Committed = Committed(path: Path, inode: Inode)

  /** The names a rollback takes away: those that still stand for the very file that was created. */
  function RolledBack(names: map<Path, Inode>, files: seq<Committed>): map<Path, Inode> {
    map p | p in names && Committed(p, names[p]) !in files :: names[p]
  }

  /** Which of the steps that can fail succeed, by part. */
  datatype Steps = Steps(
    creates: nat -> bool,
    writes: nat -> bool,
    links: nat -> bool,
    opens: nat -> bool,
    copies: nat -> bool)

  const TEMP_ATTEMPTS := 100

  method RemoveTemps(disk: Disk, staged: seq<Staged>)
    requires disk.Valid()
    modifies disk`names
    ensures disk.Valid() && disk.names == old(disk.names) - Temps(staged)
  {
    for i := 0 to |staged|
      invariant disk.Valid() && disk.names == old(disk.names) - Temps(staged[..i])
    {
      assert Temps(staged[..i + 1]) == Temps(staged[..i]) + {staged[i].temp} by {
        assert staged[..i + 1] == staged[..i] + [staged[i]];
      }
      disk.Remove(staged[i].temp);
    }
    assert staged[..|staged|] == staged;
  }

  function Temps(staged: seq<Staged>): set<Path> {
    set s <- staged :: s.temp
  }

  function Paths(files: seq<Committed>): set<Path> {
    set c <- files :: c.path
  }

  /** rollbackCommittedExportFiles: by file identity, so a name that now stands for another file stays. */
  method Rollback(disk: Disk, files: seq<Committed>)
    requires disk.Valid()
    modifies disk`names
    ensures disk.Valid() && disk.names == RolledBack(old(disk.names), files)
  {
    for i := 0 to |files|
      invariant disk.Valid() && disk.names == RolledBack(old(disk.names), files[..i])
    {
      var c := files[i];
      assert files[..i + 1] == files[..i] + [c];
      disk.RemoveIfSame(c.path, c.inode);
    }
    assert files[..|files|] == files;
  }

  /** Whatever names other processes have given to their own files in the meantime, targets of the export included, a
      rollback leaves them all and does with the rest what it would have done without them. */
  lemma RollbackSparesOthers(names: map<Path, Inode>, files: seq<Committed>, others: map<Path, Inode>)
    requires forall p <- others, c <- files :: c.inode != others[p]
    ensures RolledBack(names + others, files) == RolledBack(names - others.Keys, files) + others
  {
    assert forall p <- others :: Committed(p, others[p]) !in files;
  }

  /** The name the attempts of a part come to, from this attempt on. */
  function FirstFree(taken: set<Path>, temp: (nat, nat) -> Path, part: nat, attempt: nat): (name: Option<Path>)
    ensures name.None? <==> forall a: nat | attempt <= a < TEMP_ATTEMPTS :: temp(part, a) in taken
    ensures name.Some? ==> name.value !in taken && exists a: nat | attempt <= a < TEMP_ATTEMPTS :: name.value == temp(part, a)
    decreases TEMP_ATTEMPTS - attempt
  {
    if attempt >= TEMP_ATTEMPTS then None
    else if temp(part, attempt) !in taken then Some(temp(part, attempt))
    else FirstFree(taken, temp, part, attempt + 1)
  }

  /** The temporary names of the first `n` parts, if each finds one. */
  function Picked(taken: set<Path>, temp: (nat, nat) -> Path, n: nat): Option<set<Path>> {
    if n == 0 then Some({})
    else
      var before := Picked(taken, temp, n - 1);
      var name := if before.None? then None else FirstFree(taken + before.value, temp, n - 1, 0);
      if name.None? then None else Some(before.value + {name.value})
  }

  lemma {:induction false} PickedBefore(taken: set<Path>, temp: (nat, nat) -> Path, n: nat, m: nat)
    requires n <= m && Picked(taken, temp, m).Some?
    ensures Picked(taken, temp, n).Some?
  {
    if n < m {
      PickedBefore(taken, temp, n, m - 1);
    }
  }

  /** A candidate of part `i`. */
  ghost predicate Candidate(temp: (nat, nat) -> Path, i: nat, name: Path) {
    exists a: nat | a < TEMP_ATTEMPTS :: temp(i, a) == name
  }

  /** Part `i` has a candidate that is free and no earlier part's. */
  ghost predicate HasOwn(taken: set<Path>, temp: (nat, nat) -> Path, i: nat) {
    exists name :: Candidate(temp, i, name) && name !in taken && forall k: nat | k < i :: !Candidate(temp, k, name)
  }

  /** When each part has one, the parts find their names, and all of them are candidates. */
  lemma {:induction false} PickedWhen(taken: set<Path>, temp: (nat, nat) -> Path, n: nat)
    requires forall i: nat | i < n :: HasOwn(taken, temp, i)
    ensures Picked(taken, temp, n).Some?
    ensures forall name <- Picked(taken, temp, n).value :: exists i: nat | i < n :: Candidate(temp, i, name)
  {
    if n > 0 {
      PickedWhen(taken, temp, n - 1);
      assert HasOwn(taken, temp, n - 1);
      var own :| Candidate(temp, n - 1, own) && own !in taken && forall k: nat | k < n - 1 :: !Candidate(temp, k, own);
      var names := Picked(taken, temp, n - 1).value;
      var a: nat :| a < TEMP_ATTEMPTS && temp(n - 1, a) == own;
      assert temp(n - 1, a) !in taken + names;
      var name := FirstFree(taken + names, temp, n - 1, 0);
      assert Candidate(temp, n - 1, name.value);
    }
  }

  /** createExportTempFile: the first free name among its attempts. */
  method CreateTemp(disk: Disk, temp: (nat, nat) -> Path, part: nat, fails: bool) returns (made: Option<(Path, Inode)>)
    requires disk.Valid()
    modifies disk
    ensures var name := FirstFree(old(disk.names).Keys, temp, part, 0);
      (made.Some? <==> !fails && name.Some?) && (made.Some? ==> Some(made.value.0) == name)
    ensures disk.Valid() && disk.next >= old(disk.next)
    ensures made.None? ==> disk.names == old(disk.names) && disk.data == old(disk.data)
    ensures made.Some? ==>
              && made.value.0 !in old(disk.names) && made.value.1 == old(disk.next) < disk.next
              && disk.names == old(disk.names)[made.value.0 := made.value.1]
              && disk.data == old(disk.data)[made.value.1 := ""]
  {
    for attempt := 0 to TEMP_ATTEMPTS
      invariant disk.Valid() && disk.next >= old(disk.next) && disk.names == old(disk.names) && disk.data == old(disk.data)
      invariant disk.next == old(disk.next)
      invariant FirstFree(disk.names.Keys, temp, part, 0) == FirstFree(disk.names.Keys, temp, part, attempt)
    {
      if temp(part, attempt) !in disk.names {
        if fails {
          return None;
        }
        var inode := disk.CreateExclusive(temp(part, attempt));
        return Some((temp(part, attempt), inode.value));
      }
    }
    return None;
  }

  /** Files below the floor were there before the export. */
  predicate OldDataKept(now: map<Inode, Data>, was: map<Inode, Data>, floor: Inode) {
    forall i: nat | i < floor :: (i in now <==> i in was) && (i in was ==> now[i] == was[i])
  }

  /** commitStagedExportFile: a link, or else an exclusive copy that is removed again when it cannot be finished. */
  method Commit(disk: Disk, s: Staged, link: bool, open: bool, copy: bool) returns (made: Option<Inode>)
    requires disk.Valid() && s.temp in disk.names && disk.names[s.temp] == s.inode && s.inode in disk.data
    modifies disk
    ensures disk.Valid() && disk.next >= old(disk.next)
    ensures OldDataKept(disk.data, old(disk.data), old(disk.next))
    ensures made.None? ==> disk.names == old(disk.names)
    ensures made.Some? ==>
              && s.target !in old(disk.names) && disk.names == old(disk.names)[s.target := made.value]
              && (made.value == s.inode || made.value >= old(disk.next)) && made.value < disk.next
              && made.value in disk.data && disk.data[made.value] == old(disk.data[s.inode])
    ensures made.Some? <==> s.target !in old(disk.names) && (link || (open && copy))
  {
    if link {
      var linked := disk.Link(s.temp, s.target);
      if linked {
        return Some(s.inode);
      }
    }
    if !open {
      return None;
    }
    var inode := disk.CreateExclusive(s.target);
    if inode.None? {
      return None;
    }
    if !copy {
      disk.RemoveIfSame(s.target, inode.value);
      assert disk.names == old(disk.names);
      return None;
    }
    disk.Write(inode.value, disk.data[s.inode]);
    return inode;
  }

  /** The names there were before, untouched, and those the export has added. */
  predicate Added(names: map<Path, Inode>, before: map<Path, Inode>, added: set<Path>) {
    && added !! before.Keys && names.Keys == before.Keys + added
    && forall p <- before :: names[p] == before[p]
  }

  /** Every staged part holds its payload under its temporary name. */
  predicate AllStaged(disk: View, staged: seq<Staged>, targets: seq<Path>, payload: nat -> Option<Data>, floor: Inode)
    requires |staged| <= |targets|
  {
    forall i :: 0 <= i < |staged| ==>
      var s := staged[i];
      && s.target == targets[i] && s.temp in disk.names && disk.names[s.temp] == s.inode
      && floor <= s.inode < disk.next && s.inode in disk.data && payload(i) == Some(disk.data[s.inode])
  }

  lemma StagedOneMore(was: View, now: View, staged: seq<Staged>, part: Staged, targets: seq<Path>, payload: nat -> Option<Data>,
                      floor: Inode)
    requires |staged| < |targets| && AllStaged(was, staged, targets, payload, floor) && floor <= was.next
    requires part.target == targets[|staged|] && part.temp !in was.names && part.inode == was.next < now.next
    requires now.names == was.names[part.temp := part.inode] && payload(|staged|).Some?
    requires now.data == was.data[part.inode := payload(|staged|).value]
    ensures AllStaged(now, staged + [part], targets, payload, floor)
  {
  }

  /** A new file, empty or written, leaves those below the floor alone. */
  lemma OneFileMore(first: map<Inode, Data>, was: View, inode: Inode, content: Data, floor: Inode)
    requires OldDataKept(was.data, first, floor) && inode == was.next >= floor
    ensures OldDataKept(was.data[inode := ""], first, floor) && OldDataKept(was.data[inode := ""][inode := content], first, floor)
  {
  }

  /** Each of the first `n` parts has a payload, and its file can be created and written. */
  predicate Stageable(n: nat, payload: nat -> Option<Data>, steps: Steps) {
    forall i: nat | i < n :: payload(i).Some? && steps.creates(i) && steps.writes(i)
  }

  method Stage(disk: Disk, targets: seq<Path>, payload: nat -> Option<Data>, temp: (nat, nat) -> Path, steps: Steps)
      returns (ok: bool, staged: seq<Staged>)
    requires disk.Valid()
    modifies disk
    ensures disk.Valid() && disk.next >= old(disk.next) && |staged| <= |targets|
    ensures OldDataKept(disk.data, old(disk.data), old(disk.next))
    ensures Added(disk.names, old(disk.names), Temps(staged))
    ensures ok ==> |staged| == |targets| && AllStaged(disk.Look(), staged, targets, payload, old(disk.next))
    ensures ok <==> Stageable(|targets|, payload, steps) && Picked(old(disk.names).Keys, temp, |targets|).Some?
    ensures ok ==> Picked(old(disk.names).Keys, temp, |targets|) == Some(Temps(staged))
  {
    staged := [];
    NothingStaged(disk.Look(), targets, payload, old(disk.next));
    hide Added, AllStaged, OldDataKept, Picked, FirstFree, Temps, Stageable;
    for i := 0 to |targets|
      invariant disk.Valid() && disk.next >= old(disk.next) && |staged| == i
      invariant OldDataKept(disk.data, old(disk.data), old(disk.next))
      invariant Added(disk.names, old(disk.names), Temps(staged))
      invariant AllStaged(disk.Look(), staged, targets, payload, old(disk.next))
      invariant Stageable(i, payload, steps) && Picked(old(disk.names).Keys, temp, i) == Some(Temps(staged))
    {
      var content := payload(i);
      StageableNext(i, |targets|, payload, steps);
      if content.None? {
        return false, staged;
      }
      ghost var was := disk.Look();
      AddedKeys(was.names, old(disk.names), Temps(staged));
      PickedNext(old(disk.names).Keys, temp, Temps(staged), i, |targets|);
      var made := CreateTemp(disk, temp, i, !steps.creates(i));
      if made.None? {
        return false, staged;
      }
      ghost var part := Staged(targets[i], made.value.0, made.value.1);
      PartStaged(was, disk.Look(), staged, part, targets, payload, old(disk.names), old(disk.data), old(disk.next));
      staged := staged + [Staged(targets[i], made.value.0, made.value.1)];
      if !steps.writes(i) {
        return false, staged;
      }
      disk.Write(made.value.1, content.value);
    }
    return true, staged;
  }

  lemma PickedNext(taken: set<Path>, temp: (nat, nat) -> Path, names: set<Path>, n: nat, m: nat)
    requires n < m && Picked(taken, temp, n) == Some(names)
    ensures var name := FirstFree(taken + names, temp, n, 0);
      && Picked(taken, temp, n + 1) == (if name.Some? then Some(names + {name.value}) else None)
      && (name.None? ==> Picked(taken, temp, m).None?)
  {
    if FirstFree(taken + names, temp, n, 0).None? && Picked(taken, temp, m).Some? {
      PickedBefore(taken, temp, n + 1, m);
    }
  }

  lemma NothingStaged(disk: View, targets: seq<Path>, payload: nat -> Option<Data>, floor: Inode)
    ensures AllStaged(disk, [], targets, payload, floor) && Temps([]) == {}
    ensures Added(disk.names, disk.names, {}) && OldDataKept(disk.data, disk.data, floor)
    ensures forall steps :: Stageable(0, payload, steps)
    ensures forall taken, temp :: Picked(taken, temp, 0) == Some({})
  {
  }

  lemma AddedKeys(names: map<Path, Inode>, before: map<Path, Inode>, added: set<Path>)
    requires Added(names, before, added)
    ensures names.Keys == before.Keys + added
  {
  }

  lemma StageableNext(i: nat, n: nat, payload: nat -> Option<Data>, steps: Steps)
    requires i < n && Stageable(i, payload, steps)
    ensures Stageable(i + 1, payload, steps) <==> payload(i).Some? && steps.creates(i) && steps.writes(i)
    ensures Stageable(n, payload, steps) ==> Stageable(i + 1, payload, steps)
  {
  }

  lemma TempsAlso(staged: seq<Staged>, part: Staged)
    ensures Temps(staged + [part]) == Temps(staged) + {part.temp}
  {
  }

  /** A part staged, before and after it is written. */
  lemma PartStaged(was: View, now: View, staged: seq<Staged>, part: Staged, targets: seq<Path>, payload: nat -> Option<Data>,
                   names: map<Path, Inode>, data: map<Inode, Data>, floor: Inode)
    requires |staged| < |targets| && AllStaged(was, staged, targets, payload, floor) && floor <= was.next
    requires Added(was.names, names, Temps(staged)) && OldDataKept(was.data, data, floor)
    requires part.target == targets[|staged|] && part.temp !in was.names && part.inode == was.next < now.next
    requires now.names == was.names[part.temp := part.inode] && payload(|staged|).Some?
    requires now.data == was.data[part.inode := ""]
    ensures Temps(staged + [part]) == Temps(staged) + {part.temp}
    ensures Added(now.names, names, Temps(staged + [part])) && OldDataKept(now.data, data, floor)
    ensures var written := now.data[part.inode := payload(|staged|).value];
      && OldDataKept(written, data, floor)
      && AllStaged(View(now.names, written, now.next), staged + [part], targets, payload, floor)
  {
    hide AllStaged, Added, OldDataKept;
    var content := payload(|staged|).value;
    AddedOne(was.names, names, Temps(staged), part.temp, part.inode);
    TempsAlso(staged, part);
    assert now.data[part.inode := content] == was.data[part.inode := content];
    StagedOneMore(was, View(now.names, now.data[part.inode := content], now.next), staged, part, targets, payload, floor);
    OneFileMore(data, was, part.inode, content, floor);
  }

  /** Every committed part holds its payload under its target. */
  predicate AllCommitted(disk: View, files: seq<Committed>, targets: seq<Path>, payload: nat -> Option<Data>, floor: Inode)
    requires |files| <= |targets|
  {
    forall i :: 0 <= i < |files| ==>
      var c := files[i];
      && c.path == targets[i] && c.path in disk.names && disk.names[c.path] == c.inode
      && floor <= c.inode < disk.next && c.inode in disk.data && payload(i) == Some(disk.data[c.inode])
  }

  /** What holds between two commits. */
  predicate Committing(disk: View, staged: seq<Staged>, files: seq<Committed>, targets: seq<Path>,
                       payload: nat -> Option<Data>, before: map<Path, Inode>, floor: Inode)
    requires |files| <= |targets| && |staged| == |targets|
  {
    && floor <= disk.next
    && Paths(files) !! Temps(staged)
    && Added(disk.names, before, Temps(staged) + Paths(files))
    && AllStaged(disk, staged, targets, payload, floor)
    && AllCommitted(disk, files, targets, payload, floor)
  }

  /** Names and files may be added; those there are stay. */
  predicate Grows(was: View, now: View) {
    && was.next <= now.next && OldDataKept(now.data, was.data, was.next)
    && forall p <- was.names :: p in now.names && now.names[p] == was.names[p]
  }

  lemma StagedStay(was: View, now: View, staged: seq<Staged>, targets: seq<Path>, payload: nat -> Option<Data>, floor: Inode)
    requires |staged| <= |targets| && AllStaged(was, staged, targets, payload, floor) && Grows(was, now)
    ensures AllStaged(now, staged, targets, payload, floor)
  {
  }

  lemma CommittedStay(was: View, now: View, files: seq<Committed>, targets: seq<Path>, payload: nat -> Option<Data>, floor: Inode)
    requires |files| <= |targets| && AllCommitted(was, files, targets, payload, floor) && Grows(was, now)
    ensures AllCommitted(now, files, targets, payload, floor)
  {
  }

  lemma AddedOne(names: map<Path, Inode>, before: map<Path, Inode>, added: set<Path>, p: Path, inode: Inode)
    requires Added(names, before, added) && p !in names
    ensures Added(names[p := inode], before, added + {p}) && p !in added
  {
  }

  /** One commit more: a new name for a part's content, the files there were before it unchanged. */
  lemma CommittedOneMore(was: View, now: View, staged: seq<Staged>, files: seq<Committed>, inode: Inode, targets: seq<Path>,
                         payload: nat -> Option<Data>, before: map<Path, Inode>, floor: Inode)
    requires |staged| == |targets| && |files| < |targets| && Committing(was, staged, files, targets, payload, before, floor)
    requires var target := staged[|files|].target; target !in was.names && now.names == was.names[target := inode]
    requires was.next <= now.next && OldDataKept(now.data, was.data, was.next) && floor <= inode < now.next
    requires inode in now.data && now.data[inode] == was.data[staged[|files|].inode]
    ensures Committing(now, staged, files + [Committed(staged[|files|].target, inode)], targets, payload, before, floor)
  {
    var last := Committed(staged[|files|].target, inode);
    assert payload(|files|) == Some(now.data[inode]) && last.path == targets[|files|];
    hide AllStaged, AllCommitted, OldDataKept, Added;
    assert Paths(files + [last]) == Paths(files) + {last.path};
    AddedOne(was.names, before, Temps(staged) + Paths(files), last.path, inode);
    assert Temps(staged) + Paths(files) + {last.path} == Temps(staged) + Paths(files + [last]);
    hide Temps, Paths;
    StagedStay(was, now, staged, targets, payload, floor);
    CommittedStay(was, now, files, targets, payload, floor);
    CommittedAlso(now, files, last, targets, payload, floor);
  }

  lemma CommittedAlso(now: View, files: seq<Committed>, last: Committed, targets: seq<Path>, payload: nat -> Option<Data>, floor: Inode)
    requires |files| < |targets| && AllCommitted(now, files, targets, payload, floor)
    requires last.path == targets[|files|] && last.path in now.names && now.names[last.path] == last.inode
    requires floor <= last.inode < now.next && last.inode in now.data && payload(|files|) == Some(now.data[last.inode])
    ensures AllCommitted(now, files + [last], targets, payload, floor)
  {
  }

  /** A commit that failed: the names are what they were, the files too. */
  lemma CommittedNoMore(was: View, now: View, staged: seq<Staged>, files: seq<Committed>, targets: seq<Path>,
                        payload: nat -> Option<Data>, before: map<Path, Inode>, floor: Inode)
    requires |staged| == |targets| && |files| < |targets| && Committing(was, staged, files, targets, payload, before, floor)
    requires now.names == was.names && was.next <= now.next && OldDataKept(now.data, was.data, was.next)
    ensures Committing(now, staged, files, targets, payload, before, floor)
  {
    hide AllStaged, AllCommitted, OldDataKept, Added;
    StagedStay(was, now, staged, targets, payload, floor);
    CommittedStay(was, now, files, targets, payload, floor);
  }

  lemma RollbackRestores(names: map<Path, Inode>, before: map<Path, Inode>, temps: set<Path>, files: seq<Committed>)
    requires Paths(files) !! temps && Added(names, before, temps + Paths(files))
    requires forall c <- files :: c.path in names && names[c.path] == c.inode
    ensures Added(RolledBack(names, files), before, temps)
  {
    forall p <- names ensures p in RolledBack(names, files) <==> p in before || p in temps {
      if p in Paths(files) {
        var c :| c in files && c.path == p;
      } else {
        assert Committed(p, names[p]) !in files;
      }
    }
  }

  lemma RollbackFrees(disk: View, staged: seq<Staged>, files: seq<Committed>, targets: seq<Path>,
                      payload: nat -> Option<Data>, before: map<Path, Inode>, floor: Inode)
    requires |files| <= |targets| && |staged| == |targets| && Committing(disk, staged, files, targets, payload, before, floor)
    ensures Added(RolledBack(disk.names, files), before, Temps(staged))
  {
    forall c <- files ensures c.path in disk.names && disk.names[c.path] == c.inode {
      var i :| 0 <= i < |files| && files[i] == c;
    }
    hide Added;
    RollbackRestores(disk.names, before, Temps(staged), files);
  }

  lemma StagedPart(disk: View, staged: seq<Staged>, targets: seq<Path>, payload: nat -> Option<Data>,
                   before: map<Path, Inode>, floor: Inode, files: seq<Committed>, i: nat)
    requires |files| <= |targets| && |staged| == |targets| && i < |staged|
    requires Committing(disk, staged, files, targets, payload, before, floor)
    ensures floor <= disk.next && staged[i].temp in disk.names && disk.names[staged[i].temp] == staged[i].inode
    ensures floor <= staged[i].inode < disk.next && staged[i].inode in disk.data
  {
  }

  lemma KeptTwice(a: map<Inode, Data>, b: map<Inode, Data>, c: map<Inode, Data>, floor: Inode, next: Inode)
    requires OldDataKept(b, a, floor) && OldDataKept(c, b, next) && floor <= next
    ensures OldDataKept(c, a, floor)
  {
  }

  /** The first `n` targets are new, each other's included, and can be linked or copied to. */
  predicate Committable(targets: seq<Path>, n: nat, taken: set<Path>, steps: Steps)
    requires n <= |targets|
  {
    forall i: nat | i < n ::
      && targets[i] !in taken && targets[i] !in targets[..i]
      && (steps.links(i) || (steps.opens(i) && steps.copies(i)))
  }

  lemma CommittableNext(targets: seq<Path>, n: nat, taken: set<Path>, steps: Steps)
    requires n < |targets| && Committable(targets, n, taken, steps)
    ensures Committable(targets, n + 1, taken, steps)
       <==> && targets[n] !in taken && targets[n] !in targets[..n]
            && (steps.links(n) || (steps.opens(n) && steps.copies(n)))
    ensures Committable(targets, |targets|, taken, steps) ==> Committable(targets, n + 1, taken, steps)
  {
  }

  /** The target of the next commit is free exactly when it was before the commits and no earlier part has it. */
  lemma NextTarget(disk: View, staged: seq<Staged>, files: seq<Committed>, targets: seq<Path>, payload: nat -> Option<Data>,
                   before: map<Path, Inode>, floor: Inode)
    requires |files| < |targets| == |staged| && Committing(disk, staged, files, targets, payload, before, floor)
    ensures staged[|files|].target == targets[|files|]
    ensures targets[|files|] in disk.names
       <==> targets[|files|] in before.Keys + Temps(staged) || targets[|files|] in targets[..|files|]
  {
    hide AllStaged;
    assert Paths(files) == set t <- targets[..|files|] :: t by {
      TargetsArePaths(files, targets[..|files|]);
    }
    StagedTarget(disk, staged, targets, payload, floor, |files|);
  }

  lemma StagedTarget(disk: View, staged: seq<Staged>, targets: seq<Path>, payload: nat -> Option<Data>, floor: Inode, i: nat)
    requires i < |staged| <= |targets| && AllStaged(disk, staged, targets, payload, floor)
    ensures staged[i].target == targets[i]
  {
  }

  /** The commits, with the rollback of those made when one fails. */
  method CommitAll(disk: Disk, staged: seq<Staged>, targets: seq<Path>, payload: nat -> Option<Data>, steps: Steps,
                   ghost before: map<Path, Inode>, ghost floor: Inode) returns (ok: bool, files: seq<Committed>)
    requires disk.Valid() && |staged| == |targets| && Committing(disk.Look(), staged, [], targets, payload, before, floor)
    modifies disk
    ensures disk.Valid() && OldDataKept(disk.data, old(disk.data), floor)
    ensures !ok ==> Added(disk.names, before, Temps(staged))
    ensures ok ==> |files| == |targets| && Committing(disk.Look(), staged, files, targets, payload, before, floor)
    ensures ok <==> Committable(targets, |targets|, before.Keys + Temps(staged), steps)
  {
    files := [];
    assert Committable(targets, 0, before.Keys + Temps(staged), steps) && OldDataKept(disk.data, disk.data, floor);
    hide Added, AllStaged, AllCommitted, OldDataKept, Committing, Temps, Committable, RolledBack;
    for i := 0 to |staged|
      invariant disk.Valid() && |files| == i && Committing(disk.Look(), staged, files, targets, payload, before, floor)
      invariant OldDataKept(disk.data, old(disk.data), floor)
      invariant Committable(targets, i, before.Keys + Temps(staged), steps)
    {
      ghost var was := disk.Look();
      StagedPart(was, staged, targets, payload, before, floor, files, i);
      NextTarget(was, staged, files, targets, payload, before, floor);
      CommittableNext(targets, i, before.Keys + Temps(staged), steps);
      var made := Commit(disk, staged[i], steps.links(i), steps.opens(i), steps.copies(i));
      KeptTwice(old(disk.data), was.data, disk.data, floor, was.next);
      if made.None? {
        CommittedNoMore(was, disk.Look(), staged, files, targets, payload, before, floor);
        RollbackFrees(disk.Look(), staged, files, targets, payload, before, floor);
        Rollback(disk, files);
        return false, files;
      }
      CommittedOneMore(was, disk.Look(), staged, files, made.value, targets, payload, before, floor);
      files := files + [Committed(staged[i].target, made.value)];
    }
    return true, files;
  }

  /** When an export goes through: its targets are new and different from each other, every part has its payload and finds
      a temporary name that is no target, and of the steps on the way none fails but a link that a copy makes up for. */
  predicate Saveable(taken: set<Path>, targets: seq<Path>, payload: nat -> Option<Data>, temp: (nat, nat) -> Path, steps: Steps) {
    && targets != []
    && (forall i, j :: 0 <= i < j < |targets| ==> targets[i] != targets[j])
    && (forall t <- targets :: t !in taken)
    && (forall i: nat | i < |targets| ::
          && payload(i).Some? && steps.creates(i) && steps.writes(i)
          && (steps.links(i) || (steps.opens(i) && steps.copies(i))))
    && var temps := Picked(taken, temp, |targets|);
       temps.Some? && forall t <- targets :: t !in temps.value
  }

  lemma SaveableIs(taken: set<Path>, targets: seq<Path>, payload: nat -> Option<Data>, temp: (nat, nat) -> Path, steps: Steps)
    ensures Saveable(taken, targets, payload, temp, steps)
       <==> && targets != [] && (forall t <- targets :: t !in taken)
            && Stageable(|targets|, payload, steps) && Picked(taken, temp, |targets|).Some?
            && Committable(targets, |targets|, taken + Picked(taken, temp, |targets|).value, steps)
  {
    hide Picked;
    if Picked(taken, temp, |targets|).Some? {
      CommittableWhen(targets, taken, Picked(taken, temp, |targets|).value, steps);
    }
    hide Committable;
  }

  lemma CommittableWhen(targets: seq<Path>, before: set<Path>, temps: set<Path>, steps: Steps)
    ensures Committable(targets, |targets|, before + temps, steps)
       <==> && (forall i, j :: 0 <= i < j < |targets| ==> targets[i] != targets[j])
            && (forall t <- targets :: t !in before && t !in temps)
            && forall i: nat | i < |targets| :: steps.links(i) || (steps.opens(i) && steps.copies(i))
  {
    if Committable(targets, |targets|, before + temps, steps) {
      forall i, j | 0 <= i < j < |targets| ensures targets[i] != targets[j] {
        assert targets[i] == targets[..j][i];
      }
      forall t <- targets ensures t !in before && t !in temps {
        var i :| 0 <= i < |targets| && targets[i] == t;
      }
    }
  }

  /** Nothing that fails, distinct new targets, and for every part a name of its own that is no target: that is enough,
      whatever the names. */
  lemma SaveableWhen(taken: set<Path>, targets: seq<Path>, payload: nat -> Option<Data>, temp: (nat, nat) -> Path, steps: Steps)
    requires targets != [] && (forall i, j :: 0 <= i < j < |targets| ==> targets[i] != targets[j])
    requires forall t <- targets :: t !in taken
    requires forall i: nat | i < |targets| :: payload(i).Some? && steps.creates(i) && steps.writes(i)
    requires forall i: nat | i < |targets| :: steps.links(i) || (steps.opens(i) && steps.copies(i))
    requires forall i: nat | i < |targets| :: HasOwn(taken, temp, i)
    requires forall i: nat, t <- targets | i < |targets| :: !Candidate(temp, i, t)
    ensures Saveable(taken, targets, payload, temp, steps)
  {
    PickedWhen(taken, temp, |targets|);
  }

  /** saveExclusiveExportPayloads: on success every target is new and holds exactly its payload; otherwise every name is
      what it was.  Either way no temporary name is left and no file that was there before has changed. */
  method SaveExclusive(disk: Disk, targets: seq<Path>, payload: nat -> Option<Data>, temp: (nat, nat) -> Path, steps: Steps)
      returns (ok: bool)
    requires disk.Valid()
    modifies disk
    ensures disk.Valid()
    ensures OldDataKept(disk.data, old(disk.data), old(disk.next))
    ensures !ok ==> disk.names == old(disk.names)
    ensures ok ==> Added(disk.names, old(disk.names), set t <- targets :: t)
    ensures ok ==> forall i :: 0 <= i < |targets| ==> payload(i).Some? && disk.Content(targets[i]) == payload(i)
    ensures ok <==> Saveable(old(disk.names).Keys, targets, payload, temp, steps)
  {
    SaveableIs(disk.names.Keys, targets, payload, temp, steps);
    hide Saveable, Picked, Committable, Stageable;
    if |targets| == 0 {
      return false;
    }
    for i := 0 to |targets|
      invariant forall k :: 0 <= k < i ==> targets[k] !in disk.names
    {
      if targets[i] in disk.names {
        return false;
      }
    }
    var staged, files;
    ok, staged := Stage(disk, targets, payload, temp, steps);
    hide Temps, Added, AllStaged, AllCommitted, OldDataKept;
    if ok {
      ghost var middle := disk.data;
      NothingCommitted(disk.Look(), staged, targets, payload, old(disk.names), old(disk.next));
      ok, files := CommitAll(disk, staged, targets, payload, steps, old(disk.names), old(disk.next));
      KeptTwice(old(disk.data), middle, disk.data, old(disk.next), old(disk.next));
    }
    if ok {
      ExportHolds(disk.Look(), staged, files, targets, payload, old(disk.names), old(disk.next));
    } else {
      OnlyTempsAdded(disk.names, old(disk.names), Temps(staged));
    }
    RemoveTemps(disk, staged);
  }

  lemma NothingCommitted(disk: View, staged: seq<Staged>, targets: seq<Path>, payload: nat -> Option<Data>,
                         before: map<Path, Inode>, floor: Inode)
    requires |staged| == |targets| && floor <= disk.next && Added(disk.names, before, Temps(staged))
    requires AllStaged(disk, staged, targets, payload, floor)
    ensures Committing(disk, staged, [], targets, payload, before, floor)
  {
    assert Temps(staged) + Paths([]) == Temps(staged);
  }

  lemma OnlyTempsAdded(names: map<Path, Inode>, before: map<Path, Inode>, temps: set<Path>)
    requires Added(names, before, temps)
    ensures names - temps == before
  {
  }

  /** What is left once the temporary names are gone. */
  lemma ExportHolds(disk: View, staged: seq<Staged>, files: seq<Committed>, targets: seq<Path>, payload: nat -> Option<Data>,
                    before: map<Path, Inode>, floor: Inode)
    requires |files| == |staged| == |targets| && Committing(disk, staged, files, targets, payload, before, floor)
    ensures Added(disk.names - Temps(staged), before, set t <- targets :: t)
    ensures forall i :: 0 <= i < |targets| ==>
              && payload(i).Some? && targets[i] in disk.names && targets[i] !in Temps(staged)
              && disk.names[targets[i]] in disk.data && payload(i) == Some(disk.data[disk.names[targets[i]]])
  {
    assert forall i :: 0 <= i < |files| ==> files[i].path == targets[i] && files[i] in files;
    hide Added, AllStaged;
    TargetsArePaths(files, targets);
    WithoutTemps(disk.names, before, Temps(staged), Paths(files));
  }

  lemma TargetsArePaths(files: seq<Committed>, targets: seq<Path>)
    requires |files| == |targets| && forall i :: 0 <= i < |files| ==> files[i].path == targets[i]
    ensures Paths(files) == set t <- targets :: t
  {
    forall t <- targets ensures t in Paths(files) {
      var i :| 0 <= i < |targets| && targets[i] == t;
      assert files[i] in files;
    }
    forall c <- files ensures c.path in targets {
      var i :| 0 <= i < |files| && files[i] == c;
    }
  }

  lemma WithoutTemps(names: map<Path, Inode>, before: map<Path, Inode>, temps: set<Path>, paths: set<Path>)
    requires Added(names, before, temps + paths) && temps !! paths
    ensures Added(names - temps, before, paths)
  {
  }
}
