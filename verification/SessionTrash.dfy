/** Trashing, restoring and crash-reconciling the artifacts of one desktop session.

    Directories that are moved whole (checkpoints, jobs) count as one content.  A move is atomic and replaces what has its
    target's name, as a rename does. */
module SessionTrash {
  import opened Options
  import opened SessionArtifacts

  type Content = string

  type Key = k: Name | IsTranscript(k) witness KeyWitness()

  function KeyWitness(): (name: Name)
    ensures IsTranscript(name)
  {
    "a.jsonl"
  }

  /** One directory of the trash: the session's files, its subagents' files, and the key recorded with them. */
  datatype Item = Item(files: map<Name, Content>, subs: map<Name, Content>, meta: Option<Name>)

  const EmptyItem := Item(map[], map[], None)

  /** A session directory: the files in it, the subagents' files, its trash, and the sessions marked for cleanup. */
  datatype Dir = Dir(live: map<Name, Content>, subs: map<Name, Content>, trash: map<Name, Item>, pending: set<Name>)

  /** What the shell asks of other parts: the transcript a set of files decodes to, whether it holds a conversation, and
      which sessions another process holds. */
  datatype World = World(decode: (map<Name, Content>, Name) -> Content, hasContent: Content -> bool, held: set<Name>)

  function Owned(key: Key): (names: set<Name>)
    ensures key in names
  {
    TranscriptIsKey(key);
    set k: Kind | k in Kinds :: Artifact(key, k)
  }

  function Restrict(m: map<Name, Content>, kept: set<Name>): map<Name, Content> {
    map n | n in m && n in kept :: m[n]
  }

  /** The files of these names moved into a trash directory. */
  function Moved(d: Dir, names: set<Name>, item: Name): Dir
    requires item in d.trash
  {
    var to := d.trash[item];
    d.(live := d.live - names, trash := d.trash[item := to.(files := to.files + Restrict(d.live, names))])
  }

  function SubsMoved(d: Dir, names: set<Name>, item: Name): Dir
    requires item in d.trash
  {
    var to := d.trash[item];
    d.(subs := d.subs - names, trash := d.trash[item := to.(subs := to.subs + Restrict(d.subs, names))])
  }

  function MovedBack(d: Dir, names: set<Name>, item: Name): Dir
    requires item in d.trash
  {
    var from := d.trash[item];
    d.(live := d.live + Restrict(from.files, names), trash := d.trash[item := from.(files := from.files - names)])
  }

  function SubsMovedBack(d: Dir, item: Name): Dir
    requires item in d.trash
  {
    d.(subs := d.subs + d.trash[item].subs, trash := d.trash[item := d.trash[item].(subs := map[])])
  }

  function Created(d: Dir, item: Name): Dir {
    if item in d.trash then d else d.(trash := d.trash[item := EmptyItem])
  }

  /** The key is recorded with the files. */
  function Recorded(d: Dir, key: Key, item: Name): Dir
    requires item in d.trash
  {
    d.(trash := d.trash[item := d.trash[item].(meta := Some(key))])
  }

  /** The record is written and then the cleanup mark taken away. */
  function Sealed(d: Dir, key: Key, item: Name): Dir
    requires item in d.trash
  {
    Recorded(d, key, item).(pending := d.pending - {key})
  }

  // ---- Deciding where to ----

  predicate Discardable(d: Dir, key: Key, w: World) {
    key in d.pending || key !in d.live || d.live[key] == "" || !w.hasContent(w.decode(d.live, key))
  }

  predicate Matches(d: Dir, key: Key, files: map<Name, Content>, w: World) {
    key !in d.live || w.decode(d.live, key) == w.decode(files, key)
  }

  datatype Target = Nowhere | Fail | Discard | Into(item: Name, replace: bool)

  predicate HasTranscript(d: Dir, item: Name, key: Key) {
    item in d.trash && key in d.trash[item].files
  }

  /** prepareSessionTrashTarget; `unique` is the fresh directory name it would get. */
  function TrashTarget(d: Dir, key: Key, w: World, unique: Name): Target {
    if key !in d.live then Nowhere
    else if HasTranscript(d, key, key) then
      if (Discardable(d, key, w) || Matches(d, key, d.trash[key].files, w)) && key !in w.held then Discard
      else if key in w.held then Fail
      else Into(unique, false)
    else Into(key, true)
  }

  /** A leftover directory without a transcript is removed first. */
  function Emptied(d: Dir, t: Target): Dir
    requires t.Into?
  {
    if t.replace then d.(trash := d.trash - {t.item}) else d
  }

  function Prepared(d: Dir, t: Target): Dir
    requires t.Into?
  {
    Created(Emptied(d, t), t.item)
  }

  /** removeDesktopSessionArtifacts. */
  function Discarded(d: Dir, key: Key, subs: set<Name>): Dir {
    d.(live := d.live - Owned(key), subs := d.subs - subs, pending := d.pending - {key})
  }

  /** Everything a trash does before it seals the item. */
  function MovedInto(d: Dir, key: Key, subs: set<Name>, item: Name): Dir
    requires item in d.trash
  {
    SubsMoved(Moved(d, Owned(key), item), subs, item)
  }

  function Trashed(d: Dir, key: Key, subs: set<Name>, w: World, unique: Name): Dir {
    match TrashTarget(d, key, w, unique)
    case Nowhere => d
    case Fail => d
    case Discard => Discarded(d, key, subs)
    case Into(item, replace) =>
      if key in w.held then Emptied(d, Into(item, replace))      // the removal guard refuses
      else Sealed(MovedInto(Prepared(d, Into(item, replace)), key, subs, item), key, item)
  }

  /** A directory of the trash stands for a session under its own name or under the recorded key. */
  predicate Resolves(d: Dir, item: Name, key: Key) {
    item in d.trash && (item == key || d.trash[item].meta == Some(key))
  }

  /** What the trash listing shows for a directory: the recorded key first. */
  function Listed(d: Dir, item: Name): Option<Name>
    requires item in d.trash
  {
    var i := d.trash[item];
    if i.meta.Some? && IsTranscript(i.meta.value) && i.meta.value in i.files then i.meta
    else if IsTranscript(item) && item in i.files then Some(item)
    else None
  }

  /** restoreTrashedSessionFile; `subs` are the subagents of a live stub that makes way. */
  function Restored(d: Dir, item: Name, key: Key, subs: set<Name>, w: World): Result<Dir>
    requires Resolves(d, item, key)
  {
    if key in d.live && !Discardable(d, key, w) then Err
    else
      var cleared := if key in d.live then Discarded(d, key, subs) else d;
      if !(d.trash[item].subs.Keys !! cleared.subs.Keys) then Err
      else
        var back := SubsMovedBack(MovedBack(cleared, Owned(key), item), item);
        Ok(back.(trash := back.trash - {item}))
  }

  /** reconcileDesktopTrashSessionArtifacts: the entry under the session's own name, unless its transcript differs. */
  function ReconcileItem(d: Dir, key: Key, w: World, unique: Name): Name {
    if HasTranscript(d, key, key) && !Matches(d, key, d.trash[key].files, w) then unique else key
  }

  function Reconciled(d: Dir, key: Key, subs: set<Name>, w: World, unique: Name): Result<Dir> {
    if key in w.held then Err
    else
      var item := ReconcileItem(d, key, w, unique);
      Ok(Sealed(MovedInto(Created(d, item), key, subs, item), key, item))
  }

  /** reconcileDesktopCleanupPending comes to sessions marked for cleanup only. */
  function Pass(d: Dir, key: Key, subs: set<Name>, w: World, unique: Name): Result<Dir> {
    if key in d.pending then Reconciled(d, key, subs, w, unique) else Ok(d)
  }

  // ---- The moves, one by one ----

  /** The artifacts among the first `n`. */
  function OwnedPrefix(key: Key, n: nat): set<Name>
    requires n <= |Kinds|
  {
    set i | 0 <= i < n :: Artifact(key, Kinds[i])
  }

  lemma PrefixGrows(key: Key, i: nat)
    requires i < |Kinds|
    ensures OwnedPrefix(key, i + 1) == OwnedPrefix(key, i) + {Artifact(key, Kinds[i])}
  {
  }

  lemma PrefixEnds(key: Key)
    ensures OwnedPrefix(key, 0) == {} && OwnedPrefix(key, |Kinds|) == Owned(key)
  {
  }

  class Store {
    var dir: Dir

    constructor (dir: Dir)
      ensures this.dir == dir
    {
      this.dir := dir;
    }

    /** movePathIfExists. */
    method MoveOut(name: Name, item: Name)
      requires item in dir.trash
      modifies this
      ensures dir == Moved(old(dir), {name}, item)
    {
      var to := dir.trash[item];
      if name in dir.live {
        assert to.files[name := dir.live[name]] == to.files + Restrict(dir.live, {name});
        dir := dir.(live := dir.live - {name}, trash := dir.trash[item := to.(files := to.files[name := dir.live[name]])]);
      } else {
        assert to.files + Restrict(dir.live, {name}) == to.files && dir.live - {name} == dir.live;
      }
    }

    /** The loop over the artifacts; stopping it anywhere leaves what its invariant says. */
    method MoveArtifacts(key: Key, item: Name)
      requires item in dir.trash
      modifies this
      ensures dir == Moved(old(dir), Owned(key), item)
    {
      NothingMoved(dir, item);
      PrefixEnds(key);
      for i := 0 to |Kinds|
        invariant item in dir.trash && dir == Moved(old(dir), OwnedPrefix(key, i), item)
      {
        MovedTwice(old(dir), OwnedPrefix(key, i), {Artifact(key, Kinds[i])}, item);
        PrefixGrows(key, i);
        hide OwnedPrefix, Owned;
        MoveOut(Artifact(key, Kinds[i]), item);
      }
      PrefixEnds(key);
    }

    /** trashSessionArtifactsBeforeMove. */
    method Trash(key: Key, subs: set<Name>, w: World, unique: Name) returns (ok: bool)
      modifies this
      ensures dir == Trashed(old(dir), key, subs, w, unique)
      ensures !ok <==> old(key in dir.live) && key in w.held
      ensures !ok ==> dir.(trash := map[]) == old(dir).(trash := map[])
      ensures key !in old(dir).live ==> dir == old(dir)
      ensures forall n | n !in Owned(key) :: SameFile(dir.live, old(dir).live, n)
      ensures ok && key in old(dir).live && !Spare(old(dir), key, w) ==>
                if HasTranscript(old(dir), key, key) then Takes(old(dir), dir, unique, Holding(old(dir), unique), key, subs)
                else Takes(old(dir), dir, key, EmptyItem, key, subs)
      ensures ok && key in old(dir).live && Spare(old(dir), key, w) ==>
                dir.trash == old(dir).trash && dir.live.Keys !! Owned(key)
    {
      TrashMeans(dir, key, subs, w, unique);
      hide Owned, Matches, Discarded, Spare, Takes, SameFile;
      ok := true;
      if key !in dir.live {
        return;
      }
      var item, replace := key, true;
      if HasTranscript(dir, key, key) {
        if (Discardable(dir, key, w) || Matches(dir, key, dir.trash[key].files, w)) && key !in w.held {
          dir := Discarded(dir, key, subs);
          return;
        }
        if key in w.held {
          return false;
        }
        item, replace := unique, false;
      } else {
        dir := dir.(trash := dir.trash - {item});
      }
      if key in w.held {
        return false;
      }
      dir := Created(dir, item);
      MoveArtifacts(key, item);
      dir := SubsMoved(dir, subs, item);
      dir := Sealed(dir, key, item);
    }

    /** reconcileDesktopTrashSessionArtifacts. */
    method Reconcile(key: Key, subs: set<Name>, w: World, unique: Name) returns (ok: bool)
      modifies this
      ensures ok == Reconciled(old(dir), key, subs, w, unique).Ok?
      ensures dir == if ok then Reconciled(old(dir), key, subs, w, unique).value else old(dir)
      ensures ok <==> key !in w.held
      ensures forall n | n !in Owned(key) :: SameFile(dir.live, old(dir).live, n)
      ensures ok ==>
                var item := if Differs(old(dir), key, w) then unique else key;
                Takes(old(dir), dir, item, Holding(old(dir), item), key, subs)
    {
      ReconcileMeans(dir, key, subs, w, unique);
      hide Takes, Differs;
      if key in w.held {
        return false;
      }
      var item := ReconcileItem(dir, key, w, unique);
      dir := Created(dir, item);
      MoveArtifacts(key, item);
      dir := SubsMoved(dir, subs, item);
      dir := Sealed(dir, key, item);
      return true;
    }

    /** The restore's loop over the artifacts. */
    method MoveArtifactsBack(key: Key, item: Name)
      requires item in dir.trash
      modifies this
      ensures dir == MovedBack(old(dir), Owned(key), item)
    {
      NothingMovedBack(dir, item);
      PrefixEnds(key);
      for i := 0 to |Kinds|
        invariant item in dir.trash && dir == MovedBack(old(dir), OwnedPrefix(key, i), item)
      {
        var name := Artifact(key, Kinds[i]);
        MovedBackTwice(old(dir), OwnedPrefix(key, i), {name}, item);
        PrefixGrows(key, i);
        hide OwnedPrefix, Owned;
        MoveBack(name, item);
      }
      PrefixEnds(key);
    }

    method MoveBack(name: Name, item: Name)
      requires item in dir.trash
      modifies this
      ensures dir == MovedBack(old(dir), {name}, item)
    {
      var from := dir.trash[item];
      if name in from.files {
        assert dir.live[name := from.files[name]] == dir.live + Restrict(from.files, {name});
        dir := dir.(live := dir.live[name := from.files[name]],
                    trash := dir.trash[item := from.(files := from.files - {name})]);
      } else {
        assert dir.live + Restrict(from.files, {name}) == dir.live && from.files - {name} == from.files;
      }
    }

    /** restoreTrashedSessionFile. */
    method Restore(item: Name, key: Key, subs: set<Name>, w: World) returns (ok: bool)
      requires Resolves(dir, item, key)
      modifies this
      ensures ok == Restored(old(dir), item, key, subs, w).Ok?
      ensures ok ==> dir == Restored(old(dir), item, key, subs, w).value
      ensures !ok ==> dir == old(dir) || (old(key in dir.live && Discardable(dir, key, w)) && dir == Discarded(old(dir), key, subs))
      ensures ok <==> !Conversation(old(dir), key, w) && !Collides(old(dir), item, key, subs)
      ensures Conversation(old(dir), key, w) ==> dir == old(dir)
      ensures forall n | n !in Owned(key) :: SameFile(dir.live, old(dir).live, n)
      ensures ok ==> Restores(old(dir), dir, item, key, subs)
      ensures !ok ==> dir.trash == old(dir).trash
    {
      RestoreMeans(dir, item, key, subs, w);
      hide Restored, Restores, SameFile;
      if key in dir.live {
        if !Discardable(dir, key, w) {
          return false;
        }
        dir := Discarded(dir, key, subs);
      }
      if !(dir.trash[item].subs.Keys !! dir.subs.Keys) {
        return false;
      }
      MoveArtifactsBack(key, item);
      dir := SubsMovedBack(dir, item);
      dir := dir.(trash := dir.trash - {item});
      return true;
    }
  }

  /** The session's transcript is live and in the entry under its own name, and they decode differently. */
  predicate Differs(d: Dir, key: Key, w: World) {
    && key in d.live && key in d.trash && key in d.trash[key].files
    && w.decode(d.live, key) != w.decode(d.trash[key].files, key)
  }

  /** An earlier entry holds the transcript, and what is live may go: it is marked, holds no conversation, or is the same. */
  predicate Spare(d: Dir, key: Key, w: World) {
    && key in d.live && key in d.trash && key in d.trash[key].files && key !in w.held
    && (!Conversation(d, key, w) || !Differs(d, key, w))
  }

  /** What a directory of the trash holds; one that is not there holds nothing. */
  function Holding(d: Dir, item: Name): Item {
    if item in d.trash then d.trash[item] else EmptyItem
  }

  /** The item has taken the session's artifacts and the subagents' files, beside what else it held, and every other item
      is as it was. */
  ghost predicate Takes(was: Dir, now: Dir, item: Name, held: Item, key: Key, subs: set<Name>) {
    && item in now.trash && now.trash[item].meta == Some(key) && now.trash - {item} == was.trash - {item}
    && Gathers(was.live, now.live, held.files, now.trash[item].files, Owned(key))
    && Gathers(was.subs, now.subs, held.subs, now.trash[item].subs, subs)
    && now.pending == was.pending - {key}
  }

  /** The files of these names have gone from one place to the other, and nothing else has changed in either. */
  ghost predicate Gathers(was: map<Name, Content>, now: map<Name, Content>, held: map<Name, Content>,
                          holds: map<Name, Content>, names: set<Name>) {
    forall n ::
      if n in names then n !in now && SameFile(holds, if n in was then was else held, n)
      else SameFile(now, was, n) && SameFile(holds, held, n)
  }

  lemma MovedGathers(was: map<Name, Content>, held: map<Name, Content>, names: set<Name>)
    ensures Gathers(was, was - names, held, held + Restrict(was, names), names)
  {
  }

  lemma GathersOthers(was: map<Name, Content>, now: map<Name, Content>, held: map<Name, Content>,
                      holds: map<Name, Content>, names: set<Name>)
    requires Gathers(was, now, held, holds, names)
    ensures forall n | n !in names :: SameFile(now, was, n)
  {
  }

  lemma MovedIntoTakes(was: Dir, d: Dir, key: Key, subs: set<Name>, item: Name)
    requires item in d.trash && d.live == was.live && d.subs == was.subs && d.pending == was.pending
    requires d.trash - {item} == was.trash - {item}
    ensures var now := Sealed(MovedInto(d, key, subs, item), key, item);
      Takes(was, now, item, d.trash[item], key, subs) && forall n | n !in Owned(key) :: SameFile(now.live, was.live, n)
  {
    hide Owned, Gathers, SameFile;
    MovedGathers(was.live, d.trash[item].files, Owned(key));
    MovedGathers(was.subs, d.trash[item].subs, subs);
    hide Restrict;
    var now := Sealed(MovedInto(d, key, subs, item), key, item);
    assert now.trash - {item} == d.trash - {item};
    GathersOthers(was.live, now.live, d.trash[item].files, now.trash[item].files, Owned(key));
  }

  lemma ReconcileMeans(d: Dir, key: Key, subs: set<Name>, w: World, unique: Name)
    ensures var r := Reconciled(d, key, subs, w, unique);
            var item := if Differs(d, key, w) then unique else key;
      && (r.Ok? <==> key !in w.held)
      && (r.Ok? ==>
            && Takes(d, r.value, item, Holding(d, item), key, subs)
            && forall n | n !in Owned(key) :: SameFile(r.value.live, d.live, n))
  {
    var item := ReconcileItem(d, key, w, unique);
    assert Created(d, item).trash - {item} == d.trash - {item};
    MovedIntoTakes(d, Created(d, item), key, subs, item);
    hide Takes, SameFile, Owned, MovedInto, Sealed;
  }

  lemma TrashMeans(d: Dir, key: Key, subs: set<Name>, w: World, unique: Name)
    ensures var t := Trashed(d, key, subs, w, unique);
      && (key in w.held ==> t.(trash := map[]) == d.(trash := map[]))
      && (key !in d.live ==> t == d)
      && (forall n | n !in Owned(key) :: SameFile(t.live, d.live, n))
      && (key in d.live && key !in w.held ==>
            if Spare(d, key, w) then t.trash == d.trash && t.live.Keys !! Owned(key)
            else if HasTranscript(d, key, key) then Takes(d, t, unique, Holding(d, unique), key, subs)
            else Takes(d, t, key, EmptyItem, key, subs))
  {
    hide Takes, Owned, MovedInto, Sealed;
    var target := TrashTarget(d, key, w, unique);
    if target.Into? {
      var p := Prepared(d, target);
      assert p.trash - {target.item} == d.trash - {target.item};
      MovedIntoTakes(d, p, key, subs, target.item);
    }
  }

  /** A live session that is not marked for cleanup and holds a conversation. */
  predicate Conversation(d: Dir, key: Key, w: World) {
    key in d.live && key !in d.pending && d.live[key] != "" && w.hasContent(w.decode(d.live, key))
  }

  /** A subagent in the item has the name of a live one that does not make way. */
  predicate Collides(d: Dir, item: Name, key: Key, subs: set<Name>)
    requires item in d.trash
  {
    exists s <- d.trash[item].subs :: s in d.subs && !(key in d.live && s in subs)
  }

  predicate SameFile(now: map<Name, Content>, was: map<Name, Content>, n: Name) {
    (n in now <==> n in was) && (n in was ==> now[n] == was[n])
  }

  /** What a restore leaves: the item's artifacts of the session are live as they were trashed, a stub they take the place
      of is gone with its own, and so are the item and no other. */
  ghost predicate Restores(was: Dir, now: Dir, item: Name, key: Key, subs: set<Name>)
    requires item in was.trash
  {
    var from, stub := was.trash[item], key in was.live;
    && (forall n <- Owned(key) :: if n in from.files then n in now.live && now.live[n] == from.files[n]
                                  else if stub then n !in now.live
                                  else SameFile(now.live, was.live, n))
    && (forall s :: if s in from.subs then s in now.subs && now.subs[s] == from.subs[s]
                    else if stub && s in subs then s !in now.subs
                    else SameFile(now.subs, was.subs, s))
    && now.trash == was.trash - {item}
    && now.pending == if stub then was.pending - {key} else was.pending
  }

  lemma RestoreMeans(d: Dir, item: Name, key: Key, subs: set<Name>, w: World)
    requires Resolves(d, item, key)
    ensures var r := Restored(d, item, key, subs, w);
      && (r.Ok? <==> !Conversation(d, key, w) && !Collides(d, item, key, subs))
      && (r.Ok? ==> Restores(d, r.value, item, key, subs) && forall n | n !in Owned(key) :: SameFile(r.value.live, d.live, n))
  {
    hide Owned;
    if Restored(d, item, key, subs, w).Ok? {
      RestoredHolds(d, item, key, subs, w);
    }
    hide Restores, SameFile, SubsMovedBack, MovedBack;
  }

  lemma RestoredHolds(d: Dir, item: Name, key: Key, subs: set<Name>, w: World)
    requires Resolves(d, item, key) && Restored(d, item, key, subs, w).Ok?
    ensures var r := Restored(d, item, key, subs, w);
      Restores(d, r.value, item, key, subs) && forall n | n !in Owned(key) :: SameFile(r.value.live, d.live, n)
  {
    hide Owned, Discardable, Restrict, SameFile;
    var stub, from := key in d.live, d.trash[item];
    var cleared := if stub then Discarded(d, key, subs) else d;
    var back := SubsMovedBack(MovedBack(cleared, Owned(key), item), item);
    assert back.live == (if stub then d.live - Owned(key) else d.live) + Restrict(from.files, Owned(key));
    assert back.subs == (if stub then d.subs - subs else d.subs) + from.subs;
    assert back.trash - {item} == d.trash - {item};
    hide Discarded, SubsMovedBack, MovedBack;
    FilesBack(d.live, from.files, Owned(key), stub);
    SubsBack(d.subs, from.subs, subs, stub);
  }

  lemma FilesBack(live: map<Name, Content>, files: map<Name, Content>, owned: set<Name>, stub: bool)
    ensures var now := (if stub then live - owned else live) + Restrict(files, owned);
      && (forall n <- owned :: if n in files then n in now && now[n] == files[n]
                               else if stub then n !in now
                               else SameFile(now, live, n))
      && forall n | n !in owned :: SameFile(now, live, n)
  {
  }

  lemma SubsBack(live: map<Name, Content>, files: map<Name, Content>, subs: set<Name>, stub: bool)
    ensures var now := (if stub then live - subs else live) + files;
            forall s :: if s in files then s in now && now[s] == files[s]
                        else if stub && s in subs then s !in now
                        else SameFile(now, live, s)
  {
  }

  lemma NothingMovedBack(d: Dir, item: Name)
    requires item in d.trash
    ensures MovedBack(d, {}, item) == d
  {
    assert d.live + Restrict(d.trash[item].files, {}) == d.live && d.trash[item].files - {} == d.trash[item].files;
  }

  lemma MovedBackTwice(d: Dir, a: set<Name>, b: set<Name>, item: Name)
    requires item in d.trash
    ensures MovedBack(MovedBack(d, a, item), b, item) == MovedBack(d, a + b, item)
  {
    var files := d.trash[item].files;
    assert d.live + Restrict(files, a) + Restrict(files - a, b) == d.live + Restrict(files, a + b);
    assert files - a - b == files - (a + b);
  }

  lemma NothingMoved(d: Dir, item: Name)
    requires item in d.trash
    ensures Moved(d, {}, item) == d
  {
    assert d.trash[item].files + Restrict(d.live, {}) == d.trash[item].files;
  }

  lemma MovedTwice(d: Dir, a: set<Name>, b: set<Name>, item: Name)
    requires item in d.trash
    ensures Moved(Moved(d, a, item), b, item) == Moved(d, a + b, item)
  {
    var files := d.trash[item].files;
    assert files + Restrict(d.live, a) + Restrict(d.live - a, b) == files + Restrict(d.live, a + b);
    assert d.live - a - b == d.live - (a + b);
  }

  // ---- Trash then restore ----

  /** A session that is moved to the trash is found there under its key: by the listing and by a restore. */
  lemma TrashedIsFound(d: Dir, key: Key, subs: set<Name>, w: World, unique: Name)
    requires TrashTarget(d, key, w, unique).Into? && key !in w.held
    ensures var item := TrashTarget(d, key, w, unique).item;
            var t := Trashed(d, key, subs, w, unique);
      && Resolves(t, item, key) && Listed(t, item) == Some(key)
      && t.trash[item].files[key] == d.live[key]
      && t.live == d.live - Owned(key)
      && forall x <- d.trash | x != item :: x in t.trash && t.trash[x] == d.trash[x]
  {
  }

  /** Trash then restore is the identity on every file of the session and of its subagents. */
  lemma TrashThenRestore(d: Dir, key: Key, subs: set<Name>, w: World, unique: Name)
    requires TrashTarget(d, key, w, unique).Into? && key !in w.held && unique !in d.trash
    ensures var target := TrashTarget(d, key, w, unique);
            var t := Trashed(d, key, subs, w, unique);
      && Resolves(t, target.item, key)
      && Restored(t, target.item, key, {}, w)
         == Ok(d.(trash := Emptied(d, target).trash, pending := d.pending - {key}))
  {
    var target := TrashTarget(d, key, w, unique);
    var item, t := target.item, Trashed(d, key, subs, w, unique);
    TrashedItem(d, key, subs, w, unique);
    hide Owned, Trashed, TrashTarget, Emptied, SubsMovedBack, MovedBack, Discardable;
    assert key !in t.live && Resolves(t, item, key) && t.trash[item].subs.Keys !! t.subs.Keys;
    PutsBack(t, d.live, d.subs, Owned(key), subs, item);
  }

  /** Moving back what was moved out of `live` and `subs`. */
  lemma PutsBack(t: Dir, live: map<Name, Content>, subs: map<Name, Content>, names: set<Name>, moved: set<Name>, item: Name)
    requires item in t.trash && t.live == live - names && t.subs == subs - moved
    requires t.trash[item].files == Restrict(live, names) && t.trash[item].subs == Restrict(subs, moved)
    ensures var back := SubsMovedBack(MovedBack(t, names, item), item);
      && item in back.trash && back.live == live && back.subs == subs && back.pending == t.pending
      && back.trash - {item} == t.trash - {item}
  {
    RestoreFiles(live, names);
    RestoreFiles(subs, moved);
  }

  /** The item a trash makes holds the session's files and nothing else. */
  lemma TrashedItem(d: Dir, key: Key, subs: set<Name>, w: World, unique: Name)
    requires TrashTarget(d, key, w, unique).Into? && key !in w.held && unique !in d.trash
    ensures var target := TrashTarget(d, key, w, unique);
            var t := Trashed(d, key, subs, w, unique);
      && target.item in t.trash
      && t.trash[target.item] == Item(Restrict(d.live, Owned(key)), Restrict(d.subs, subs), Some(key))
      && t.trash - {target.item} == Emptied(d, target).trash
      && t.live == d.live - Owned(key) && t.subs == d.subs - subs && t.pending == d.pending - {key}
  {
    hide Owned;
    assert EmptyItem.files + Restrict(d.live, Owned(key)) == Restrict(d.live, Owned(key));
    assert EmptyItem.subs + Restrict(d.subs, subs) == Restrict(d.subs, subs);
  }

  lemma RestoreFiles(live: map<Name, Content>, names: set<Name>)
    ensures live - names + Restrict(Restrict(live, names), names) == live
    ensures live - names + Restrict(live, names) == live
  {
  }

  /** Another session's files are not touched by trashing this one. */
  lemma OthersUntouched(d: Dir, key: Key, other: Key, subs: set<Name>, w: World, unique: Name)
    requires key != other
    ensures Restrict(Trashed(d, key, subs, w, unique).live, Owned(other)) == Restrict(d.live, Owned(other))
    ensures other in d.pending <==> other in Trashed(d, key, subs, w, unique).pending
  {
    OwnedApart(key, other);
    LiveAfter(d, key, subs, w, unique);
    hide Owned, Trashed;
  }

  lemma LiveAfter(d: Dir, key: Key, subs: set<Name>, w: World, unique: Name)
    ensures var t := Trashed(d, key, subs, w, unique);
      (t.live == d.live || t.live == d.live - Owned(key)) && (t.pending == d.pending || t.pending == d.pending - {key})
  {
    hide Owned;
  }

  lemma OwnedApart(key: Key, other: Key)
    requires key != other
    ensures Owned(key) !! Owned(other)
  {
    forall k: Kind, j: Kind ensures Artifact(key, k) != Artifact(other, j) {
      ArtifactsApart(key, k, other, j);
    }
    hide Artifact;
  }

  // ---- What is never lost ----

  /** The live transcript is gone from everywhere it was not before exactly when the trash decides to discard it: an
      earlier entry exists, nobody holds the session, and it is marked for cleanup, holds no conversation, or decodes to
      the same as the entry. */
  lemma DiscardsIff(d: Dir, key: Key, subs: set<Name>, w: World, unique: Name)
    requires key in d.live && unique !in d.trash
    ensures var t := Trashed(d, key, subs, w, unique);
      (key !in t.live && t.trash == d.trash)
      <==> (HasTranscript(d, key, key) && key !in w.held
            && (key in d.pending || d.live[key] == "" || !w.hasContent(w.decode(d.live, key))
                || w.decode(d.live, key) == w.decode(d.trash[key].files, key)))
  {
  }

  /** An earlier entry with a different conversation stays as it is, and the session goes to a directory of its own. */
  lemma EarlierEntryStays(d: Dir, key: Key, subs: set<Name>, w: World, unique: Name)
    requires key in d.live && unique !in d.trash && HasTranscript(d, key, key)
    requires key !in d.pending && d.live[key] != "" && w.hasContent(w.decode(d.live, key))
    requires w.decode(d.live, key) != w.decode(d.trash[key].files, key)
    ensures var t := Trashed(d, key, subs, w, unique);
      && key in t.trash && t.trash[key] == d.trash[key]
      && if key in w.held then t == d
         else Listed(t, unique) == Some(key) && t.trash[unique].files == Restrict(d.live, Owned(key))
  {
    if key !in w.held {
      assert EmptyItem.files + Restrict(d.live, Owned(key)) == Restrict(d.live, Owned(key));
    }
  }

  // ---- Crash recovery ----

  /** A trash that stopped after the first `n` artifacts, or, all of them moved, after some of the subagents' files. */
  function Stopped(d: Dir, key: Key, t: Target, n: nat, moved: set<Name>): Dir
    requires t.Into? && n <= |Kinds|
  {
    SubsMoved(Moved(Prepared(d, t), OwnedPrefix(key, n), t.item), moved, t.item)
  }

  /** Where a trash may stop: between removing a leftover directory and making the new one, among the moves, or between
      writing the record and taking away the mark. */
  datatype Stop = NoDirectory | Moving(n: nat, moved: set<Name>) | Unsealed

  function StoppedAt(d: Dir, key: Key, subs: set<Name>, t: Target, stop: Stop): Dir
    requires t.Into? && (stop.Moving? ==> stop.n <= |Kinds|)
  {
    match stop
    case NoDirectory => Emptied(d, t)
    case Moving(n, moved) => Stopped(d, key, t, n, moved)
    case Unsealed => Recorded(MovedInto(Prepared(d, t), key, subs, t.item), key, t.item)
  }

  predicate StopOf(stop: Stop, subs: set<Name>) {
    stop.Moving? ==> stop.n <= |Kinds| && stop.moved <= subs && (stop.moved != {} ==> stop.n == |Kinds|)
  }

  /** Wherever it stopped, each artifact is in exactly one place, unchanged. */
  lemma StoppedInOnePlace(d: Dir, key: Key, t: Target, n: nat, moved: set<Name>, name: Name)
    requires t.Into? && n <= |Kinds| && name in Owned(key) && name in d.live
    requires t.item !in Emptied(d, t).trash
    ensures var s := Stopped(d, key, t, n, moved);
            var files := s.trash[t.item].files;
      if name in OwnedPrefix(key, n) then name !in s.live && name in files && files[name] == d.live[name]
      else name !in files && name in s.live && s.live[name] == d.live[name]
  {
  }

  lemma SubsMovedTwice(d: Dir, a: set<Name>, b: set<Name>, item: Name)
    requires item in d.trash
    ensures SubsMoved(SubsMoved(d, a, item), b, item) == SubsMoved(d, a + b, item)
  {
    var subs := d.trash[item].subs;
    assert subs + Restrict(d.subs, a) + Restrict(d.subs - a, b) == subs + Restrict(d.subs, a + b);
    assert d.subs - a - b == d.subs - (a + b);
  }

  lemma MovesCommute(d: Dir, names: set<Name>, subs: set<Name>, item: Name)
    requires item in d.trash
    ensures Moved(SubsMoved(d, subs, item), names, item) == SubsMoved(Moved(d, names, item), subs, item)
  {
  }

  lemma PrefixOwned(key: Key, n: nat)
    requires n <= |Kinds|
    ensures OwnedPrefix(key, n) <= Owned(key) && (n > 0 ==> key in OwnedPrefix(key, n))
  {
    TranscriptIsKey(key);
    if n > 0 {
      assert Artifact(key, Kinds[0]) == key;
    }
  }

  lemma TrashesHere(d: Dir, key: Key, subs: set<Name>, w: World, unique: Name)
    requires key in d.live && !HasTranscript(d, key, key) && key !in w.held
    ensures var p := Prepared(d, Into(key, true));
      && key in p.trash && p.trash[key] == EmptyItem
      && Trashed(d, key, subs, w, unique) == Sealed(MovedInto(p, key, subs, key), key, key)
  {
    hide Owned;
  }

  lemma MovesComplete(d: Dir, key: Key, subs: set<Name>, w: World, unique: Name, n: nat, moved: set<Name>)
    requires key in d.live && !HasTranscript(d, key, key) && key !in w.held
    requires StopOf(Moving(n, moved), subs)
    ensures Reconciled(Stopped(d, key, Into(key, true), n, moved), key, subs, w, unique)
         == Ok(Trashed(d, key, subs, w, unique))
  {
    hide Owned, Trashed, Matches, HasTranscript, MovedInto, Sealed;
    PrefixOwned(key, n);
    TrashesHere(d, key, subs, w, unique);
    var p, part := Prepared(d, Into(key, true)), OwnedPrefix(key, n);
    hide Prepared;
    FinishesMoves(p, key, part, moved, subs);
    assert key in part || part == {};
    hide OwnedPrefix;
    ReconcileHere(Stopped(d, key, Into(key, true), n, moved), key, subs, w, unique);
  }

  /** A directory that is not there yet is made before anything moves. */
  lemma FromNoDirectory(d: Dir, key: Key, subs: set<Name>, w: World, unique: Name)
    requires key in d.live && !HasTranscript(d, key, key) && key !in w.held
    ensures Reconciled(Emptied(d, Into(key, true)), key, subs, w, unique) == Ok(Trashed(d, key, subs, w, unique))
  {
    hide Owned;
    TrashesHere(d, key, subs, w, unique);
    assert ReconcileItem(Emptied(d, Into(key, true)), key, w, unique) == key;
  }

  lemma FromUnsealed(d: Dir, key: Key, subs: set<Name>, w: World, unique: Name)
    requires key in d.live && !HasTranscript(d, key, key) && key !in w.held
    ensures Reconciled(StoppedAt(d, key, subs, Into(key, true), Unsealed), key, subs, w, unique)
         == Ok(Trashed(d, key, subs, w, unique))
  {
    TrashesHere(d, key, subs, w, unique);
    var m := MovedInto(Prepared(d, Into(key, true)), key, subs, key);
    RecordedAgainNothing(m, key, subs);
    hide Owned, Trashed, Matches, Prepared, MovedInto;
    ReconcileHere(Recorded(m, key, key), key, subs, w, unique);
  }

  /** Without an earlier entry: wherever the trash of a session stopped, the reconcile pass turns it into what an
      uninterrupted trash gives if the session was marked for cleanup, and otherwise leaves it as it stopped, which is not
      that. */
  lemma PassCompletesIffMarked(d: Dir, key: Key, subs: set<Name>, w: World, unique: Name, stop: Stop)
    requires key in d.live && !HasTranscript(d, key, key) && key !in w.held && StopOf(stop, subs)
    ensures var stopped := StoppedAt(d, key, subs, Into(key, true), stop);
            var trashed := Trashed(d, key, subs, w, unique);
      && (key in d.pending ==> Pass(stopped, key, subs, w, unique) == Ok(trashed))
      && (key !in d.pending ==> Pass(stopped, key, subs, w, unique) == Ok(stopped) && (stopped == trashed <==> stop.Unsealed?))
  {
    var target := Into(key, true);
    var stopped := StoppedAt(d, key, subs, target, stop);
    TrashesHere(d, key, subs, w, unique);
    match stop {
      case NoDirectory => FromNoDirectory(d, key, subs, w, unique);
      case Moving(n, moved) => MovesComplete(d, key, subs, w, unique, n, moved);
      case Unsealed => FromUnsealed(d, key, subs, w, unique);
    }
    hide Reconciled, Owned, OwnedPrefix, Restrict;
    assert stopped.pending == d.pending;
    assert Trashed(d, key, subs, w, unique).trash[key].meta == Some(key);
  }

  /** Reconciling a finished trash changes nothing. */
  lemma ReconcileAgain(d: Dir, key: Key, subs: set<Name>, w: World, unique: Name)
    requires key in d.live && !HasTranscript(d, key, key) && key !in w.held
    ensures var trashed := Trashed(d, key, subs, w, unique);
            Reconciled(trashed, key, subs, w, unique) == Ok(trashed)
  {
    TrashesHere(d, key, subs, w, unique);
    var p := Prepared(d, Into(key, true));
    var all := MovedInto(p, key, subs, key);
    AgainNothing(all, key, subs);
    hide Owned, Trashed, Matches, Prepared, MovedInto;
    ReconcileHere(Sealed(all, key, key), key, subs, w, unique);
  }

  /** Where the session's transcript is not in two places, the reconcile takes the entry under its own name. */
  lemma ReconcileHere(d: Dir, key: Key, subs: set<Name>, w: World, unique: Name)
    requires key in d.trash && (key !in d.live || key !in d.trash[key].files) && key !in w.held
    ensures Reconciled(d, key, subs, w, unique) == Ok(Sealed(MovedInto(d, key, subs, key), key, key))
  {
    hide Owned;
  }

  /** The moves that are left give the same as all of them at once. */
  lemma FinishesMoves(p: Dir, key: Key, part: set<Name>, moved: set<Name>, subs: set<Name>)
    requires key in p.trash && part <= Owned(key) && moved <= subs
    ensures MovedInto(SubsMoved(Moved(p, part, key), moved, key), key, subs, key) == MovedInto(p, key, subs, key)
  {
    var all := Owned(key);
    MovesCommute(Moved(p, part, key), all, moved, key);
    MovedTwice(p, part, all, key);
    assert part + all == all;
    SubsMovedTwice(Moved(p, all, key), moved, subs, key);
    assert moved + subs == subs;
  }

  /** Moving what is no longer there does nothing. */
  lemma AgainNothing(m: Dir, key: Key, subs: set<Name>)
    requires key in m.trash && m.live.Keys !! Owned(key) && m.subs.Keys !! subs
    ensures MovedInto(Sealed(m, key, key), key, subs, key) == Sealed(m, key, key)
    ensures Sealed(Sealed(m, key, key), key, key) == Sealed(m, key, key)
  {
    var s := Sealed(m, key, key);
    assert Restrict(s.live, Owned(key)) == map[] && Restrict(s.subs, subs) == map[];
    assert s.live - Owned(key) == s.live && s.subs - subs == s.subs;
    assert s.trash[key].files + map[] == s.trash[key].files && s.trash[key].subs + map[] == s.trash[key].subs;
    assert s.trash[key := s.trash[key]] == s.trash;
  }

  lemma RecordedAgainNothing(m: Dir, key: Key, subs: set<Name>)
    requires key in m.trash && m.live.Keys !! Owned(key) && m.subs.Keys !! subs
    ensures Sealed(MovedInto(Recorded(m, key, key), key, subs, key), key, key) == Sealed(m, key, key)
  {
    var s := Recorded(m, key, key);
    assert Restrict(s.live, Owned(key)) == map[] && Restrict(s.subs, subs) == map[];
    assert s.live - Owned(key) == s.live && s.subs - subs == s.subs;
    assert s.trash[key].files + map[] == s.trash[key].files && s.trash[key].subs + map[] == s.trash[key].subs;
    assert s.trash[key := s.trash[key]] == s.trash;
  }

  // ---- Beside an earlier entry ----

  /** reserveUniqueSessionTrashItemDir: two numbers, the second of at least two digits, behind the key. */
  ghost predicate IsUniqueName(key: Key, unique: Name) {
    exists nanos: string, digits: string ::
      unique == key + "-deleted-" + nanos + "-" + digits && |digits| >= 2 && forall c <- digits :: '0' <= c <= '9'
  }

  lemma UniqueNameIsNoTranscript(key: Key, unique: Name)
    requires IsUniqueName(key, unique)
    ensures !IsTranscript(unique) && unique != key
  {
    var nanos: string, digits: string :|
      unique == key + "-deleted-" + nanos + "-" + digits && |digits| >= 2 && forall c <- digits :: '0' <= c <= '9';
    var last := digits[|digits| - 1];
    assert last in digits && unique[|unique| - 1] == last;
    assert unique[|unique| - 6..][5] == last;
  }

  /** A session gets a directory of its own only when it is not marked for cleanup. */
  lemma OwnDirectoryIsUnmarked(d: Dir, key: Key, w: World, unique: Name)
    requires TrashTarget(d, key, w, unique) == Into(unique, false)
    requires IsUniqueName(key, unique)
    ensures key !in d.pending && key !in w.held && HasTranscript(d, key, key) && key in d.live
  {
    UniqueNameIsNoTranscript(key, unique);
  }

  /** So a trash into a directory of its own that stops among its moves is never completed: a reconcile pass leaves it, and
      so does trashing the session again.  What was moved stays in that directory, which neither the listing shows nor a
      restore resolves; the rest stays beside where the transcript was; the earlier entry is as it was. */
  lemma OwnDirectoryStaysSplit(d: Dir, key: Key, subs: set<Name>, w: World, unique: Name, n: nat, moved: set<Name>, other: Name)
    requires TrashTarget(d, key, w, unique) == Into(unique, false) && IsUniqueName(key, unique) && unique !in d.trash
    requires 0 < n && StopOf(Moving(n, moved), subs)
    ensures var s := Stopped(d, key, Into(unique, false), n, moved);
      && Pass(s, key, subs, w, other) == Ok(s) && Trashed(s, key, subs, w, other) == s
      && s.live == d.live - OwnedPrefix(key, n) && s.subs == d.subs - moved
      && s.trash == d.trash[unique := Item(Restrict(d.live, OwnedPrefix(key, n)), Restrict(d.subs, moved), None)]
      && key in s.trash[unique].files && Listed(s, unique) == None && !Resolves(s, unique, key)
  {
    OwnDirectoryIsUnmarked(d, key, w, unique);
    UniqueNameIsNoTranscript(key, unique);
    PrefixOwned(key, n);
    StoppedApart(d, OwnedPrefix(key, n), moved, unique);
    hide OwnedPrefix, Owned, IsUniqueName, Reconciled, SubsMoved, Moved;
  }

  lemma StoppedApart(d: Dir, names: set<Name>, moved: set<Name>, unique: Name)
    requires unique !in d.trash
    ensures SubsMoved(Moved(Created(d, unique), names, unique), moved, unique)
         == d.(live := d.live - names, subs := d.subs - moved,
               trash := d.trash[unique := Item(Restrict(d.live, names), Restrict(d.subs, moved), None)])
  {
    assert EmptyItem.files + Restrict(d.live, names) == Restrict(d.live, names);
    assert EmptyItem.subs + Restrict(d.subs, moved) == Restrict(d.subs, moved);
  }

  /** A discard that stopped after removing the first `n` artifacts. */
  function DiscardStopped(d: Dir, key: Key, n: nat): Dir
    requires n <= |Kinds|
  {
    d.(live := d.live - OwnedPrefix(key, n))
  }

  /** A marked session beside an earlier entry is discarded; if that stops after the transcript is gone, the reconcile pass
      takes the entry for the session's own and moves what is left into it.  The entry's files stay as they are if and only
      if none of what was left is new or different there. */
  lemma DiscardStoppedMixesIff(d: Dir, key: Key, subs: set<Name>, w: World, unique: Name, n: nat)
    requires key in d.pending && TrashTarget(d, key, w, unique) == Discard && 0 < n <= |Kinds|
    ensures var r := Pass(DiscardStopped(d, key, n), key, subs, w, unique);
      && r.Ok? && key in r.value.trash && key !in r.value.live
      && (r.value.trash[key].files == d.trash[key].files
          <==> forall name <- Owned(key) - OwnedPrefix(key, n) | name in d.live ::
                 name in d.trash[key].files && d.trash[key].files[name] == d.live[name])
  {
    PrefixOwned(key, n);
    var stopped := DiscardStopped(d, key, n);
    assert key !in stopped.live && ReconcileItem(stopped, key, w, unique) == key;
    var left := Restrict(stopped.live, Owned(key));
    assert left == Restrict(d.live, Owned(key) - OwnedPrefix(key, n));
    var files := d.trash[key].files;
    assert files + left == files <==> forall name <- left :: name in files && files[name] == left[name] by {
      if files + left == files {
        forall name <- left ensures name in files && files[name] == left[name] {
          assert (files + left)[name] == left[name];
        }
      }
    }
  }
}
