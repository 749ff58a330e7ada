/** The lazy prompt-history tape: pages read through a cursor, sessions loaded when they are first reached. */
module PromptTape {
  import opened Options

  type Path = string
  type Entry = string

  const PAGE_LIMIT := 50
  const MAX_PAGE_LIMIT := 200

  function PageLimit(limit: int): (n: nat)
    ensures 1 <= n <= MAX_PAGE_LIMIT && (1 <= limit <= MAX_PAGE_LIMIT ==> n == limit)
    ensures limit <= 0 ==> n == PAGE_LIMIT
    ensures limit > MAX_PAGE_LIMIT ==> n == MAX_PAGE_LIMIT
  {
    if limit <= 0 then PAGE_LIMIT else if limit > MAX_PAGE_LIMIT then MAX_PAGE_LIMIT else limit
  }

  datatype Cursor = Cursor(nonce: string, session: int, offset: int)

  /** `older` is the cursor of the next page, when there may be one. */
  datatype Page = Page(entries: seq<Entry>, older: Option<Cursor>)

  function Take<T>(s: seq<T>, n: nat): seq<T> {
    if n < |s| then s[..n] else s
  }

  function Drop<T>(s: seq<T>, n: nat): seq<T> {
    if n < |s| then s[n..] else []
  }

  function Clamped(i: int): nat {
    if i < 0 then 0 else i
  }

  /** The simple view: the entries of all sessions from the `i`-th on, one session after the other. */
  function Flat(contents: seq<seq<Entry>>, i: nat): seq<Entry>
    decreases |contents| - i
  {
    if i >= |contents| then [] else contents[i] + Flat(contents, i + 1)
  }

  /** What is left to read at a position; an offset past the end of its session stands for the next one. */
  function From(contents: seq<seq<Entry>>, session: nat, offset: nat): seq<Entry> {
    if session >= |contents| then [] else Drop(contents[session], offset) + Flat(contents, session + 1)
  }

  lemma NextSession(contents: seq<seq<Entry>>, session: nat, offset: nat)
    requires session < |contents| && offset >= |contents[session]|
    ensures From(contents, session, offset) == From(contents, session + 1, 0)
  {
  }

  /** Reading part of a session moves the position along it. */
  lemma Advance(contents: seq<seq<Entry>>, session: nat, offset: nat, end: nat)
    requires session < |contents| && offset <= end <= |contents[session]| && offset < |contents[session]|
    ensures From(contents, session, offset) == contents[session][offset..end] + From(contents, session, end)
  {
    var entries, rest := contents[session], Flat(contents, session + 1);
    hide Flat;
    assert Drop(entries, offset) == entries[offset..end] + Drop(entries, end);
    hide Drop;
    assert (entries[offset..end] + Drop(entries, end)) + rest == entries[offset..end] + (Drop(entries, end) + rest);
  }

  class Tape {
    const nonce: string
    const sessions: seq<Path>
    const disk: map<Path, seq<Entry>>       // what scanning a file yields; absent when it cannot be read
    var loaded: map<Path, seq<Entry>>

    constructor (nonce: string, sessions: seq<Path>, disk: map<Path, seq<Entry>>)
      ensures this.nonce == nonce && this.sessions == sessions && this.disk == disk && loaded == map[]
      ensures forall i :: 0 <= i < |sessions| ==>
                Contents()[i] == if sessions[i] in disk then disk[sessions[i]] else []
    {
      this.nonce, this.sessions, this.disk, loaded := nonce, sessions, disk, map[];
    }

    /** What a session holds for this tape: its cached entries, or else those on disk. */
    function Entries(path: Path): seq<Entry>
      reads this
    {
      if path in loaded then loaded[path] else if path in disk then disk[path] else []
    }

    ghost function Contents(): (contents: seq<seq<Entry>>)
      reads this
      ensures |contents| == |sessions|
    {
      seq(|sessions|, i requires 0 <= i < |sessions| reads this => Entries(sessions[i]))
    }

    /** Where a request starts: a cursor of another tape, or none, starts at the beginning. */
    function StartOf(cursor: Option<Cursor>): (nat, nat) {
      match cursor
      case Some(c) => if c.nonce == nonce then (Clamped(c.session), Clamped(c.offset)) else (0, 0)
      case None => (0, 0)
    }

    ghost function Remaining(cursor: Option<Cursor>): seq<Entry>
      reads this
    {
      From(Contents(), StartOf(cursor).0, StartOf(cursor).1)
    }

    method EntriesForSession(i: nat) returns (entries: seq<Entry>)
      requires i < |sessions|
      modifies this`loaded
      ensures entries == Contents()[i] && sessions[i] in loaded && Contents() == old(Contents())
    {
      var path := sessions[i];
      if path in loaded {
        return loaded[path];
      }
      entries := if path in disk then disk[path] else [];
      loaded := loaded[path := entries];
      assert forall k | 0 <= k < |sessions| :: Entries(sessions[k]) == old(Entries(sessions[k]));
    }

    /** The next entries from the cursor, as many as fit, whatever was cached before; a cursor to go on with comes only
        with a full page and stands for exactly the rest. */
    method ReadOlder(cursor: Option<Cursor>, limit: nat) returns (page: Page)
      requires limit > 0
      modifies this`loaded
      ensures Contents() == old(Contents())
      ensures page.entries == Take(old(Remaining(cursor)), limit)
      ensures Drop(old(Remaining(cursor)), limit) == if page.older.Some? then Remaining(page.older) else []
      ensures page.older.Some? ==> |page.entries| == limit && page.older.value.nonce == nonce
    {
      ghost var all, contents := Remaining(cursor), Contents();
      var (session, offset) := StartOf(cursor);
      var out := [];
      hide From, Flat, Contents;
      while session < |sessions| && |out| < limit
        invariant Contents() == contents
        invariant |out| <= limit && out + From(contents, session, offset) == all
        decreases |sessions| - session, limit - |out|
      {
        var entries := EntriesForSession(session);
        if offset >= |entries| {
          NextSession(contents, session, offset);
          session := session + 1;
          offset := 0;
          continue;
        }
        var end := if |entries| < offset + limit - |out| then |entries| else offset + limit - |out|;
        Advance(contents, session, offset, end);
        assert out + (entries[offset..end] + From(contents, session, end)) == out + entries[offset..end] + From(contents, session, end);
        out := out + entries[offset..end];
        offset := end;
        if offset >= |entries| && |out| < limit {
          NextSession(contents, session, offset);
          session := session + 1;
          offset := 0;
        }
      }
      if session < |sessions| && sessions[session] in loaded && offset >= |loaded[sessions[session]]| {
        CachedIsContents(session);
        NextSession(contents, session, offset);
        session := session + 1;
        offset := 0;
      }
      NothingPastTheEnd(contents, session, offset);
      assert all[..|out|] == out && all[|out|..] == From(contents, session, offset);
      page := Page(out, if session < |sessions| then Some(Cursor(nonce, session, offset)) else None);
    }

    /** ScanPromptHistory on a tape that is still the current one: any requested limit leads to a page that makes progress. */
    method Scan(cursor: Option<Cursor>, requested: int) returns (page: Page)
      modifies this`loaded
      ensures Contents() == old(Contents())
      ensures page.entries == Take(old(Remaining(cursor)), PageLimit(requested))
      ensures cursor.None? || cursor.value.nonce != nonce ==> page.entries == Take(Flat(Contents(), 0), PageLimit(requested))
      ensures old(Remaining(cursor)) != [] ==> page.entries != []
      ensures page.older.Some? ==> |Remaining(page.older)| < |old(Remaining(cursor))|
    {
      FromTheStart(Contents());
      page := ReadOlder(cursor, PageLimit(requested));
    }

    lemma CachedIsContents(i: nat)
      requires i < |sessions| && sessions[i] in loaded
      ensures Contents()[i] == loaded[sessions[i]]
    {
    }

    /** Reading page after page ends, with every entry once and in order. */
    method ReadAll() returns (out: seq<Entry>)
      modifies this`loaded
      ensures out == Flat(Contents(), 0) && Contents() == old(Contents())
    {
      out := [];
      var cursor := None;
      ghost var all := Flat(Contents(), 0);
      FromTheStart(Contents());
      hide From, Flat, Contents, Take, Drop;
      while true
        invariant Contents() == old(Contents())
        invariant out + Remaining(cursor) == all
        decreases |Remaining(cursor)|
      {
        ghost var rest := Remaining(cursor);
        var page := ReadOlder(cursor, MAX_PAGE_LIMIT);
        TakeDrop(rest, MAX_PAGE_LIMIT);
        assert out + rest == out + page.entries + Drop(rest, MAX_PAGE_LIMIT);
        out := out + page.entries;
        if page.older.None? {
          return;
        }
        cursor := page.older;
      }
    }
  }

  lemma TakeDrop<T>(s: seq<T>, n: nat)
    ensures s == Take(s, n) + Drop(s, n)
  {
  }

  lemma FromTheStart(contents: seq<seq<Entry>>)
    ensures From(contents, 0, 0) == Flat(contents, 0)
  {
  }

  lemma NothingPastTheEnd(contents: seq<seq<Entry>>, session: nat, offset: nat)
    ensures session >= |contents| ==> From(contents, session, offset) == []
  {
  }

  // ---- The order of the tape ----

  /** The listing without its first occurrence of a path. */
  function Without(listing: seq<Path>, path: Path): seq<Path> {
    if listing == [] then []
    else if listing[0] == path then listing[1..]
    else [listing[0]] + Without(listing[1..], path)
  }

  /** newPromptHistoryTape: the current session first, then the rest of the listing; a current session that is not listed
      is put in front when it is a file. */
  method TapeOrder(listing: seq<Path>, current: Option<Path>, isFile: bool) returns (sessions: seq<Path>)
    ensures sessions
         == match current
            case None => listing
            case Some(path) => if path in listing || isFile then [path] + Without(listing, path) else listing
  {
    sessions := listing;
    if current.None? {
      return;
    }
    var path := current.value;
    var index := -1;
    var i := 0;
    while i < |listing| && index < 0
      invariant 0 <= i <= |listing|
      invariant index < 0 ==> path !in listing[..i]
      invariant index >= 0 ==> 0 <= index < |listing| && listing[index] == path && path !in listing[..index]
    {
      if listing[i] == path {
        index := i;
      }
      i := i + 1;
    }
    if index >= 0 {
      WithoutAt(listing, path, index);
      sessions := [path] + (listing[..index] + listing[index + 1..]);
    } else {
      WithoutNone(listing, path);
      if isFile {
        sessions := [path] + listing;
      }
    }
  }

  lemma {:induction false} WithoutAt(listing: seq<Path>, path: Path, i: nat)
    requires i < |listing| && listing[i] == path && path !in listing[..i]
    ensures Without(listing, path) == listing[..i] + listing[i + 1..]
  {
    if i > 0 {
      assert listing[0] in listing[..i];
      assert listing[1..][..i - 1] == listing[..i][1..];
      WithoutAt(listing[1..], path, i - 1);
      assert listing[..i] == [listing[0]] + listing[1..][..i - 1];
      assert listing[i + 1..] == listing[1..][i..];
    }
  }

  lemma {:induction false} WithoutNone(listing: seq<Path>, path: Path)
    requires path !in listing
    ensures Without(listing, path) == listing
  {
    if listing != [] {
      WithoutNone(listing[1..], path);
    }
  }

  /** Moving the current session to the front loses, adds and repeats nothing. */
  lemma {:induction false} OrderIsPermutation(listing: seq<Path>, path: Path)
    requires path in listing
    ensures multiset([path] + Without(listing, path)) == multiset(listing)
  {
    if listing[0] == path {
      assert listing == [path] + listing[1..];
    } else {
      OrderIsPermutation(listing[1..], path);
      assert listing == [listing[0]] + listing[1..];
    }
  }
}
