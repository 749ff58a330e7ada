/** The rewind list: how many files each turn would restore, and a bounded preview of them. */
module CheckpointPreview {
  const PREVIEW_LIMIT := 60

  // ---- The order of paths ----

  predicate Below(a: string, b: string) {
    b != "" && (a == "" || a[0] < b[0] || (a[0] == b[0] && Below(a[1..], b[1..])))
  }

  lemma {:induction false} BelowTrans(a: string, b: string, c: string)
    requires Below(a, b) && Below(b, c)
    ensures Below(a, c)
  {
    if a != "" && a[0] == b[0] && b[0] == c[0] {
      BelowTrans(a[1..], b[1..], c[1..]);
    }
  }

  lemma {:induction false} BelowTotal(a: string, b: string)
    ensures Below(a, b) || Below(b, a) || a == b
    ensures !(Below(a, b) && Below(b, a)) && !Below(a, a)
  {
    if a != "" && b != "" {
      BelowTotal(a[1..], b[1..]);
      assert a == [a[0]] + a[1..] && b == [b[0]] + b[1..];
    }
    if a != "" {
      BelowTotal(a[1..], a[1..]);
    }
  }

  predicate Ascending(s: seq<string>) {
    forall i, j :: 0 <= i < j < |s| ==> Below(s[i], s[j])
  }

  // ---- What a preview is ----

  /** The `limit` smallest non-empty paths of a set, ascending, or all of them when there are no more. */
  ghost predicate IsPreview(p: seq<string>, paths: set<string>, limit: nat) {
    && Ascending(p)
    && (forall x <- p :: x in paths && x != "")
    && |p| <= limit
    && (forall x <- paths | x != "" && x !in p :: |p| == limit && forall y <- p :: Below(y, x))
  }

  lemma {:induction false} AscendingUnique(p: seq<string>, q: seq<string>)
    requires Ascending(p) && Ascending(q) && forall x :: x in p <==> x in q
    ensures p == q
  {
    assert p != [] ==> p[0] in q;
    assert q != [] ==> q[0] in p;
    if p != [] && q != [] {
      BelowTotal(p[0], q[0]);
      BelowTotal(p[0], p[0]);
      assert p[0] == q[0];
      assert forall x :: x in p[1..] <==> x in p && x != p[0];
      assert forall x :: x in q[1..] <==> x in q && x != q[0];
      AscendingUnique(p[1..], q[1..]);
    }
  }

  /** There is only one preview of a set. */
  lemma PreviewUnique(p: seq<string>, q: seq<string>, paths: set<string>, limit: nat)
    requires IsPreview(p, paths, limit) && IsPreview(q, paths, limit)
    ensures p == q
  {
    PreviewIncludes(p, q, paths, limit);
    PreviewIncludes(q, p, paths, limit);
    AscendingUnique(p, q);
  }

  lemma PreviewIncludes(p: seq<string>, q: seq<string>, paths: set<string>, limit: nat)
    requires IsPreview(p, paths, limit) && IsPreview(q, paths, limit)
    ensures forall x <- p :: x in q
  {
    SetSize(p);
    SetSize(q);
    var ps, qs := Elements(p), Elements(q);
    if x :| x in p && x !in q {
      assert x in ps && x !in qs && |qs| == limit;
      if qs <= ps {
        SubsetSize(qs, ps, x);
      } else {
        var y :| y in qs && y !in ps;
        BelowTotal(x, y);
      }
    }
  }

  function Elements(p: seq<string>): set<string> {
    set x | x in p
  }

  lemma {:induction false} SetSize(p: seq<string>)
    requires Ascending(p)
    ensures |Elements(p)| == |p|
  {
    if p != [] {
      var front, last := p[..|p| - 1], p[|p| - 1];
      SetSize(front);
      BelowTotal(last, last);
      assert Elements(p) == Elements(front) + {last};
    }
  }

  lemma SubsetSize(a: set<string>, b: set<string>, x: string)
    requires a <= b && x in b && x !in a
    ensures |a| < |b|
  {
    assert a <= b - {x};
    SizeMonotone(a, b - {x});
  }

  lemma {:induction false} SizeMonotone(a: set<string>, b: set<string>)
    requires a <= b
    ensures |a| <= |b|
    decreases |a|
  {
    if x :| x in a {
      SizeMonotone(a - {x}, b - {x});
    }
  }

  // ---- Inserting a path ----

  /** `k` is where `x` belongs: everything before is below it, nothing from there on is. */
  predicate IsRank(p: seq<string>, x: string, k: nat) {
    k <= |p| && (forall i :: 0 <= i < k ==> Below(p[i], x)) && forall i :: k <= i < |p| ==> !Below(p[i], x)
  }

  /** A list that takes `x` at its rank and lets go of its last element when it would grow past the limit. */
  function Inserted(p: seq<string>, x: string, k: nat, limit: nat): seq<string>
    requires k <= |p| <= limit
  {
    if x == "" || (k < |p| && p[k] == x) then p
    else if |p| < limit then p[..k] + [x] + p[k..]
    else if k >= limit then p
    else p[..k] + [x] + p[k..|p| - 1]
  }

  /** A buffer that has `x` at its rank and what followed behind it. */
  lemma PutIn(p: seq<string>, buffer: seq<string>, x: string, k: nat, n: nat)
    requires k <= |p| <= |buffer| && x != "" && (k < |p| ==> p[k] != x) && (|p| == |buffer| ==> k < |p|)
    requires n == (if |p| < |buffer| then |p| + 1 else |p|)
    requires buffer[..k] == p[..k] && buffer[k] == x && buffer[k + 1..n] == p[k..n - 1]
    ensures buffer[..n] == Inserted(p, x, k, |buffer|)
  {
    assert buffer[..n] == buffer[..k] + [x] + buffer[k + 1..n];
  }

  /** The paths shown so far, in a buffer that is shifted in place. */
  class Preview {
    var data: array<string>
    var len: nat

    ghost predicate Valid()
      reads this, data
    {
      len <= data.Length && Ascending(data[..len])
    }

    constructor (limit: nat)
      ensures Valid() && fresh(data) && data.Length == limit && len == 0
    {
      data := new string[limit](_ => "");
      len := 0;
    }

    /** sort.SearchStrings: the first index whose path is not below `x`. */
    method Search(x: string) returns (k: nat)
      requires Valid()
      ensures IsRank(data[..len], x, k)
    {
      var low, high := 0, len;
      while low < high
        invariant 0 <= low <= high <= len
        invariant forall i :: 0 <= i < low ==> Below(data[i], x)
        invariant forall i :: high <= i < len ==> !Below(data[i], x)
      {
        var mid := (low + high) / 2;
        if Below(data[mid], x) {
          forall i | 0 <= i < mid ensures Below(data[i], x) {
            assert Below(data[..len][i], data[..len][mid]);
            BelowTrans(data[i], data[mid], x);
          }
          low := mid + 1;
        } else {
          forall i | mid < i < len ensures !Below(data[i], x) {
            assert Below(data[..len][mid], data[..len][i]);
            if Below(data[i], x) {
              BelowTrans(data[mid], data[i], x);
            }
          }
          high := mid;
        }
      }
      k := low;
    }

    /** insertCheckpointFilePreview, with the buffer's length as the limit. */
    method Insert(x: string)
      requires Valid()
      modifies this`len, data
      ensures data == old(data) && len <= data.Length
      ensures exists k :: IsRank(old(data[..len]), x, k) && data[..len] == Inserted(old(data[..len]), x, k, data.Length)
    {
      var k := Search(x);
      ghost var p := data[..len];
      assert IsRank(p, x, k);
      hide Below, Ascending, IsRank;
      if data.Length == 0 || x == "" || (k < len && data[k] == x) || (len == data.Length && k >= len) {
        assert data[..len] == Inserted(p, x, k, data.Length);
        return;
      }
      var last := if len < data.Length then len else len - 1;
      Shift(k, last);
      data[k] := x;
      if len < data.Length {
        len := len + 1;
      }
      assert data[k + 1..len] == p[k..len - 1] && data[..k] == p[..k];
      PutIn(p, data[..], x, k, len);
    }

    method Copy() returns (files: array<string>)
      requires Valid()
      ensures fresh(files) && files[..] == data[..len]
    {
      files := new string[len](_ => "");
      for i := 0 to len
        invariant files[..i] == data[..i]
      {
        files[i] := data[i];
      }
    }

    /** Moves the paths from `k` up to `last` one place on, over the one at `last`. */
    method Shift(k: nat, last: nat)
      requires k <= last < data.Length
      modifies data
      ensures data[..k] == old(data[..k])
      ensures data[k + 1..last + 1] == old(data[k..last])
      ensures data[last + 1..] == old(data[last + 1..])
    {
      var i := last;
      while i > k
        invariant k <= i <= last
        invariant forall j :: 0 <= j < i ==> data[j] == old(data[j])
        invariant forall j :: i < j <= last ==> data[j] == old(data[j - 1])
        invariant forall j :: last < j < data.Length ==> data[j] == old(data[j])
      {
        data[i] := data[i - 1];
        i := i - 1;
      }
    }
  }

  /** Inserting a new path into the preview of a set gives the preview of the set with that path. */
  lemma InsertedIsPreview(p: seq<string>, paths: set<string>, x: string, k: nat, limit: nat)
    requires IsPreview(p, paths, limit) && x !in paths && IsRank(p, x, k)
    ensures IsPreview(Inserted(p, x, k, limit), paths + {x}, limit)
  {
    var q := Inserted(p, x, k, limit);
    if x != "" {
      forall i | k <= i < |p| ensures Below(x, p[i]) {
        BelowTotal(x, p[i]);
        assert p[i] in p;
      }
      InsertedElements(p, x, k, limit);
      assert Ascending(q);
      forall z <- paths + {x} | z != "" && z !in q ensures |q| == limit && forall y <- q :: Below(y, z) {
        LeftOut(p, paths, x, k, limit, z);
      }
    }
  }

  lemma InsertedElements(p: seq<string>, x: string, k: nat, limit: nat)
    requires k <= |p| <= limit
    ensures forall y <- Inserted(p, x, k, limit) :: y == x || y in p
    ensures |Inserted(p, x, k, limit)| <= limit && (x == "" ==> Inserted(p, x, k, limit) == p)
  {
  }

  /** Whatever is not in the list after an insertion is above everything that is. */
  lemma LeftOut(p: seq<string>, paths: set<string>, x: string, k: nat, limit: nat, z: string)
    requires IsPreview(p, paths, limit) && x !in paths && x != "" && IsRank(p, x, k)
    requires z in paths + {x} && z != "" && z !in Inserted(p, x, k, limit)
    requires forall i :: k <= i < |p| ==> Below(x, p[i])
    ensures |Inserted(p, x, k, limit)| == limit && forall y <- Inserted(p, x, k, limit) :: Below(y, z)
  {
    var q := Inserted(p, x, k, limit);
    assert z in p ==> z in p[..k] || z in p[k..];
    if z != x {
      assert |p| == limit;
      if k < limit {
        var last := p[limit - 1];
        assert z in p[k..] ==> z in p[k..limit - 1] || z == last;
        assert last in p;
        assert z == last || Below(last, z);
        forall y <- q ensures Below(y, z) {
          assert y == x || (y in p && exists i :: 0 <= i < limit - 1 && p[i] == y);
          assert Below(y, last);
          if z != last {
            BelowTrans(y, last, z);
          }
        }
      }
    }
  }

  // ---- The backward pass ----

  datatype Raw = Raw(turn: int, prompt: string, paths: seq<string>, hasBoundary: bool)

  datatype Checkpoint = Checkpoint(
    turn: int,
    prompt: string,
    files: array<string>,         // a copy of its own
    fileCount: nat,
    filesTruncated: bool,
    turnFileCount: nat,
    canCode: bool,
    canConversation: bool)

  /** The files restoring code from turn `i` would touch: those of this turn and of all later ones. */
  function Affected(raw: seq<Raw>, i: nat): set<string>
    requires i <= |raw|
    decreases |raw| - i
  {
    if i == |raw| then {} else Elements(raw[i].paths) + Affected(raw, i + 1)
  }

  lemma {:induction false} AffectedIs(raw: seq<Raw>, i: nat, path: string)
    requires i <= |raw|
    ensures path in Affected(raw, i) <==> exists k :: i <= k < |raw| && path in raw[k].paths
    decreases |raw| - i
  {
    if i < |raw| {
      AffectedIs(raw, i + 1, path);
    }
  }

  ghost predicate Summarises(c: Checkpoint, raw: seq<Raw>, i: nat)
    requires i < |raw|
    reads c.files
  {
    && c.turn == raw[i].turn && c.prompt == raw[i].prompt && c.canConversation == raw[i].hasBoundary
    && IsPreview(c.files[..], Affected(raw, i), PREVIEW_LIMIT)
    && c.fileCount == |Affected(raw, i)|
    && c.turnFileCount == |raw[i].paths|
    && (c.canCode <==> Affected(raw, i) != {})
    && (c.filesTruncated <==> c.fileCount > c.files.Length)
  }

  /** One turn's paths go into the running set and preview. */
  method AddPaths(preview: Preview, seen: set<string>, paths: seq<string>) returns (now: set<string>)
    requires preview.Valid() && preview.data.Length == PREVIEW_LIMIT
    requires IsPreview(preview.data[..preview.len], seen, PREVIEW_LIMIT)
    modifies preview`len, preview.data
    ensures preview.data == old(preview.data) && preview.Valid()
    ensures now == seen + Elements(paths)
    ensures IsPreview(preview.data[..preview.len], now, PREVIEW_LIMIT)
  {
    now := seen;
    hide IsPreview, Ascending;
    for i := 0 to |paths|
      invariant preview.data == old(preview.data) && preview.Valid()
      invariant now == seen + Elements(paths[..i])
      invariant IsPreview(preview.data[..preview.len], now, PREVIEW_LIMIT)
    {
      var f := paths[i];
      assert Elements(paths[..i + 1]) == Elements(paths[..i]) + {f};
      if f !in now {
        ghost var p := preview.data[..preview.len];
        preview.Insert(f);
        ghost var k :| IsRank(p, f, k) && preview.data[..preview.len] == Inserted(p, f, k, PREVIEW_LIMIT);
        InsertedIsPreview(p, now, f, k, PREVIEW_LIMIT);
        PreviewAscends(preview.data[..preview.len], now + {f}, PREVIEW_LIMIT);
        now := now + {f};
      }
    }
    assert paths[..|paths|] == paths;
  }

  lemma PreviewAscends(p: seq<string>, paths: set<string>, limit: nat)
    requires IsPreview(p, paths, limit)
    ensures Ascending(p)
  {
  }

  lemma NothingYet(p: seq<string>)
    requires p == []
    ensures IsPreview(p, {}, PREVIEW_LIMIT)
  {
  }

  /** One turn of the backward pass, with what the later turns have gathered. */
  method Summarise(preview: Preview, seen: set<string>, after: bool, raw: seq<Raw>, i: nat)
      returns (c: Checkpoint, now: set<string>)
    requires i < |raw| && seen == Affected(raw, i + 1) && (after <==> seen != {})
    requires preview.Valid() && preview.data.Length == PREVIEW_LIMIT
    requires IsPreview(preview.data[..preview.len], seen, PREVIEW_LIMIT)
    modifies preview`len, preview.data
    ensures preview.data == old(preview.data) && preview.Valid()
    ensures now == Affected(raw, i) && IsPreview(preview.data[..preview.len], now, PREVIEW_LIMIT)
    ensures fresh(c.files) && Summarises(c, raw, i) && (c.canCode <==> now != {})
  {
    var m := raw[i];
    var hasCode := after;
    if |m.paths| > 0 {
      assert m.paths[0] in Elements(m.paths);
      hasCode := true;
    }
    hide IsPreview, Ascending;
    now := AddPaths(preview, seen, m.paths);
    var files := preview.Copy();
    c := Checkpoint(m.turn, m.prompt, files, |now|, |now| > files.Length, |m.paths|, hasCode, m.hasBoundary);
  }

  /** CheckpointsForTab: from the latest turn back, each turn gets a copy of what has been gathered so far, which later
      insertions leave as it is. */
  method Checkpoints(raw: seq<Raw>) returns (out: seq<Checkpoint>)
    ensures |out| == |raw| && forall i :: 0 <= i < |out| ==> fresh(out[i].files) && Summarises(out[i], raw, i)
  {
    hide IsPreview, Ascending, Summarises;
    var preview := new Preview(PREVIEW_LIMIT);
    NothingYet(preview.data[..0]);
    var seen: set<string> := {};
    var hasCodeAfter := false;
    out := [];
    var i := |raw|;
    while i > 0
      invariant 0 <= i <= |raw| && |out| == |raw| - i
      invariant fresh(preview) && fresh(preview.data) && preview.Valid() && preview.data.Length == PREVIEW_LIMIT
      invariant hasCodeAfter <==> seen != {}
      invariant seen == Affected(raw, i) && IsPreview(preview.data[..preview.len], seen, PREVIEW_LIMIT)
      invariant forall k :: 0 <= k < |out| ==>
                  fresh(out[k].files) && out[k].files != preview.data && Summarises(out[k], raw, i + k)
    {
      i := i - 1;
      var c;
      c, seen := Summarise(preview, seen, hasCodeAfter, raw, i);
      hasCodeAfter := c.canCode;
      out := [c] + out;
    }
  }
}
