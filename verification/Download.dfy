/** The resumable update download against a server that follows RFC 9110, sections 14.2, 14.4 and 15.3.7: it answers a
    range request with the whole resource, or with a part that begins where the request asked and may end early, or not
    at all; the resource does not change. */
module Download {
  import opened Options

  type Bytes = seq<int>

  const ATTEMPTS := 3
  const EMIT_STEP := 262_144

  /** One answer.  `pieces` is how the body arrives; `complete` tells whether the transfer ended properly, and
      `eofWithData` whether the end came with the last piece or in a read of its own. */
  datatype Reply =
    | Refused
    | Body(whole: bool, first: nat, end: nat, size: int, pieces: seq<Bytes>, complete: bool, eofWithData: bool)

  function Flat(pieces: seq<Bytes>, n: nat): Bytes
    requires n <= |pieces|
  {
    if n == 0 then [] else Flat(pieces, n - 1) + pieces[n - 1]
  }

  function Delivered(r: Reply): Bytes
    requires r.Body?
  {
    Flat(r.pieces, |r.pieces|)
  }

  /** What the standard lets a server answer to a request for everything from byte `have` on. */
  predicate Follows(resource: Bytes, have: nat, r: Reply) {
    r.Body? ==>
      && (if r.whole then r.first == 0 && r.end == |resource| else 0 < have == r.first < r.end <= |resource|)
      && |Delivered(r)| <= r.end - r.first
      && Delivered(r) == resource[r.first..r.first + |Delivered(r)|]
      && (r.complete ==> |Delivered(r)| == r.end - r.first)
  }

  // ---- Progress ----

  /** `held` is what the buffer has at the moment of the report. */
  datatype Report = Report(received: int, total: int, held: int)

  /** The length last reported. */
  function Latest(news: seq<Report>, have: int): int {
    if news == [] then have else news[|news| - 1].received
  }

  /** Reports made while the buffer grew from `have` to `now`: they grow with it, at least a step lies between two of them
      unless the second is the last, and no full step stays unreported. */
  predicate Reports(news: seq<Report>, have: int, now: int, total: int) {
    && (forall i :: 0 <= i < |news| ==> news[i].total == total && have <= news[i].received <= now)
    && (forall i :: 0 < i < |news| ==> news[i - 1].received <= news[i].received)
    && Spaced(news, |news| - 1)
    && now - Latest(news, have) < EMIT_STEP
  }

  predicate Spaced(news: seq<Report>, n: int) {
    forall i :: 0 < i < |news| && i < n ==> news[i - 1].received + EMIT_STEP <= news[i].received
  }

  predicate Reported(news: seq<Report>, now: int) {
    news != [] && news[|news| - 1].received == now
  }

  /** A report is due after a step of 256 KiB and at the end. */
  function Next(news: seq<Report>, have: int, was: int, now: int, total: int, eof: bool): seq<Report> {
    if now - Latest(news, have) >= EMIT_STEP || eof then news + [Report(now, total, was)] else news
  }

  /** Report `j` counts exactly the first `marks[j]` pieces and is made when all but the last of them are in the buffer; only
      the report of an end that came in a read of its own finds everything there. */
  ghost predicate Counts(news: seq<Report>, marks: seq<int>, have: int, pieces: seq<Bytes>, ended: bool) {
    && |marks| == |news|
    && (forall j :: 0 <= j < |marks| ==> 0 <= marks[j] <= |pieces| && news[j].received == have + |Flat(pieces, marks[j])|)
    && (forall j :: 0 <= j < |marks| && !(ended && j == |marks| - 1) ==>
          marks[j] > 0 && news[j].held == have + |Flat(pieces, marks[j] - 1)|)
    && (forall j :: 0 < j < |marks| && !(ended && j == |marks| - 1) ==> marks[j - 1] < marks[j])
    && (ended ==> |marks| > 0 && marks[|marks| - 1] == |pieces| && news[|news| - 1].held == news[|news| - 1].received)
  }

  /** Every report is the length of the buffer with some number of pieces, each time with more of them. */
  ghost predicate Exact(news: seq<Report>, have: int, r: Reply)
    requires r.Body?
  {
    exists marks :: Counts(news, marks, have, r.pieces, EndsApart(r))
  }

  /** The end comes in a read of its own. */
  predicate EndsApart(r: Reply)
    requires r.Body?
  {
    r.complete && !(r.eofWithData && |r.pieces| > 0)
  }

  lemma ReportStep(news: seq<Report>, have: int, was: int, now: int, total: int, eof: bool)
    requires Reports(news, have, was, total) && Spaced(news, |news|) && have <= was <= now
    ensures var more := Next(news, have, was, now, total, eof);
      && Reports(more, have, now, total)
      && if eof then Reported(more, now) else Spaced(more, |more|)
  {
    if now - Latest(news, have) >= EMIT_STEP || eof {
      OneReport(news, have, was, now, total);
    }
  }

  lemma OneReport(news: seq<Report>, have: int, was: int, now: int, total: int)
    requires Reports(news, have, was, total) && Spaced(news, |news|) && have <= was <= now
    ensures var more := news + [Report(now, total, was)];
      && Reports(more, have, now, total) && Reported(more, now)
      && (now - Latest(news, have) >= EMIT_STEP ==> Spaced(more, |more|))
  {
    var more := news + [Report(now, total, was)];
    assert forall i | 0 <= i < |news| :: more[i] == news[i];
    assert more[|news|] == Report(now, total, was);
    assert Spaced(more, |more| - 1);
  }

  /** The end came with the last of the pieces read so far. */
  predicate Ended(r: Reply, i: nat)
    requires r.Body?
  {
    r.complete && r.eofWithData && 0 < i == |r.pieces|
  }

  lemma FlatNext(buf: Bytes, pieces: seq<Bytes>, i: nat)
    requires i < |pieces|
    ensures buf + Flat(pieces, i) + pieces[i] == buf + Flat(pieces, i + 1)
  {
  }

  lemma CountOne(news: seq<Report>, marks: seq<int>, have: int, pieces: seq<Bytes>, i: nat, total: int)
    requires i < |pieces| && Counts(news, marks, have, pieces, false) && AllBelow(marks, i)
    ensures Counts(news + [Report(have + |Flat(pieces, i + 1)|, total, have + |Flat(pieces, i)|)], marks + [i + 1], have, pieces, false)
  {
    hide Flat;
  }

  lemma CountEnd(news: seq<Report>, marks: seq<int>, have: int, pieces: seq<Bytes>, total: int)
    requires Counts(news, marks, have, pieces, false)
    ensures var all := have + |Flat(pieces, |pieces|)|;
            Counts(news + [Report(all, total, all)], marks + [|pieces|], have, pieces, true)
  {
    hide Flat;
  }

  /** What holds after `i` pieces. */
  ghost predicate Reading(news: seq<Report>, marks: seq<int>, have: int, r: Reply, i: nat, received: int, total: int)
    requires r.Body? && i <= |r.pieces|
  {
    && received == have + |Flat(r.pieces, i)|
    && Counts(news, marks, have, r.pieces, false) && AllBelow(marks, i)
    && Reports(news, have, received, total)
    && if Ended(r, i) then Reported(news, received) else Spaced(news, |news|)
  }

  lemma ReadingReports(news: seq<Report>, marks: seq<int>, have: int, r: Reply, i: nat, received: int, total: int, eof: bool)
    requires r.Body? && i < |r.pieces| && Reading(news, marks, have, r, i, received, total)
    requires eof == (r.complete && r.eofWithData && i == |r.pieces| - 1)
    requires received + |r.pieces[i]| - Latest(news, have) >= EMIT_STEP || eof
    ensures Reading(news + [Report(received + |r.pieces[i]|, total, received)], marks + [i + 1], have, r, i + 1,
                    received + |r.pieces[i]|, total)
  {
    hide Counts, Reports, Spaced, Reported, Ended, Flat, AllBelow;
    EndedNext(r, i);
    MarksBelow(marks, i);
    CountOne(news, marks, have, r.pieces, i, total);
    ReportStep(news, have, received, received + |r.pieces[i]|, total, eof);
    assert Next(news, have, received, received + |r.pieces[i]|, total, eof)
        == news + [Report(received + |r.pieces[i]|, total, received)];
  }

  lemma ReadingGoesOn(news: seq<Report>, marks: seq<int>, have: int, r: Reply, i: nat, received: int, total: int)
    requires r.Body? && i < |r.pieces| && Reading(news, marks, have, r, i, received, total)
    requires !(r.complete && r.eofWithData && i == |r.pieces| - 1)
    requires received + |r.pieces[i]| - Latest(news, have) < EMIT_STEP
    ensures Reading(news, marks, have, r, i + 1, received + |r.pieces[i]|, total)
  {
    hide Counts, Reports, Spaced, Reported, Ended, Flat, AllBelow;
    EndedNext(r, i);
    MarksBelow(marks, i);
    ReportStep(news, have, received, received + |r.pieces[i]|, total, false);
  }

  lemma EndedNext(r: Reply, i: nat)
    requires r.Body? && i < |r.pieces|
    ensures Ended(r, i + 1) == (r.complete && r.eofWithData && i == |r.pieces| - 1) && !Ended(r, i)
    ensures |Flat(r.pieces, i + 1)| == |Flat(r.pieces, i)| + |r.pieces[i]|
  {
  }

  predicate AllBelow(marks: seq<int>, i: int) {
    forall j :: 0 <= j < |marks| ==> marks[j] <= i
  }

  lemma MarksBelow(marks: seq<int>, i: int)
    requires AllBelow(marks, i)
    ensures AllBelow(marks, i + 1) && AllBelow(marks + [i + 1], i + 1)
  {
  }

  lemma ReadingEnds(news: seq<Report>, marks: seq<int>, have: int, r: Reply, received: int, total: int)
    requires r.Body? && Reading(news, marks, have, r, |r.pieces|, received, total)
    ensures var all := if EndsApart(r) then news + [Report(received, total, received)] else news;
      Exact(all, have, r) && Reports(all, have, received, total) && (r.complete ==> Reported(all, received))
  {
    if EndsApart(r) {
      ReportStep(news, have, received, received, total, true);
      CountEnd(news, marks, have, r.pieces, total);
      assert Counts(news + [Report(received, total, received)], marks + [|r.pieces|], have, r.pieces, EndsApart(r));
    } else {
      assert Counts(news, marks, have, r.pieces, EndsApart(r));
    }
  }

  /** io.Copy through the progress reader: each report is made before its piece reaches the buffer. */
  method CopyBody(buf: Bytes, r: Reply, total: int) returns (now: Bytes, news: seq<Report>)
    requires r.Body?
    ensures now == buf + Delivered(r)
    ensures Exact(news, |buf|, r)
    ensures Reports(news, |buf|, |now|, total)
    ensures r.complete ==> Reported(news, |now|)
  {
    now, news := buf, [];
    ghost var marks: seq<int> := [];
    hide Reading, Exact, Reports, Reported, Flat, Counts, Spaced, Ended;
    NothingRead(buf, r, total);
    for i := 0 to |r.pieces|
      invariant now == buf + Flat(r.pieces, i)
      invariant Reading(news, marks, |buf|, r, i, |now|, total)
    {
      FlatNext(buf, r.pieces, i);
      var eof := r.complete && r.eofWithData && i == |r.pieces| - 1;
      var received := |now| + |r.pieces[i]|;
      if received - Latest(news, |buf|) >= EMIT_STEP || eof {
        ReadingReports(news, marks, |buf|, r, i, |now|, total, eof);
        news := news + [Report(received, total, |now|)];
        marks := marks + [i + 1];
      } else {
        ReadingGoesOn(news, marks, |buf|, r, i, |now|, total);
      }
      now := now + r.pieces[i];
    }
    ReadingEnds(news, marks, |buf|, r, |now|, total);
    if r.complete && !(r.eofWithData && |r.pieces| > 0) {
      news := news + [Report(|now|, total, |now|)];
    }
  }

  lemma NothingRead(buf: Bytes, r: Reply, total: int)
    requires r.Body?
    ensures Flat(r.pieces, 0) == [] && Reading([], [], |buf|, r, 0, |buf|, total)
  {
  }

  // ---- Attempts ----

  /** The buffer after one attempt: a whole answer starts it over, a partial one goes on. */
  function After(buf: Bytes, r: Reply): Bytes {
    if r.Refused? then buf else (if r.whole then [] else buf) + Delivered(r)
  }

  predicate Succeeds(r: Reply) {
    r.Body? && r.complete
  }

  /** Every attempt, failed or not, leaves a prefix of the resource in the buffer; one that succeeds leaves it up to where
      the answer ended. */
  lemma AttemptKeepsPrefix(resource: Bytes, buf: Bytes, r: Reply)
    requires buf <= resource && Follows(resource, |buf|, r)
    ensures After(buf, r) <= resource
    ensures After(buf, r) == if r.Refused? then buf else resource[..r.first + |Delivered(r)|]
    ensures Succeeds(r) ==> After(buf, r) == resource[..r.end]
  {
    if r.Body? {
      assert (if r.whole then [] else buf) == resource[..r.first];
    }
  }

  /** `replies` gives the answer to an attempt that asks for what follows the first `have` bytes; `cancelled` tells whether
      the user has cancelled by the end of an attempt. */
  datatype Outcome = Outcome(ok: bool, buf: Bytes, attempts: nat, last: Reply)

  function Run(replies: (nat, nat) -> Reply, cancelled: nat -> bool, attempt: nat, buf: Bytes): Outcome
    requires 1 <= attempt <= ATTEMPTS
    decreases ATTEMPTS - attempt
  {
    var r := replies(attempt, |buf|);
    if Succeeds(r) || cancelled(attempt) || attempt == ATTEMPTS then Outcome(Succeeds(r), After(buf, r), attempt, r)
    else Run(replies, cancelled, attempt + 1, After(buf, r))
  }

  class Transfer {
    var buf: Bytes
    var total: int
    var emits: seq<Report>

    constructor (total: int)
      ensures buf == [] && this.total == total && emits == []
    {
      buf, this.total, emits := [], total, [];
    }

    /** downloadInto: one attempt. */
    method DownloadInto(r: Reply) returns (ok: bool)
      modifies this
      ensures ok == Succeeds(r) && buf == After(old(buf), r)
      ensures total == if r.Body? && r.size > 0 then r.size else old(total)
      ensures old(emits) <= emits
      ensures var news := emits[|old(emits)|..];
        if r.Refused? then news == []
        else
          && Exact(news, if r.whole then 0 else |old(buf)|, r)
          && Reports(news, if r.whole then 0 else |old(buf)|, |buf|, total)
          && (ok ==> Reported(news, |buf|))
    {
      if r.Refused? {
        return false;
      }
      if r.whole {
        buf := [];
      }
      if r.size > 0 {
        total := r.size;
      }
      var news;
      buf, news := CopyBody(buf, r, total);
      assert (emits + news)[|emits|..] == news;
      emits := emits + news;
      return r.complete;
    }

    /** download: attempts until one succeeds, the user cancels, or none is left. */
    method Download(replies: (nat, nat) -> Reply, cancelled: nat -> bool) returns (data: Option<Bytes>)
      requires buf == []
      modifies this
      ensures var o := Run(replies, cancelled, 1, []);
              buf == o.buf && data == if o.ok then Some(o.buf) else None
    {
      var attempt := 1;
      while true
        invariant 1 <= attempt <= ATTEMPTS
        invariant Run(replies, cancelled, attempt, buf) == Run(replies, cancelled, 1, [])
        decreases ATTEMPTS - attempt
      {
        var ok := DownloadInto(replies(attempt, |buf|));
        if ok {
          return Some(buf);
        }
        if cancelled(attempt) || attempt == ATTEMPTS {
          return None;
        }
        attempt := attempt + 1;
      }
    }
  }

  // ---- Main results ----

  /** Whatever fails and however often, the buffer is a prefix of the resource; a success leaves in it everything up to
      where the last answer ended, so the download is the resource if and only if that answer went to the end. */
  lemma {:induction false} RunKeepsPrefix(resource: Bytes, replies: (nat, nat) -> Reply, cancelled: nat -> bool, attempt: nat, buf: Bytes)
    requires 1 <= attempt <= ATTEMPTS && buf <= resource
    requires forall n, have :: Follows(resource, have, replies(n, have))
    ensures var o := Run(replies, cancelled, attempt, buf);
      && o.buf <= resource && attempt <= o.attempts <= ATTEMPTS
      && (o.ok ==>
            && o.last.Body? && o.last.end <= |resource| && o.buf == resource[..o.last.end]
            && (o.buf == resource <==> o.last.end == |resource|)
            && (o.last.whole ==> o.buf == resource))
    decreases ATTEMPTS - attempt
  {
    var r := replies(attempt, |buf|);
    assert Follows(resource, |buf|, r);
    AttemptKeepsPrefix(resource, buf, r);
    hide Follows, Flat;
    if !Succeeds(r) && !cancelled(attempt) && attempt < ATTEMPTS {
      RunKeepsPrefix(resource, replies, cancelled, attempt + 1, After(buf, r));
    } else if Succeeds(r) {
      EndInside(resource, |buf|, r);
    }
  }

  lemma EndInside(resource: Bytes, have: nat, r: Reply)
    requires Follows(resource, have, r) && r.Body?
    ensures r.end <= |resource| && (r.whole ==> r.end == |resource|)
  {
  }

  /** Attempts end with the first success, with a cancellation, or with the third; only a success gives data. */
  lemma {:induction false} RunStops(replies: (nat, nat) -> Reply, cancelled: nat -> bool, attempt: nat, buf: Bytes)
    requires 1 <= attempt <= ATTEMPTS
    ensures var o := Run(replies, cancelled, attempt, buf);
      && (o.ok <==> Succeeds(o.last))
      && (!o.ok ==> o.attempts == ATTEMPTS || cancelled(o.attempts))
      && forall n :: attempt <= n < o.attempts ==> !cancelled(n)
    decreases ATTEMPTS - attempt
  {
    var r := replies(attempt, |buf|);
    if !Succeeds(r) && !cancelled(attempt) && attempt < ATTEMPTS {
      RunStops(replies, cancelled, attempt + 1, After(buf, r));
    }
  }

  /** The buffers with which the attempts of a download begin, the one it ends with last. */
  predicate Attempts(replies: (nat, nat) -> Reply, cancelled: nat -> bool, bufs: seq<Bytes>) {
    && 2 <= |bufs| <= ATTEMPTS + 1 && bufs[0] == []
    && (forall n :: 1 <= n < |bufs| ==> bufs[n] == After(bufs[n - 1], replies(n, |bufs[n - 1]|)))
    && (forall n :: 1 <= n < |bufs| - 1 ==> !Succeeds(replies(n, |bufs[n - 1]|)) && !cancelled(n))
  }

  /** Each attempt asks for what the one before left to be had, and the first success ends the download with its data. */
  lemma RunAttempts(replies: (nat, nat) -> Reply, cancelled: nat -> bool)
    ensures var o := Run(replies, cancelled, 1, []);
            exists bufs :: Attempts(replies, cancelled, bufs) && |bufs| == o.attempts + 1 && o.buf == bufs[o.attempts]
              && o.last == replies(o.attempts, |bufs[o.attempts - 1]|) && (o.ok <==> o.last.Body? && o.last.complete)
  {
    var first := After([], replies(1, 0));
    var second := After(first, replies(2, |first|));
    var third := After(second, replies(3, |second|));
    var o := Run(replies, cancelled, 1, []);
    var all: seq<Bytes> := [[], first, second, third];
    hide After;
    assert Attempts(replies, cancelled, all[..o.attempts + 1]);
  }

  /** A transfer that breaks after the last byte cannot be completed by a range: no range is left to ask for, so unless the
      server starts over with the whole resource, the download fails with all of it in the buffer. */
  lemma BrokenAfterLastByte(resource: Bytes, replies: (nat, nat) -> Reply, cancelled: nat -> bool)
    requires forall n, have :: Follows(resource, have, replies(n, have))
    requires replies(1, 0).Body? && !replies(1, 0).complete && Delivered(replies(1, 0)) == resource
    requires forall n | n > 1 :: replies(n, |resource|).Body? ==> !replies(n, |resource|).whole
    requires forall n :: !cancelled(n)
    ensures var o := Run(replies, cancelled, 1, []);
            !o.ok && o.buf == resource && o.attempts == ATTEMPTS
  {
    assert Follows(resource, 0, replies(1, 0));
    assert Follows(resource, |resource|, replies(2, |resource|)) && Follows(resource, |resource|, replies(3, |resource|));
    hide Flat;
    assert After([], replies(1, 0)) == resource;
    assert replies(2, |resource|).Refused? && replies(3, |resource|).Refused?;
  }
}
