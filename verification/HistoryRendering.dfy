/** Rendering a transcript, whole or page by page: lookups are taken from the whole transcript, so a page shows what the
    whole view shows, except for planner turns, which every page hands out from the beginning. */
module HistoryRendering {
  import opened Options
  import opened HistoryPages

  datatype Role = User | Assistant | Tool | System

  datatype Call = Call(id: string, name: string, arguments: string, diff: string, added: int, removed: int)

  datatype Message = Message(
    role: Role,
    index: int,
    hidden: bool,
    steer: string,
    content: string,
    replay: string,
    reasoning: string,
    citations: seq<string>,
    calls: seq<Call>,
    callId: string,
    toolName: string,
    interrupted: bool,
    displayKey: string)

  datatype CallShown = CallShown(call: Call, subject: string, summary: string, arguments: string, archived: bool)

  datatype ResultShown = ResultShown(content: string, archived: bool, error: string)

  datatype Shown =
    | Notice(text: string)
    | Bubble(role: Role, content: string, submit: string, checkpoint: Option<int>, reasoning: string,
             citations: seq<string>, calls: seq<CallShown>, callId: string, toolName: string, archived: bool, error: string)

  datatype PlannerTurn = PlannerTurn(userHash: string, messages: seq<Shown>)

  /** What rendering looks up: the user's display text, checkpoint turns, the whole transcript's todo arguments and tool
      results, how a call is summed up, which results failed and how those are cut, and the text of an interruption. */
  datatype Lookups = Lookups(
    resolve: Message -> string,
    checkpoints: map<int, int>,
    todoArguments: map<string, string>,
    results: map<string, string>,
    subject: (string, string) -> string,
    summary: (string, string, string) -> string,
    failed: string -> bool,
    preview: string -> string,
    interruption: string)

  predicate Blank(s: string) {
    forall c <- s :: c in {' ', '\t', '\r', '\n'}
  }

  predicate VisibleUser(m: Message) {
    m.role == User && !m.hidden && m.steer == ""
  }

  /** historyToolCall: arguments are left to a later load, except those of todo lists and of calls without an id. */
  function View(look: Lookups, c: Call): CallShown {
    var todo := c.name == "todo_write";
    var arguments := if todo && c.id in look.todoArguments then look.todoArguments[c.id] else c.arguments;
    var result := if c.id in look.results then look.results[c.id] else "";
    CallShown(c, look.subject(c.name, arguments), look.summary(c.name, arguments, result),
              if todo || c.id == "" then arguments else "", !todo && c.id != "" && arguments != "")
  }

  function Views(look: Lookups, calls: seq<Call>): seq<CallShown> {
    if calls == [] then [] else Views(look, calls[..|calls| - 1]) + [View(look, calls[|calls| - 1])]
  }

  /** historyToolResultContent: results that can be loaded later show only when they failed, and then a preview. */
  function Result(look: Lookups, content: string, canArchive: bool): ResultShown {
    if content == "" then ResultShown("", false, "")
    else if !canArchive then ResultShown(content, false, if look.failed(content) then content else "")
    else if look.failed(content) then
      var display := look.preview(content);
      ResultShown(display, display != content, display)
    else ResultShown("", true, "")
  }

  function BubbleOf(look: Lookups, m: Message): Shown {
    var content := if m.role == User then look.resolve(m) else m.content;
    var result := if m.role == Tool then Result(look, m.content, m.callId != "") else ResultShown(content, false, "");
    Bubble(
      m.role,
      result.content,
      if m.role == User && m.replay != "" && content != m.replay then m.replay else "",
      if m.role == User && m.index in look.checkpoints then Some(look.checkpoints[m.index]) else None,
      m.reasoning,
      if m.role == Assistant then m.citations else [],
      if m.role == Assistant then Views(look, m.calls) else [],
      if m.role == Tool then m.callId else "",
      if m.role == Tool then m.toolName else "",
      result.archived,
      result.error)
  }

  /** What one message shows on its own, planner turns aside. */
  function Body(look: Lookups, m: Message): seq<Shown> {
    if m.role == User && m.steer != "" then [Notice("↪ " + m.steer)]
    else if m.hidden && m.role != System then []
    else
      var b := BubbleOf(look, m);
      (if !m.interrupted || !Blank(b.content) || !Blank(b.reasoning) || b.calls != [] then [b] else [])
      + (if m.interrupted then [Notice(look.interruption)] else [])
  }

  // ---- Planner turns ----

  /** The planner turns of a key, in order; those without a key or without messages are left out. */
  function TurnsFor(turns: seq<PlannerTurn>, key: string): seq<PlannerTurn> {
    if turns == [] then []
    else
      var front, last := turns[..|turns| - 1], turns[|turns| - 1];
      TurnsFor(front, key) + if last.userHash == key && !Blank(last.userHash) && last.messages != [] then [last] else []
  }

  /** A visible user message that may own planner turns. */
  predicate Keyed(m: Message, key: string) {
    VisibleUser(m) && m.displayKey == key && key != ""
  }

  /** Messages with the key from `from` up to but not including `to`. */
  function Uses(msgs: seq<Message>, key: string, from: nat, to: nat): nat
    requires from <= to <= |msgs|
  {
    if from == to then 0 else Uses(msgs, key, from, to - 1) + if Keyed(msgs[to - 1], key) then 1 else 0
  }

  /** The planner messages shown at `i` when rendering begins at `from`. */
  function PlannerAt(turns: seq<PlannerTurn>, msgs: seq<Message>, from: nat, i: nat): seq<Shown>
    requires from <= i < |msgs|
  {
    var key := msgs[i].displayKey;
    var mine, used := TurnsFor(turns, key), Uses(msgs, key, from, i);
    if Keyed(msgs[i], key) && used < |mine| then mine[used].messages else []
  }

  function Segment(look: Lookups, turns: seq<PlannerTurn>, msgs: seq<Message>, from: nat, i: nat): seq<Shown>
    requires from <= i < |msgs|
  {
    Body(look, msgs[i]) + PlannerAt(turns, msgs, from, i)
  }

  /** The rendering of the messages `from` up to `to`, begun at `from`. */
  function Rendered(look: Lookups, turns: seq<PlannerTurn>, msgs: seq<Message>, from: nat, to: nat): seq<Shown>
    requires from <= to <= |msgs|
  {
    if from == to then []
    else Rendered(look, turns, msgs, from, to - 1) + Segment(look, turns, msgs, from, to - 1)
  }

  function Queue(queues: map<string, seq<PlannerTurn>>, key: string): seq<PlannerTurn> {
    if key in queues then queues[key] else []
  }

  /** plannerTurnsByUserHash. */
  method PlannerQueues(turns: seq<PlannerTurn>) returns (queues: map<string, seq<PlannerTurn>>)
    ensures forall key :: Queue(queues, key) == TurnsFor(turns, key)
  {
    queues := map[];
    for i := 0 to |turns|
      invariant forall key :: Queue(queues, key) == TurnsFor(turns[..i], key)
    {
      var turn := turns[i];
      assert turns[..i + 1][..i] == turns[..i];
      if !Blank(turn.userHash) && turn.messages != [] {
        queues := queues[turn.userHash := Queue(queues, turn.userHash) + [turn]];
      }
    }
    assert turns[..|turns|] == turns;
  }

  /** Every queue holds what its key still owns before message `i`. */
  ghost predicate QueuesHold(queues: map<string, seq<PlannerTurn>>, turns: seq<PlannerTurn>, msgs: seq<Message>, i: nat)
    requires i <= |msgs|
  {
    forall key | key != "" ::
      var mine, used := TurnsFor(turns, key), Uses(msgs, key, 0, i);
      Queue(queues, key) == mine[if used < |mine| then used else |mine|..]
  }

  function Popped(queues: map<string, seq<PlannerTurn>>, m: Message): map<string, seq<PlannerTurn>> {
    var queue := Queue(queues, m.displayKey);
    if VisibleUser(m) && m.displayKey != "" && |queue| > 0 then queues[m.displayKey := queue[1..]] else queues
  }

  lemma PopStep(queues: map<string, seq<PlannerTurn>>, turns: seq<PlannerTurn>, msgs: seq<Message>, i: nat)
    requires i < |msgs| && QueuesHold(queues, turns, msgs, i)
    ensures QueuesHold(Popped(queues, msgs[i]), turns, msgs, i + 1)
    ensures PlannerAt(turns, msgs, 0, i)
         == if VisibleUser(msgs[i]) && msgs[i].displayKey != "" && |Queue(queues, msgs[i].displayKey)| > 0
            then Queue(queues, msgs[i].displayKey)[0].messages else []
  {
    hide TurnsFor, VisibleUser;
    var m := msgs[i];
    forall key | key != "" ensures
      var mine, used := TurnsFor(turns, key), Uses(msgs, key, 0, i + 1);
      Queue(Popped(queues, m), key) == mine[if used < |mine| then used else |mine|..] {
      var mine, used := TurnsFor(turns, key), Uses(msgs, key, 0, i);
      assert Queue(queues, key) == mine[if used < |mine| then used else |mine|..];
    }
  }

  // ---- What a message shows ----

  /** A call is shown with its own arguments if it is a todo list, whose arguments are the replayed ones, or has no id. */
  predicate ShowsCall(look: Lookups, c: Call, s: CallShown) {
    var loadable := c.name != "todo_write" && c.id != "";
    var arguments := if c.name == "todo_write" && c.id in look.todoArguments then look.todoArguments[c.id] else c.arguments;
    && s.call == c && s.subject == look.subject(c.name, arguments)
    && s.summary == look.summary(c.name, arguments, if c.id in look.results then look.results[c.id] else "")
    && (loadable ==> s.arguments == "" && (s.archived <==> c.arguments != ""))
    && (!loadable ==> s.arguments == arguments && !s.archived)
  }

  /** A result that can be loaded later shows nothing unless it failed; what a failed one shows is its error as well. */
  predicate ShowsResult(look: Lookups, m: Message, b: Shown)
    requires b.Bubble?
  {
    var failed := m.content != "" && look.failed(m.content);
    && b.callId == m.callId && b.toolName == m.toolName
    && b.error == (if failed then b.content else "")
    && (m.callId == "" ==> b.content == m.content && !b.archived)
    && (m.callId != "" && !failed ==> b.content == "" && (b.archived <==> m.content != ""))
    && (m.callId != "" && failed ==> b.content == look.preview(m.content) && (b.archived <==> b.content != m.content))
  }

  predicate ShowsMessage(look: Lookups, m: Message, b: Shown) {
    && b.Bubble? && b.role == m.role && b.reasoning == m.reasoning
    && (m.role == User ==> b.content == look.resolve(m))
    && (m.role == Assistant || m.role == System ==> b.content == m.content)
    && (if m.role == Tool then ShowsResult(look, m, b) else b.callId == "" && b.toolName == "" && !b.archived && b.error == "")
    && b.citations == (if m.role == Assistant then m.citations else [])
    && |b.calls| == (if m.role == Assistant then |m.calls| else 0)
    && (forall k :: 0 <= k < |b.calls| ==> ShowsCall(look, m.calls[k], b.calls[k]))
    && b.submit == (if m.role == User && b.content != m.replay then m.replay else "")
    && (b.checkpoint.Some? <==> m.role == User && m.index in look.checkpoints)
    && (b.checkpoint.Some? ==> b.checkpoint.value == look.checkpoints[m.index])
  }

  /** What belongs to one message on its own: a steered one leaves its notice, a hidden one nothing unless it is the
      system's, and an interrupted one ends in the notice that says so, after its bubble if there is anything in that. */
  ghost predicate OwnPart(look: Lookups, m: Message, part: seq<Shown>) {
    if m.role == User && m.steer != "" then part == [Notice("↪ " + m.steer)]
    else if m.hidden && m.role != System then part == []
    else if !m.interrupted then |part| == 1 && ShowsMessage(look, m, part[0])
    else
      && 1 <= |part| <= 2 && part[|part| - 1] == Notice(look.interruption)
      && (|part| == 2 ==> ShowsMessage(look, m, part[0]) && !Empty(part[0]))
      && (|part| == 1 ==> exists b :: ShowsMessage(look, m, b) && Empty(b))
  }

  predicate Empty(b: Shown)
    requires b.Bubble?
  {
    Blank(b.content) && Blank(b.reasoning) && b.calls == []
  }

  lemma {:induction false} ViewsShow(look: Lookups, calls: seq<Call>)
    ensures |Views(look, calls)| == |calls|
    ensures forall k :: 0 <= k < |calls| ==> ShowsCall(look, calls[k], Views(look, calls)[k])
  {
    if calls != [] {
      ViewsShow(look, calls[..|calls| - 1]);
    }
  }

  lemma BodyShows(look: Lookups, m: Message)
    ensures OwnPart(look, m, Body(look, m))
  {
    ViewsShow(look, m.calls);
    hide Views, ShowsCall;
    assert ShowsMessage(look, m, BubbleOf(look, m));
    hide ShowsMessage, BubbleOf, Blank;
  }

  /** Parts put one after the other, each followed by its planner turn. */
  function Joined(turns: seq<PlannerTurn>, msgs: seq<Message>, parts: seq<seq<Shown>>, n: nat): seq<Shown>
    requires n <= |parts| == |msgs|
  {
    if n == 0 then [] else Joined(turns, msgs, parts, n - 1) + (parts[n - 1] + PlannerAt(turns, msgs, 0, n - 1))
  }

  /** The messages' own parts in order, planner turns in between. */
  ghost predicate ShowsAll(look: Lookups, turns: seq<PlannerTurn>, msgs: seq<Message>, out: seq<Shown>) {
    exists parts: seq<seq<Shown>> ::
      |parts| == |msgs| && (forall i :: 0 <= i < |msgs| ==> OwnPart(look, msgs[i], parts[i]))
      && out == Joined(turns, msgs, parts, |msgs|)
  }

  lemma {:induction false} JoinedBodies(look: Lookups, turns: seq<PlannerTurn>, msgs: seq<Message>, parts: seq<seq<Shown>>, n: nat)
    requires n <= |parts| == |msgs| && forall i :: 0 <= i < |msgs| ==> parts[i] == Body(look, msgs[i])
    ensures Joined(turns, msgs, parts, n) == Rendered(look, turns, msgs, 0, n)
  {
    hide Body, PlannerAt;
    if n > 0 {
      JoinedBodies(look, turns, msgs, parts, n - 1);
    }
  }

  lemma RenderedShowsAll(look: Lookups, turns: seq<PlannerTurn>, msgs: seq<Message>)
    ensures ShowsAll(look, turns, msgs, Rendered(look, turns, msgs, 0, |msgs|))
  {
    var parts := seq(|msgs|, i requires 0 <= i < |msgs| => Body(look, msgs[i]));
    forall i | 0 <= i < |msgs| ensures OwnPart(look, msgs[i], parts[i]) {
      BodyShows(look, msgs[i]);
    }
    hide Body, OwnPart;
    JoinedBodies(look, turns, msgs, parts, |msgs|);
  }

  // ---- Which planner turn a message shows ----

  predicate Eligible(turn: PlannerTurn, key: string) {
    turn.userHash == key && !Blank(key) && turn.messages != []
  }

  function CountFor(turns: seq<PlannerTurn>, key: string, n: nat): nat
    requires n <= |turns|
  {
    if n == 0 then 0 else CountFor(turns, key, n - 1) + if Eligible(turns[n - 1], key) then 1 else 0
  }

  /** The queue of a key holds its turns at the places they are counted to. */
  lemma {:induction false} TurnAt(turns: seq<PlannerTurn>, key: string, n: nat)
    requires n <= |turns|
    ensures |TurnsFor(turns[..n], key)| == CountFor(turns, key, n)
    ensures forall j :: 0 <= j < n && Eligible(turns[j], key) ==>
              && CountFor(turns, key, j) < CountFor(turns, key, n)
              && TurnsFor(turns[..n], key)[CountFor(turns, key, j)] == turns[j]
  {
    if n > 0 {
      TurnAt(turns, key, n - 1);
      assert turns[..n][..n - 1] == turns[..n - 1];
      hide Blank;
      assert Eligible(turns[n - 1], key) ==> CountFor(turns, key, n - 1) == CountFor(turns, key, n) - 1;
    }
  }

  lemma {:induction false} TurnCounted(turns: seq<PlannerTurn>, key: string, n: nat, k: nat) returns (j: nat)
    requires n <= |turns| && k < CountFor(turns, key, n)
    ensures j < n && Eligible(turns[j], key) && CountFor(turns, key, j) == k
  {
    if k < CountFor(turns, key, n - 1) {
      j := TurnCounted(turns, key, n - 1, k);
    } else {
      j := n - 1;
    }
  }

  /** As many turns of the message's key come before turn `j` as messages with the key before the message. */
  predicate IsTurnOf(turns: seq<PlannerTurn>, msgs: seq<Message>, from: nat, i: nat, j: nat)
    requires from <= i < |msgs| && j < |turns|
  {
    var m, key := msgs[i], msgs[i].displayKey;
    && m.role == User && !m.hidden && m.steer == "" && key != "" && Eligible(turns[j], key)
    && CountFor(turns, key, j) == Uses(msgs, key, from, i)
  }

  /** The n-th message with a key shows the n-th planner turn of that key, and nothing when there are not as many; any
      other message shows none. */
  lemma PlannerIsNth(turns: seq<PlannerTurn>, msgs: seq<Message>, from: nat, i: nat)
    requires from <= i < |msgs|
    ensures forall j | 0 <= j < |turns| && IsTurnOf(turns, msgs, from, i, j) ::
              PlannerAt(turns, msgs, from, i) == turns[j].messages
    ensures PlannerAt(turns, msgs, from, i) != [] ==>
              exists j :: 0 <= j < |turns| && IsTurnOf(turns, msgs, from, i, j)
  {
    var key := msgs[i].displayKey;
    TurnAt(turns, key, |turns|);
    assert turns[..|turns|] == turns;
    if PlannerAt(turns, msgs, from, i) != [] {
      var j := TurnCounted(turns, key, |turns|, Uses(msgs, key, from, i));
      assert IsTurnOf(turns, msgs, from, i, j);
    }
    hide Eligible, TurnsFor;
  }

  /** historyMessagesWithPlannerDisplaysAndLookups: one pass, taking planner turns off the front of their queues. */
  method Render(look: Lookups, turns: seq<PlannerTurn>, msgs: seq<Message>) returns (out: seq<Shown>)
    ensures out == Rendered(look, turns, msgs, 0, |msgs|)
    ensures ShowsAll(look, turns, msgs, out)
  {
    RenderedShowsAll(look, turns, msgs);
    hide ShowsAll, Body, TurnsFor, PlannerAt, QueuesHold, VisibleUser, Keyed;
    out := [];
    var queues := PlannerQueues(turns);
    NothingUsed(queues, turns, msgs);
    for i := 0 to |msgs|
      invariant out == Rendered(look, turns, msgs, 0, i)
      invariant QueuesHold(queues, turns, msgs, i)
    {
      var m := msgs[i];
      PopStep(queues, turns, msgs, i);
      out := out + Body(look, m);
      if VisibleUser(m) && m.displayKey != "" {
        var queue := Queue(queues, m.displayKey);
        if |queue| > 0 {
          out := out + queue[0].messages;
          queues := queues[m.displayKey := queue[1..]];
        }
      }
    }
  }

  lemma NothingUsed(queues: map<string, seq<PlannerTurn>>, turns: seq<PlannerTurn>, msgs: seq<Message>)
    requires forall key :: Queue(queues, key) == TurnsFor(turns, key)
    ensures QueuesHold(queues, turns, msgs, 0)
  {
  }

  // ---- A page against the whole ----

  lemma {:induction false} SliceUses(msgs: seq<Message>, key: string, a: nat, b: nat, n: nat)
    requires a <= n <= b <= |msgs|
    ensures Uses(msgs[a..b], key, 0, n - a) == Uses(msgs, key, a, n)
  {
    if a < n {
      SliceUses(msgs, key, a, b, n - 1);
    }
  }

  /** A page is rendered on its own slice of the transcript; that is the same as beginning at its first message. */
  lemma {:induction false} SliceRenders(look: Lookups, turns: seq<PlannerTurn>, msgs: seq<Message>, a: nat, b: nat, n: nat)
    requires a <= n <= b <= |msgs|
    ensures Rendered(look, turns, msgs[a..b], 0, n - a) == Rendered(look, turns, msgs, a, n)
  {
    hide Body, TurnsFor, Keyed;
    if a < n {
      SliceRenders(look, turns, msgs, a, b, n - 1);
      assert msgs[a..b][n - 1 - a] == msgs[n - 1];
      SliceUses(msgs, msgs[n - 1].displayKey, a, b, n - 1);
      assert Segment(look, turns, msgs[a..b], 0, n - 1 - a) == Segment(look, turns, msgs, a, n - 1);
      hide Segment;
    }
  }

  /** Rendering is a homomorphism once the planner turns used so far are accounted for. */
  lemma {:induction false} UsesSplit(msgs: seq<Message>, key: string, from: nat, mid: nat, to: nat)
    requires from <= mid <= to <= |msgs|
    ensures Uses(msgs, key, from, to) == Uses(msgs, key, from, mid) + Uses(msgs, key, mid, to)
  {
    if mid < to {
      UsesSplit(msgs, key, from, mid, to - 1);
    }
  }

  /** No key that owns planner turns is used both before `a` and from `a` up to `b`. */
  ghost predicate KeysApart(turns: seq<PlannerTurn>, msgs: seq<Message>, from: nat, a: nat, b: nat)
    requires from <= a <= b <= |msgs|
  {
    forall key | TurnsFor(turns, key) != [] && Uses(msgs, key, a, b) > 0 :: Uses(msgs, key, from, a) == 0
  }

  lemma {:induction false} UsedLater(msgs: seq<Message>, key: string, a: nat, i: nat, b: nat)
    requires a <= i < b <= |msgs| && Keyed(msgs[i], key)
    ensures Uses(msgs, key, a, b) > 0
  {
    if i < b - 1 {
      UsedLater(msgs, key, a, i, b - 1);
    }
  }

  /** The same message shows the same wherever rendering began, unless its key was used in between. */
  lemma SegmentAgrees(look: Lookups, turns: seq<PlannerTurn>, msgs: seq<Message>, from: nat, a: nat, b: nat, i: nat)
    requires from <= a <= i < b <= |msgs| && KeysApart(turns, msgs, from, a, b)
    ensures Segment(look, turns, msgs, from, i) == Segment(look, turns, msgs, a, i)
  {
    hide TurnsFor;
    var key := msgs[i].displayKey;
    if Keyed(msgs[i], key) {
      UsedLater(msgs, key, a, i, b);
      UsesSplit(msgs, key, from, a, i);
    }
  }

  lemma {:induction false} RenderedSplits(look: Lookups, turns: seq<PlannerTurn>, msgs: seq<Message>, from: nat, a: nat, b: nat, n: nat)
    requires from <= a <= n <= b <= |msgs| && KeysApart(turns, msgs, from, a, b)
    ensures Rendered(look, turns, msgs, from, n) == Rendered(look, turns, msgs, from, a) + Rendered(look, turns, msgs, a, n)
  {
    hide Segment, KeysApart;
    if a < n {
      var whole, page := Rendered(look, turns, msgs, from, n - 1), Rendered(look, turns, msgs, a, n - 1);
      var before, last := Rendered(look, turns, msgs, from, a), Segment(look, turns, msgs, a, n - 1);
      RenderedSplits(look, turns, msgs, from, a, b, n - 1);
      SegmentAgrees(look, turns, msgs, from, a, b, n - 1);
      assert Rendered(look, turns, msgs, from, n) == whole + last;
      assert Rendered(look, turns, msgs, a, n) == page + last;
      hide Rendered;
      assert (before + page) + last == before + (page + last);
    } else {
      assert Rendered(look, turns, msgs, a, a) == [];
    }
  }

  // ---- The whole walk ----

  function ShownPage(look: Lookups, turns: seq<PlannerTurn>, msgs: seq<Message>, beforeTurn: int, limit: int): seq<Shown> {
    var page := PageOf(VisibleUser, msgs, beforeTurn, limit);
    Rendered(look, turns, page.messages, 0, |page.messages|)
  }

  /** What a reader sees who pages back from a turn until there is nothing older, oldest page first. */
  function ShownWalk(look: Lookups, turns: seq<PlannerTurn>, msgs: seq<Message>, beforeTurn: int, limit: int): seq<Shown>
    decreases EndTurn(Total(VisibleUser, msgs), beforeTurn)
  {
    var page := PageOf(VisibleUser, msgs, beforeTurn, limit);
    (if page.hasOlder then ShownWalk(look, turns, msgs, page.startTurn, limit) else [])
    + ShownPage(look, turns, msgs, beforeTurn, limit)
  }

  /** No key that owns planner turns is used on two of the pages. */
  ghost predicate PagesApart(turns: seq<PlannerTurn>, msgs: seq<Message>, beforeTurn: int, limit: int)
    requires Total(VisibleUser, msgs) > 0
    decreases EndTurn(Total(VisibleUser, msgs), beforeTurn)
  {
    var page := PageOf(VisibleUser, msgs, beforeTurn, limit);
    PageSlice(VisibleUser, msgs, beforeTurn, limit);
    && (page.hasOlder ==> PagesApart(turns, msgs, page.startTurn, limit))
    && KeysApart(turns, msgs, 0, CutAt(VisibleUser, msgs, page.startTurn), CutAt(VisibleUser, msgs, page.endTurn))
  }

  lemma PageShows(look: Lookups, turns: seq<PlannerTurn>, msgs: seq<Message>, beforeTurn: int, limit: int)
    requires Total(VisibleUser, msgs) > 0
    ensures var page := PageOf(VisibleUser, msgs, beforeTurn, limit);
            var a, b := CutAt(VisibleUser, msgs, page.startTurn), CutAt(VisibleUser, msgs, page.endTurn);
            a <= b && ShownPage(look, turns, msgs, beforeTurn, limit) == Rendered(look, turns, msgs, a, b)
  {
    hide Rendered, CutAt;
    PageSlice(VisibleUser, msgs, beforeTurn, limit);
    var page := PageOf(VisibleUser, msgs, beforeTurn, limit);
    hide PageOf;
    SliceRenders(look, turns, msgs, CutAt(VisibleUser, msgs, page.startTurn), CutAt(VisibleUser, msgs, page.endTurn),
                 CutAt(VisibleUser, msgs, page.endTurn));
  }

  /** The pages read together are the whole view. */
  lemma {:induction false} WalkShowsWhole(look: Lookups, turns: seq<PlannerTurn>, msgs: seq<Message>, beforeTurn: int, limit: int)
    requires Total(VisibleUser, msgs) > 0 && PagesApart(turns, msgs, beforeTurn, limit)
    ensures var end := EndTurn(Total(VisibleUser, msgs), beforeTurn);
      ShownWalk(look, turns, msgs, beforeTurn, limit) == Rendered(look, turns, msgs, 0, CutAt(VisibleUser, msgs, end))
    decreases EndTurn(Total(VisibleUser, msgs), beforeTurn)
  {
    var page := PageOf(VisibleUser, msgs, beforeTurn, limit);
    PageShows(look, turns, msgs, beforeTurn, limit);
    CutEnds(VisibleUser, msgs);
    var a, b := CutAt(VisibleUser, msgs, page.startTurn), CutAt(VisibleUser, msgs, page.endTurn);
    hide KeysApart, Rendered, ShownPage, Range, CutAt;
    RenderedSplits(look, turns, msgs, 0, a, b, b);
    if page.hasOlder {
      WalkShowsWhole(look, turns, msgs, page.startTurn, limit);
    } else {
      NothingRendered(look, turns, msgs);
    }
  }

  lemma NothingRendered(look: Lookups, turns: seq<PlannerTurn>, msgs: seq<Message>)
    ensures Rendered(look, turns, msgs, 0, 0) == []
  {
  }

  /** Paging back from the latest turn shows the whole view. */
  lemma LatestWalkShowsWhole(look: Lookups, turns: seq<PlannerTurn>, msgs: seq<Message>, limit: int)
    requires Total(VisibleUser, msgs) > 0 && PagesApart(turns, msgs, 0, limit)
    ensures ShownWalk(look, turns, msgs, 0, limit) == Rendered(look, turns, msgs, 0, |msgs|)
  {
    WalkShowsWhole(look, turns, msgs, 0, limit);
    CutEnds(VisibleUser, msgs);
  }

  // ---- The condition is exact ----

  /** The planner turns of one key say different things. */
  ghost predicate DistinctTurns(turns: seq<PlannerTurn>) {
    forall key, i, j | 0 <= i < j < |TurnsFor(turns, key)| ::
      TurnsFor(turns, key)[i].messages != TurnsFor(turns, key)[j].messages
  }

  lemma {:induction false} TurnsSaySomething(turns: seq<PlannerTurn>, key: string)
    ensures forall turn <- TurnsFor(turns, key) :: turn.messages != [] && key != ""
  {
    if turns != [] {
      TurnsSaySomething(turns[..|turns| - 1], key);
    }
  }

  lemma {:induction false} FirstUse(msgs: seq<Message>, key: string, a: nat, b: nat) returns (i: nat)
    requires a <= b <= |msgs| && Uses(msgs, key, a, b) > 0
    ensures a <= i < b && Keyed(msgs[i], key) && Uses(msgs, key, a, i) == 0
  {
    if Uses(msgs, key, a, b - 1) > 0 {
      i := FirstUse(msgs, key, a, b - 1);
    } else {
      i := b - 1;
    }
  }

  /** Message by message, a page shows what the whole view shows if and only if no key that owns planner turns was used
      before the page and is used on it. */
  lemma SegmentsAgreeIff(look: Lookups, turns: seq<PlannerTurn>, msgs: seq<Message>, a: nat, b: nat)
    requires a <= b <= |msgs| && DistinctTurns(turns)
    ensures (forall i | a <= i < b :: Segment(look, turns, msgs, 0, i) == Segment(look, turns, msgs, a, i))
       <==> KeysApart(turns, msgs, 0, a, b)
  {
    if KeysApart(turns, msgs, 0, a, b) {
      forall i | a <= i < b ensures Segment(look, turns, msgs, 0, i) == Segment(look, turns, msgs, a, i) {
        SegmentAgrees(look, turns, msgs, 0, a, b, i);
      }
    } else {
      var key :| TurnsFor(turns, key) != [] && Uses(msgs, key, a, b) > 0 && Uses(msgs, key, 0, a) > 0;
      var i := FirstUse(msgs, key, a, b);
      TurnsSaySomething(turns, key);
      UsesSplit(msgs, key, 0, a, i);
      var mine, used := TurnsFor(turns, key), Uses(msgs, key, 0, i);
      assert PlannerAt(turns, msgs, a, i) == mine[0].messages;
      assert used < |mine| ==> mine[0].messages != mine[used].messages;
      assert PlannerAt(turns, msgs, 0, i) != PlannerAt(turns, msgs, a, i);
      var body := Body(look, msgs[i]);
      assert Segment(look, turns, msgs, 0, i)[|body|..] == PlannerAt(turns, msgs, 0, i);
      assert Segment(look, turns, msgs, a, i)[|body|..] == PlannerAt(turns, msgs, a, i);
    }
  }
}
