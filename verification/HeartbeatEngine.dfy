/** Running heartbeat tasks: one run, its pending topic, and the merge of run results into the task list. */
module HeartbeatEngine {
  import opened Options

  type Topic = string           // empty when there is none

  type Made = t: Topic | t != "" witness "topic"

  datatype Task = Task(
    id: string,
    title: string,
    prompt: string,
    interval: string,
    enabled: bool,
    scope: string,
    workspaceRoot: string,
    approvalMode: string,
    renew: bool,                // a new conversation for each run
    topic: Topic,
    lastRunAt: int,             // Unix milliseconds, 0 when unset
    createdAt: int)

  datatype Pending = Pending(topic: Made, submitted: bool)

  /** What the rest of the application answers while one attempt runs. */
  datatype World = World(
    create: Option<Made>,       // the topic CreateTopic would make, if it succeeds
    opens: set<Topic>,          // topics whose tab can be opened
    ready: set<Topic>,          // topics whose controller is there in time
    busy: set<Topic>,           // topics with a running turn or a pending prompt
    accepts: set<Topic>,        // topics to which a prompt can be submitted
    now: int)                   // Unix milliseconds

  /** What one call did: the task it returns, the pending entry it leaves, the topics it created and submitted to, and the
      tab it set the approval mode of. */
  datatype Effect = Effect(task: Task, pending: Option<Pending>, made: seq<Topic>, sent: seq<Topic>, switched: Option<Switch>)

  datatype Switch = Switch(topic: Topic, mode: string)

  /** executeTask resolves its topic, opens it, and submits unless the controller is missing or busy. */
  function Submit(t: Task, topic: Made, pending: Option<Pending>, made: seq<Topic>, w: World): Effect {
    var stamped := t.(lastRunAt := w.now);
    if topic !in w.opens then Effect(stamped, pending, made, [], None)
    else if topic !in w.ready || topic in w.busy then Effect(t, pending, made, [], None)
    else
      var mode := Mode(t.approvalMode);
      if topic !in w.accepts then Effect(t.(approvalMode := mode), pending, made, [], Some(Switch(topic, mode)))
      else
        var ran := stamped.(approvalMode := mode, createdAt := if t.createdAt == 0 then w.now else t.createdAt);
        Effect(ran, if t.renew then Some(Pending(topic, true)) else pending, made, [topic], Some(Switch(topic, mode)))
  }

  /** Unknown approval modes fall back to running without prompts. */
  function Mode(mode: string): string {
    if mode in {"ask", "auto", "yolo"} then mode else "yolo"
  }

  /** An attempt that finds no submitted topic of this task in the way. */
  function RunOnce(t: Task, pending: Option<Pending>, w: World): Effect {
    var topic := if t.renew then (if pending.Some? then pending.value.topic else "") else t.topic;
    if topic != "" then Submit(t, topic, pending, [], w)
    else if w.create.None? then Effect(t.(lastRunAt := w.now), pending, [], [], None)
    else
      var made := w.create.value;
      Submit(t.(topic := made), made, if t.renew then Some(Pending(made, false)) else pending, [made], w)
  }

  /** The topic has been opened, its controller is there and it is doing nothing. */
  predicate SeenIdle(topic: Topic, w: World) {
    topic in w.opens && topic in w.ready && topic !in w.busy
  }

  /** A whole call: a submitted topic has to be seen idle before the run starts over with a fresh one. */
  function Run(t: Task, pending: Option<Pending>, first: World, again: World): Effect {
    if !t.renew || pending.None? || !pending.value.submitted then RunOnce(t, pending, first)
    else if pending.value.topic !in first.opens then Effect(t.(lastRunAt := first.now), pending, [], [], None)
    else if !SeenIdle(pending.value.topic, first) then Effect(t, pending, [], [], None)
    else RunOnce(t, None, again)
  }

  /** What a run does, whatever it is answered.  A submitted topic is in the way until it is seen idle. */
  predicate Outcome(t: Task, pending: Option<Pending>, first: World, again: World, e: Effect) {
    if t.renew && pending.Some? && pending.value.submitted then
      var topic := pending.value.topic;
      if SeenIdle(topic, first) then Attempted(t, None, again, e)
      else
        && e.made == [] && e.sent == [] && e.switched == None && e.pending == pending
        && e.task == t.(lastRunAt := if topic in first.opens then t.lastRunAt else first.now)
    else
      Attempted(t, pending, first, e)
  }

  /** The run is for the conversation at hand, or else for one it makes.  The prompt goes there if and only if it opens,
      its controller is there and idle, and it takes the prompt.  Only a run that got as far as that controller and was
      turned away leaves the last run's time as it was, for the next tick to try again.  Only the tab of an idle
      conversation has its approval mode set, and to the task's own. */
  predicate Attempted(t: Task, pending: Option<Pending>, w: World, e: Effect) {
    var held := if !t.renew then t.topic else if pending.Some? then pending.value.topic else "";
    var topic := if held != "" then held else if w.create.Some? then w.create.value else "";
    var goes := topic != "" && SeenIdle(topic, w) && topic in w.accepts;
    && e.made == (if held == "" && topic != "" then [topic] else [])
    && e.sent == (if goes then [topic] else [])
    && e.task.lastRunAt == (if topic != "" && topic in w.opens && !goes then t.lastRunAt else w.now)
    && e.task.createdAt == (if goes && t.createdAt == 0 then w.now else t.createdAt)
    && e.task.topic == (if held == "" && topic != "" then topic else t.topic)
    && e.pending == (if t.renew && topic != "" then Some(Pending(topic, goes)) else pending)
    && e.switched == (if topic != "" && SeenIdle(topic, w) then Some(Switch(topic, e.task.approvalMode)) else None)
    && (t.approvalMode in {"ask", "auto", "yolo"} ==> e.task.approvalMode == t.approvalMode)
    && (goes && t.approvalMode !in {"ask", "auto", "yolo"} ==> e.task.approvalMode == "yolo")
  }

  lemma RunMeans(t: Task, pending: Option<Pending>, first: World, again: World)
    ensures Outcome(t, pending, first, again, Run(t, pending, first, again))
  {
  }

  class Engine {
    var tasks: seq<Task>
    var pendingTopics: map<string, Pending>
    var made: seq<Topic>         // CreateTopic calls that succeeded
    var sent: seq<Topic>         // prompts submitted
    var modes: map<Topic, string> // approval modes of the tabs, by topic

    constructor (tasks: seq<Task>)
      ensures this.tasks == tasks && pendingTopics == map[] && made == [] && sent == [] && modes == map[]
    {
      this.tasks, pendingTopics, made, sent, modes := tasks, map[], [], [], map[];
    }

    function PendingOf(id: string): Option<Pending>
      reads this
    {
      if id in pendingTopics then Some(pendingTopics[id]) else None
    }

    /** One run.  It calls itself at most once, after it has dropped the submitted entry it found. */
    method ExecuteTask(t: Task, first: World, again: World) returns (r: Task)
      modifies this`pendingTopics, this`made, this`sent, this`modes
      ensures var e := Run(t, old(PendingOf(t.id)), first, again);
        && r == e.task
        && PendingOf(t.id) == e.pending
        && made == old(made) + e.made
        && sent == old(sent) + e.sent
        && modes == (if e.switched.None? then old(modes) else old(modes)[e.switched.value.topic := e.switched.value.mode])
        && Outcome(t, old(PendingOf(t.id)), first, again, e)
      ensures pendingTopics - {t.id} == old(pendingTopics) - {t.id}
      decreases if t.renew && t.id in pendingTopics && pendingTopics[t.id].submitted then 1 else 0
    {
      RunMeans(t, PendingOf(t.id), first, again);
      hide Outcome, Mode;
      var task := t;
      var topic := "";
      var submitted := false;
      if task.renew {
        if task.id in pendingTopics {
          var pending := pendingTopics[task.id];
          topic, submitted := pending.topic, pending.submitted;
        }
      } else {
        topic := task.topic;
      }
      if topic == "" {
        if first.create.None? {
          return task.(lastRunAt := first.now);
        }
        topic := first.create.value;
        made := made + [topic];
        task := task.(topic := topic);
        if task.renew {
          OthersStay(pendingTopics, t.id, Pending(topic, false));
          pendingTopics := pendingTopics[task.id := Pending(topic, false)];
        }
      }
      if topic !in first.opens {
        return task.(lastRunAt := first.now);
      }
      if topic !in first.ready || topic in first.busy {
        return task;
      }
      if task.renew && submitted {
        OthersStay(pendingTopics, t.id, pendingTopics[t.id]);
        pendingTopics := pendingTopics - {task.id};
        r := ExecuteTask(task, again, again);
        return;
      }
      task := task.(approvalMode := Mode(task.approvalMode));
      modes := modes[topic := task.approvalMode];
      if topic !in first.accepts {
        return task;
      }
      sent := sent + [topic];
      if task.renew {
        OthersStay(pendingTopics, t.id, Pending(topic, true));
        pendingTopics := pendingTopics[task.id := Pending(topic, true)];
      }
      task := task.(lastRunAt := first.now);
      if task.createdAt == 0 {
        task := task.(createdAt := task.lastRunAt);
      }
      return task;
    }

    /** Entries of tasks that are gone or no longer start fresh conversations are dropped. */
    method PrunePending()
      modifies this`pendingTopics
      ensures pendingTopics == map id | id in old(pendingTopics) && Renews(tasks, id) :: old(pendingTopics)[id]
      ensures forall id :: id in pendingTopics <==> id in old(pendingTopics) && exists t <- tasks :: t.id == id && t.renew
    {
      if |pendingTopics| == 0 {
        return;
      }
      var keep: set<string> := {};
      for i := 0 to |tasks|
        invariant forall id :: id in keep <==> Renews(tasks[..i], id)
      {
        if tasks[i].renew {
          keep := keep + {tasks[i].id};
        }
      }
      assert tasks[..|tasks|] == tasks;
      pendingTopics := map id | id in pendingTopics && id in keep :: pendingTopics[id];
    }

    /** mergeRunUpdatesLocked: the list on disk, or the list in memory when the file cannot be read, with the run results
        written over it; `writes` says whether a save is attempted. */
    method MergeRunUpdates(disk: Option<seq<Task>>, updates: map<string, Task>) returns (writes: bool)
      modifies this`tasks, this`pendingTopics
      ensures writes == (updates != map[])
      ensures tasks == (if !writes then old(tasks) else Merged(if disk.Some? then disk.value else old(tasks), updates))
      ensures !writes ==> pendingTopics == old(pendingTopics)
      ensures writes ==>
                pendingTopics == map id | id in old(pendingTopics) && Renews(tasks, id) :: old(pendingTopics)[id]
    {
      if updates == map[] {
        return false;
      }
      var list := if disk.Some? then disk.value else tasks;
      tasks := MergeList(list, updates);
      PrunePending();
      return true;
    }
  }

  lemma OthersStay(entries: map<string, Pending>, id: string, p: Pending)
    ensures entries - {id} - {id} == entries - {id}
    ensures entries[id := p] - {id} == entries - {id}
  {
  }

  method MergeList(list: seq<Task>, updates: map<string, Task>) returns (merged: seq<Task>)
    ensures merged == Merged(list, updates)
  {
    merged := list;
    for i := 0 to |list|
      invariant |merged| == |list| && merged[..i] == Merged(list[..i], updates)
      invariant forall k :: i <= k < |list| ==> merged[k] == list[k]
    {
      MergedNext(list, updates, i);
      hide Updated, Merged;
      ghost var front := merged[..i];
      if merged[i].id in updates {
        merged := merged[i := Updated(merged[i], updates[merged[i].id])];
      }
      assert merged[..i + 1] == front + [merged[i]];
    }
    assert merged[..|list|] == merged && list[..|list|] == list;
  }

  predicate Renews(tasks: seq<Task>, id: string) {
    exists t <- tasks :: t.id == id && t.renew
  }

  // ---- Merging run results ----

  /** The engine writes the run state only: the topic, the last run, and a creation time that is still missing. */
  function Updated(t: Task, u: Task): Task {
    t.(topic := if u.topic != "" then u.topic else t.topic,
       lastRunAt := if u.lastRunAt != 0 then u.lastRunAt else t.lastRunAt,
       createdAt := if t.createdAt == 0 then u.createdAt else t.createdAt)
  }

  function Merged(list: seq<Task>, updates: map<string, Task>): seq<Task> {
    if list == [] then []
    else
      var front, last := list[..|list| - 1], list[|list| - 1];
      Merged(front, updates) + [if last.id in updates then Updated(last, updates[last.id]) else last]
  }

  lemma MergedNext(list: seq<Task>, updates: map<string, Task>, i: nat)
    requires i < |list|
    ensures Merged(list[..i + 1], updates)
         == Merged(list[..i], updates) + [if list[i].id in updates then Updated(list[i], updates[list[i].id]) else list[i]]
  {
    assert list[..i + 1][..i] == list[..i];
  }

  /** A task without its run state: what a person edits. */
  function Definition(t: Task): Task {
    t.(topic := "", lastRunAt := 0, createdAt := 0)
  }

  /** Whatever was added, deleted, reordered or edited outside stays as it is, tasks that did not run are untouched, and
      the run state of those that did is never set back to nothing. */
  lemma {:induction false} MergeKeepsEdits(list: seq<Task>, updates: map<string, Task>)
    ensures |Merged(list, updates)| == |list|
    ensures forall i :: 0 <= i < |list| ==>
              var before, after := list[i], Merged(list, updates)[i];
              && Definition(after) == Definition(before)
              && (before.id !in updates ==> after == before)
              && (before.id in updates ==>
                    var u := updates[before.id];
                    && after.topic == (if u.topic != "" then u.topic else before.topic)
                    && after.lastRunAt == (if u.lastRunAt != 0 then u.lastRunAt else before.lastRunAt)
                    && after.createdAt == (if before.createdAt == 0 then u.createdAt else before.createdAt))
  {
    if list != [] {
      MergeKeepsEdits(list[..|list| - 1], updates);
    }
  }

  /** Merging the same results again changes nothing. */
  lemma {:induction false} MergeTwice(list: seq<Task>, updates: map<string, Task>)
    ensures Merged(Merged(list, updates), updates) == Merged(list, updates)
  {
    if list != [] {
      var front, merged := list[..|list| - 1], Merged(list, updates);
      MergeTwice(front, updates);
      assert merged[..|merged| - 1] == Merged(front, updates);
    }
  }

  // ---- Conversations over many runs of one task ----

  /** What each of a series of runs does, the task and its pending entry carried along. */
  function Series(t: Task, pending: Option<Pending>, worlds: seq<(World, World)>): (r: seq<Effect>)
    ensures |r| == |worlds|
    decreases |worlds|
  {
    if worlds == [] then []
    else
      var e := Run(t, pending, worlds[0].0, worlds[0].1);
      [e] + Series(e.task, e.pending, worlds[1..])
  }

  /** A prompt goes only to a conversation that was just seen idle, and a run that sends one records its time. */
  lemma SendsWhenIdle(t: Task, pending: Option<Pending>, first: World, again: World)
    ensures var e := Run(t, pending, first, again);
      && |e.sent| <= 1 && |e.made| <= 1
      && (forall x <- e.sent :: SeenIdle(x, first) || SeenIdle(x, again))
      && (e.sent != [] ==> e.task.lastRunAt in {first.now, again.now})
      && e.task.lastRunAt in {t.lastRunAt, first.now, again.now}
  {
  }

  /** A run leaves the task's definition alone, but for writing out its approval mode. */
  lemma RunKeepsDefinition(t: Task, pending: Option<Pending>, first: World, again: World)
    ensures Definition(Run(t, pending, first, again).task.(approvalMode := t.approvalMode)) == Definition(t)
  {
  }

  /** One of the runs after `low` and up to `high` finds the conversation idle at its start. */
  ghost predicate SeenIdleWithin(topic: Topic, worlds: seq<(World, World)>, low: int, high: int) {
    exists k :: low < k <= high && 0 <= k < |worlds| && SeenIdle(topic, worlds[k].0)
  }

  lemma SeenLater(topic: Topic, worlds: seq<(World, World)>, low: int, high: int)
    requires worlds != [] && low >= -1 && SeenIdleWithin(topic, worlds[1..], low, high)
    ensures SeenIdleWithin(topic, worlds, low + 1, high + 1)
  {
    var k :| low < k <= high && 0 <= k < |worlds| - 1 && SeenIdle(topic, worlds[1..][k].0);
    assert worlds[1..][k] == worlds[k + 1];
  }

  /** Once a fresh conversation has its prompt, the runs that follow send nothing and make nothing until one of them has
      seen that conversation idle. */
  lemma {:induction false} WaitsForIdle(t: Task, topic: Made, worlds: seq<(World, World)>, j: nat)
    requires t.renew && j < |worlds|
    requires Series(t, Some(Pending(topic, true)), worlds)[j].made + Series(t, Some(Pending(topic, true)), worlds)[j].sent != []
    ensures SeenIdleWithin(topic, worlds, -1, j)
    decreases |worlds|
  {
    var e := Run(t, Some(Pending(topic, true)), worlds[0].0, worlds[0].1);
    if !SeenIdle(topic, worlds[0].0) {
      assert e.pending == Some(Pending(topic, true)) && e.made == [] && e.sent == [];
      WaitsForIdle(e.task, topic, worlds[1..], j - 1);
      SeenLater(topic, worlds, -1, j - 1);
    }
  }

  lemma SeriesTail(t: Task, pending: Option<Pending>, worlds: seq<(World, World)>)
    requires worlds != []
    ensures var e := Run(t, pending, worlds[0].0, worlds[0].1);
            var later := Series(e.task, e.pending, worlds[1..]);
            forall k :: 0 < k < |worlds| ==> Series(t, pending, worlds)[k] == later[k - 1]
  {
    hide Run;
  }

  lemma SentIsPending(t: Task, pending: Option<Pending>, first: World, again: World)
    requires t.renew
    ensures var e := Run(t, pending, first, again);
      e.task.renew && (e.sent != [] ==> e.sent[0] != "" && e.pending == Some(Pending(e.sent[0], true)))
  {
  }

  /** Over any series of runs of a fresh-conversation task: after a prompt was sent at run `i`, no later run makes a new
      topic or sends a prompt before one of the runs in between, or that run itself, has seen the conversation idle. */
  lemma {:induction false} NeverOverlaps(t: Task, pending: Option<Pending>, worlds: seq<(World, World)>, i: nat, j: nat)
    requires t.renew && i < j < |worlds|
    requires Series(t, pending, worlds)[i].sent != []
    requires Series(t, pending, worlds)[j].made + Series(t, pending, worlds)[j].sent != []
    ensures SeenIdleWithin(Series(t, pending, worlds)[i].sent[0], worlds, i, j)
    decreases |worlds|
  {
    hide Run, SeenIdleWithin, SeenIdle;
    var e := Run(t, pending, worlds[0].0, worlds[0].1);
    var rest, topic := worlds[1..], Series(t, pending, worlds)[i].sent[0];
    SentIsPending(t, pending, worlds[0].0, worlds[0].1);
    SeriesTail(t, pending, worlds);
    assert i == 0 ==> Series(t, pending, worlds)[i] == e;
    hide Series;
    if i == 0 {
      WaitsForIdle(e.task, topic, rest, j - 1);
    } else {
      NeverOverlaps(e.task, e.pending, rest, i - 1, j - 1);
    }
    SeenLater(topic, worlds, i - 1, j - 1);
  }

  /** A topic that was made but not yet used is used by the next run that sends: none is made in between. */
  lemma {:induction false} UnusedTopicIsKept(t: Task, topic: Made, worlds: seq<(World, World)>, j: nat)
    requires t.renew && j < |worlds|
    requires forall k :: 0 <= k < j ==> Series(t, Some(Pending(topic, false)), worlds)[k].sent == []
    ensures var e := Series(t, Some(Pending(topic, false)), worlds)[j];
            e.made == [] && (e.sent == [] || e.sent == [topic])
    decreases |worlds|
  {
    var all := Series(t, Some(Pending(topic, false)), worlds);
    var e := Run(t, Some(Pending(topic, false)), worlds[0].0, worlds[0].1);
    if j > 0 {
      assert all[0].sent == [];
      assert forall k :: 0 <= k < j - 1 ==> Series(e.task, e.pending, worlds[1..])[k] == all[k + 1];
      UnusedTopicIsKept(e.task, topic, worlds[1..], j - 1);
    }
  }
}
