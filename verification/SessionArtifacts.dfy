/** The names of a session's artifacts: a file has the same name beside the transcript and in the trash. */
module SessionArtifacts {

  type Name = string

  predicate EndsWith(s: string, t: string) {
    |t| <= |s| && s[|s| - |t|..] == t
  }

  /** Primary transcripts, as against the logs that share their extension. */
  predicate IsTranscript(name: Name) {
    && EndsWith(name, ".jsonl")
    && !EndsWith(name, ".events.jsonl") && !EndsWith(name, ".conflicts.jsonl") && !EndsWith(name, ".guardian.jsonl")
  }

  datatype Kind =
    | Transcript | Meta | GoalState | EventLog | DamagedLog | EventIndex
    | ConflictLog | AppServer | Telemetry | Checkpoints | Jobs

  const Kinds := [Transcript, Meta, GoalState, EventLog, DamagedLog, EventIndex, ConflictLog, AppServer, Telemetry, Checkpoints, Jobs]

  function Suffix(k: Kind): string {
    match k
    case Transcript => ".jsonl"
    case Meta => ".jsonl.meta"
    case GoalState => ".goal-state.json"
    case EventLog => ".events.jsonl"
    case DamagedLog => ".events.jsonl.damaged"
    case EventIndex => ".event-index.json"
    case ConflictLog => ".conflicts.jsonl"
    case AppServer => ".jsonl.appserver.json"
    case Telemetry => ".jsonl.telemetry.json"
    case Checkpoints => ".ckpt"
    case Jobs => ".jobs"
  }

  function Stem(key: Name): Name
    requires IsTranscript(key)
  {
    key[..|key| - 6]
  }

  function Artifact(key: Name, k: Kind): Name
    requires IsTranscript(key)
  {
    Stem(key) + Suffix(k)
  }

  function FromEnd(name: Name, i: nat): char {
    if i < |name| then name[|name| - 1 - i] else ' '
  }

  /** What kind of artifact a name can be, read from its end. */
  function Classify(name: Name): Kind {
    match FromEnd(name, 0)
    case 'a' => Meta
    case 'd' => DamagedLog
    case 't' => Checkpoints
    case 's' => Jobs
    case 'n' =>
      (match FromEnd(name, 5)
       case 'e' => GoalState
       case 'x' => EventIndex
       case 'r' => AppServer
       case _ => Telemetry)
    case _ => if EndsWith(name, ".events.jsonl") then EventLog else if EndsWith(name, ".conflicts.jsonl") then ConflictLog else Transcript
  }

  lemma FromEndOf(stem: Name, suffix: string, i: nat)
    requires i < |suffix|
    ensures FromEnd(stem + suffix, i) == suffix[|suffix| - 1 - i]
  {
  }

  lemma TranscriptIsKey(key: Name)
    requires IsTranscript(key)
    ensures Artifact(key, Transcript) == key
  {
    assert key == Stem(key) + key[|key| - 6..];
  }

  lemma ArtifactClass(key: Name, k: Kind)
    requires IsTranscript(key)
    ensures Classify(Artifact(key, k)) == k
  {
    var name, stem := Artifact(key, k), Stem(key);
    FromEndOf(stem, Suffix(k), 0);
    match k
    case Transcript => TranscriptIsKey(key);
    case EventLog => assert name[|name| - 13..] == ".events.jsonl";
    case ConflictLog =>
      assert name[|name| - 16..] == ".conflicts.jsonl";
      FromEndOf(stem, ".conflicts.jsonl", 8);
    case GoalState => FromEndOf(stem, ".goal-state.json", 5);
    case EventIndex => FromEndOf(stem, ".event-index.json", 5);
    case AppServer => FromEndOf(stem, ".jsonl.appserver.json", 5);
    case Telemetry => FromEndOf(stem, ".jsonl.telemetry.json", 5);
    case _ =>
  }

  /** No two artifacts share a name, of one session or of two. */
  lemma ArtifactsApart(key: Name, k: Kind, other: Name, j: Kind)
    requires IsTranscript(key) && IsTranscript(other) && (key != other || k != j)
    ensures Artifact(key, k) != Artifact(other, j)
  {
    ArtifactClass(key, k);
    ArtifactClass(other, j);
    if k == j && Artifact(key, k) == Artifact(other, j) {
      var name := Artifact(key, k);
      assert Stem(key) == name[..|name| - |Suffix(k)|] == Stem(other);
      TranscriptIsKey(key);
      TranscriptIsKey(other);
    }
  }
}
