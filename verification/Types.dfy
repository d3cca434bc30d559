/** The datatypes that all the other modules are about. */
module Types {

  datatype Option<+T> = None | Some(value: T)

  /** A configured model's internal label. Only equality of labels matters. */
  type ModelName = nat

  // ------------------------------------------------------------------ generation

  datatype Chunk = Chunk(text: string, index: nat)

  /** Token counts as reported by whoever generated; any of the three may be missing. */
  datatype Usage = Usage(promptTokens: Option<int>, completionTokens: Option<int>, totalTokens: Option<int>)

  /** What travels on a request's event channel. */
  datatype StreamEvent =
    | Piece(chunk: Chunk)
    | StreamEnd(finishReason: string, usage: Option<Usage>)
    | StreamError(message: string, statusCode: int)
  {
    predicate IsTerminator() {
      !Piece?
    }
  }

  /** A backend's chunks as they look on a channel. */
  function Pieces(chunks: seq<Chunk>): (events: seq<StreamEvent>)
    ensures |events| == |chunks|
    ensures forall k :: 0 <= k < |chunks| ==> events[k] == Piece(chunks[k])
  {
    seq(|chunks|, k requires 0 <= k < |chunks| => Piece(chunks[k]))
  }

  datatype RequestState = Queued | Running | Done | Failed | Cancelled
  {
    predicate IsTerminal() {
      Done? || Failed? || Cancelled?
    }
  }

  // ------------------------------------------------------------------ configuration

  datatype SchedulerConfig = SchedulerConfig(
    minResidency: real,
    maxWait: real,
    ageWeight: real,
    depthWeight: real,
    switchCostWeight: real,
    maxConcurrent: int,
    tick: real,
    backendRetry: real)
  {
    predicate Valid() {
      && 0.0 <= minResidency < maxWait
      && 0.0 <= ageWeight && 0.0 <= depthWeight && 0.0 <= switchCostWeight
      && 0 < maxConcurrent
      && 0.0 < tick
      && 0.0 <= backendRetry
    }
  }

  datatype ModelConfig = ModelConfig(name: ModelName, priority: real, loadSeconds: real)

  datatype AppConfig = AppConfig(models: seq<ModelConfig>, scheduler: SchedulerConfig)
  {
    predicate Valid() {
      && scheduler.Valid()
      && 0 < |models|
      && (forall i :: 0 <= i < |models| ==> 0.0 < models[i].priority && 0.0 <= models[i].loadSeconds)
      && (forall i, j :: 0 <= i < j < |models| ==> models[i].name != models[j].name)
    }

    function Names(): set<ModelName> {
      set i | 0 <= i < |models| :: models[i].name
    }
  }

  // ------------------------------------------------------------------ scheduling

  function Max(a: real, b: real): real { if a < b then b else a }

  function Min(a: real, b: real): real { if b < a then b else a }

  /** One model as the policy sees it; nothing else about it enters a decision. */
  datatype ModelState = ModelState(
    name: ModelName,
    priority: real,
    depth: nat,
    oldestEnqueuedAt: Option<real>,
    loadSeconds: real,
    resident: bool,
    residentSince: Option<real>,
    inFlight: nat,
    idleSince: Option<real>,
    unavailableUntil: Option<real>)
  {
    predicate HasPending() { depth > 0 }

    predicate IsBusy() { depth > 0 || inFlight > 0 }

    function IdleFor(now: real): real {
      if idleSince.None? then 0.0 else Max(0.0, now - idleSince.value)
    }

    function OldestWait(now: real): real {
      if oldestEnqueuedAt.None? then 0.0 else Max(0.0, now - oldestEnqueuedAt.value)
    }

    predicate IsAvailable(now: real) {
      unavailableUntil.None? || now >= unavailableUntil.value
    }
  }

  datatype Snapshot = Snapshot(models: seq<ModelState>, resident: Option<ModelName>, draining: bool, switching: bool)
  {
    /** The configuration validator guarantees that no two models share a name. */
    predicate UniqueNames() {
      forall i, j :: 0 <= i < j < |models| ==> models[i].name != models[j].name
    }

    function ByName(name: ModelName): (r: Option<ModelState>)
      ensures r.Some? ==> r.value in models && r.value.name == name
      ensures r.None? ==> forall s :: s in models ==> s.name != name
    {
      FirstNamed(models, name)
    }

    function ResidentState(): Option<ModelState> {
      if resident.Some? then ByName(resident.value) else None
    }
  }

  function FirstNamed(models: seq<ModelState>, name: ModelName): (r: Option<ModelState>)
    ensures r.Some? ==> r.value in models && r.value.name == name
    ensures r.None? ==> forall s :: s in models ==> s.name != name
  {
    if models == [] then None
    else if models[0].name == name then Some(models[0])
    else FirstNamed(models[1..], name)
  }

  /** With unique names, looking a member up by its own name returns that member. */
  lemma NamedIsUnique(models: seq<ModelState>, state: ModelState)
    requires forall i, j :: 0 <= i < j < |models| ==> models[i].name != models[j].name
    requires state in models
    ensures FirstNamed(models, state.name) == Some(state)
  {
    var found := FirstNamed(models, state.name);
    var i :| 0 <= i < |models| && models[i] == state;
    var j :| 0 <= j < |models| && models[j] == found.value;
  }

  datatype DecisionKind = Idle | Serve | Hold | Switch

  datatype DecisionReason =
    | NoWork | ColdStart | Starvation | MinResidency | ResidentWins
    | ChallengerWins | ResidentIdle | BackendUnavailable | InTransition

  /** A float that may be minus infinity, as an ineligible model's score is. */
  datatype Score = NegInf | Fin(v: real)
  {
    predicate Above(other: Score) {
      match (this, other)
      case (NegInf, _) => false
      case (Fin(_), NegInf) => true
      case (Fin(a), Fin(b)) => a > b
    }
  }

  datatype ScoreBreakdown = ScoreBreakdown(
    model: ModelName,
    priority: real,
    depth: nat,
    oldestWait: real,
    ageTerm: real,
    depthTerm: real,
    switchCost: real,
    score: Score,
    eligible: bool)

  datatype Decision = Decision(
    kind: DecisionKind,
    reason: DecisionReason,
    at: real,
    resident: Option<ModelName>,
    target: Option<ModelName>,
    scores: seq<ScoreBreakdown>)
}
