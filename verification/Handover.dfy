/**
 * Runtime to Salt ownership handover: the staged protocol over three durable files, with the answers
 * of the hooks as inputs, and every durable state it passes through as a possible crash point.
 */
module Handover {
  import opened Text

  // ---------------------------------------------------------------- durable files

  datatype Json = JNull | JText(text: string) | JOther

  type Dict = map<string, Json>

  /** A JSON file that may be missing or unreadable. */
  datatype JsonFile = Missing | Unreadable | Payload(entries: Dict)

  datatype Files = Files(owner: JsonFile, snapshot: Option<Dict>, marker: JsonFile)

  const OWNERS := {"salt", "runtime", "direct"}

  /** `str(value)` for the values an owner file can hold. */
  function TextOf(value: Json): string {
    match value
    case JNull => "None"
    case JText(text) => text
    case JOther => "?"
  }

  /** `read_owner` */
  function ReadOwner(file: JsonFile): Option<string> {
    if !file.Payload? then None
    else
      var owner := Lower(Trim(Python, if "hermes" in file.entries then TextOf(file.entries["hermes"]) else ""));
      if owner in OWNERS then Some(owner) else None
  }

  function OwnerFile(owner: string): JsonFile {
    Payload(map["hermes" := JText(owner)])
  }

  /** An owner recorded in a snapshot counts only when it is one of the three, spelled exactly. */
  function RecordedOwner(snapshot: Dict): Option<string> {
    if "owner" in snapshot && snapshot["owner"].JText? && snapshot["owner"].text in OWNERS
    then Some(snapshot["owner"].text) else None
  }

  function OwnerJson(owner: Option<string>): Json {
    if owner.None? then JNull else JText(owner.value)
  }

  /** `_restore_owner` */
  function RestoreOwner(owner: Option<string>): JsonFile {
    if owner.Some? && owner.value in OWNERS then OwnerFile(owner.value) else Missing
  }

  // ---------------------------------------------------------------- steps, hooks and results

  datatype Step =
    | Precheck | SaltReady | HermesAdopted | OldGatewayStopped | RuntimeStopped
    | OwnerSwitched | SaltGatewayStarted | WorkVerified | Completed | Remigrated
    | RollbackStarted | SaltGatewayStopped | SnapshotRestored | OwnerRestored | RuntimeRestored | Reconciled

  const MIGRATE_STEPS: seq<Step> :=
    [Precheck, SaltReady, HermesAdopted, OldGatewayStopped, RuntimeStopped,
     OwnerSwitched, SaltGatewayStarted, WorkVerified, Completed]

  const ROLLBACK_STEPS: seq<Step> :=
    [RollbackStarted, SaltGatewayStopped, SnapshotRestored, OwnerRestored, RuntimeRestored, Reconciled]

  /** The facts `inspect` reports: whether it is happy, whether it names an error, and the home. */
  datatype Facts = Facts(ok: bool, hasError: bool, home: Json)

  /** What each hook answers, should it be called. */
  datatype Hooks = Hooks(
    inspect: Facts, verifySalt: bool, snapshot: Dict, stopGateway: bool, disableRuntime: bool,
    startSaltGateway: bool, health: bool, workProbe: bool, reconcile: bool)

  datatype Call =
    | Inspect | VerifySalt | TakeSnapshot | StopGateway | DisableRuntime | StartSaltGateway
    | Health | WorkProbe | RestoreSnapshot | RestoreRuntime | Reconcile

  datatype Error =
    | InspectError | SaltNotReady | StopGatewayFailed | DisableRuntimeFailed | SaltGatewayStartFailed
    | GatewayUnhealthy | WorkProbeFailed | RollbackHealthFailed | RemigrateRequiresRollback

  datatype Result = Result(ok: bool, owner: Json, error: Option<Error>, snapshot: Dict, steps: seq<Step>)

  /** A finished operation: each durable state it left behind in turn, the hooks it called, its result. */
  datatype Run = Run(states: seq<Files>, calls: seq<Call>, result: Result)

  function Final(files: Files, run: Run): Files {
    if run.states == [] then files else run.states[|run.states| - 1]
  }

  // ---------------------------------------------------------------- migrate

  function SetDefault(d: Dict, key: string, value: Json): Dict {
    if key in d then d else d[key := value]
  }

  /** The snapshot as it is written. */
  function FilledSnapshot(h: Hooks, initial: Option<string>, endpoint: string, home: string): Dict {
    SetDefault(SetDefault(SetDefault(h.snapshot, "owner", OwnerJson(initial)), "endpoint_id", JText(endpoint)),
               "hermes_home", if home != "" then JText(home) else h.inspect.home)
  }

  function CompletedMarker(endpoint: string, snapshot: Dict): Dict {
    map["endpoint_id" := JText(endpoint),
        "hermes_home" := if "hermes_home" in snapshot then snapshot["hermes_home"] else JNull,
        "owner" := JText("salt"), "status" := JText("COMPLETED")]
  }

  /** `fail(...)`, in the durable state it is called in. */
  function Failure(files: Files, initial: Option<string>, error: Error, snapshot: Dict, steps: nat): Result
    requires steps <= |MIGRATE_STEPS|
  {
    Result(false, OwnerJson(if files.owner.Missing? then initial else ReadOwner(files.owner)), Some(error), snapshot,
      MIGRATE_STEPS[..steps])
  }

  const RESTORE_CALLS: seq<Call> := [RestoreSnapshot, RestoreRuntime, Reconcile]

  /** The half of `migrate` from the owner switch on: a failure there restores the old owner. */
  function SwitchOver(files: Files, h: Hooks, endpoint: string, initial: Option<string>, snapshot: Dict): Run {
    var switched := files.(owner := OwnerFile("salt"));
    var undone := switched.(owner := RestoreOwner(initial));
    if !h.startSaltGateway then
      Run([switched, undone], [StartSaltGateway] + RESTORE_CALLS,
        Failure(undone, initial, SaltGatewayStartFailed, snapshot, 7))
    else if !h.health then
      Run([switched, undone], [StartSaltGateway, Health] + RESTORE_CALLS,
        Failure(undone, initial, GatewayUnhealthy, snapshot, 7))
    else if !h.workProbe then
      Run([switched, undone], [StartSaltGateway, Health, WorkProbe] + RESTORE_CALLS,
        Failure(undone, initial, WorkProbeFailed, snapshot, 8))
    else
      Run([switched, switched.(marker := Payload(CompletedMarker(endpoint, snapshot)))],
          [StartSaltGateway, Health, WorkProbe], Result(true, JText("salt"), None, snapshot, MIGRATE_STEPS))
  }

  /** `migrate` */
  function Migrate(files: Files, h: Hooks, endpoint: string, home: string): Run {
    var initial := ReadOwner(files.owner);
    if !h.inspect.ok && h.inspect.hasError then
      Run([], [Inspect], Failure(files, initial, InspectError, map[], 1))
    else if !h.verifySalt then
      Run([], [Inspect, VerifySalt], Failure(files, initial, SaltNotReady, map[], 2))
    else
      var snapshot := FilledSnapshot(h, initial, endpoint, home);
      var kept := files.(snapshot := Some(snapshot));
      var calls := [Inspect, VerifySalt, TakeSnapshot, StopGateway];
      if !h.stopGateway then Run([kept], calls, Failure(kept, initial, StopGatewayFailed, snapshot, 4))
      else if !h.disableRuntime then
        Run([kept], calls + [DisableRuntime], Failure(kept, initial, DisableRuntimeFailed, snapshot, 5))
      else
        var rest := SwitchOver(kept, h, endpoint, initial, snapshot);
        Run([kept] + rest.states, calls + [DisableRuntime] + rest.calls, rest.result)
  }

  // ---------------------------------------------------------------- rollback and remigrate

  /** `rollback`, from the snapshot handed in or else from the file. */
  function Rollback(files: Files, given: Dict, reconcile: bool): Run {
    var payload := if given == map[] && files.snapshot.Some? then files.snapshot.value else given;
    var previous := RecordedOwner(payload);
    var f1 := files.(owner := RestoreOwner(previous));
    var f2 := f1.(marker := Missing);
    Run([f1, f2],
        [StopGateway] + (if payload == map[] then [] else [RestoreSnapshot]) + [RestoreRuntime, Reconcile],
        Result(reconcile, OwnerJson(previous), if reconcile then None else Some(RollbackHealthFailed), payload,
          ROLLBACK_STEPS))
  }

  function Remarked(marker: Dict, key: Json): Dict {
    marker["status" := JText("REMIGRATE_COMPLETED")]["idempotency_key" := key]["operation" := JText("remigrate")]
  }

  /** `remigrate` */
  function Remigrate(files: Files, h: Hooks, endpoint: string, home: string, key: Json): Run {
    var existing := if files.marker.Payload? then files.marker.entries else map[];
    if "status" in existing && existing["status"] == JText("COMPLETED") then
      Run([], [], Result(false, if "owner" in existing then existing["owner"] else JNull,
                         Some(RemigrateRequiresRollback), map[], [Precheck]))
    else
      var run := Migrate(files, h, endpoint, home);
      if !run.result.ok then run
      else
        var done := Final(files, run);
        var marker := if done.marker.Payload? then done.marker.entries else map[];
        Run(run.states + [done.(marker := Payload(Remarked(marker, key)))], run.calls,
            run.result.(steps := run.result.steps + [Remigrated]))
  }
}
