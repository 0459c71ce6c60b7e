/** What the handover protocol guarantees: per call, after a crash, and over whole runs. */
module HandoverSafety {
  import opened Text
  import opened Handover

  // ---------------------------------------------------------------- reading back what was written

  lemma OwnerReadsBack(owner: string)
    requires owner in OWNERS
    ensures ReadOwner(OwnerFile(owner)) == Some(owner)
  {
    hide TrimStart, TrimEnd, Trim;
    TrimIsIdentityOnTight(Python, owner);
    assert forall i :: 0 <= i < |owner| ==> 'a' <= owner[i] <= 'z';
    assert Lower(owner) == owner;
  }

  lemma RestoreReadsBack(owner: Option<string>)
    requires owner.Some? ==> owner.value in OWNERS
    ensures ReadOwner(RestoreOwner(owner)) == owner
  {
    hide ReadOwner;
    if owner.Some? { OwnerReadsBack(owner.value); } else { MissingReadsNone(); }
  }

  lemma MissingReadsNone()
    ensures ReadOwner(Missing).None?
  {
  }

  lemma ReadIsKnown(file: JsonFile)
    ensures ReadOwner(file).Some? ==> ReadOwner(file).value in OWNERS
  {
    hide Lower, Trim;
  }

  lemma RecordedIsKnown(snapshot: Dict)
    ensures RecordedOwner(snapshot).Some? ==> RecordedOwner(snapshot).value in OWNERS
  {
  }

  // ---------------------------------------------------------------- one call

  predicate IsStepPrefix(steps: seq<Step>) {
    steps <= MIGRATE_STEPS
  }

  /**
   * A migrate either hands the endpoint to salt, with the marker and all nine steps, or leaves the
   * owner and the marker as they were, with a proper prefix of the steps.
   */
  lemma MigrateAllOrNothing(files: Files, h: Hooks, endpoint: string, home: string)
    ensures var run := Migrate(files, h, endpoint, home);
            var after := Final(files, run);
            run.result.owner == OwnerJson(ReadOwner(after.owner)) && IsStepPrefix(run.result.steps) &&
            (if run.result.ok
             then ReadOwner(after.owner) == Some("salt") && after.marker.Payload? &&
                  run.result.steps == MIGRATE_STEPS && run.result.error.None?
             else ReadOwner(after.owner) == ReadOwner(files.owner) && after.marker == files.marker &&
                  |run.result.steps| < |MIGRATE_STEPS| && run.result.error.Some?)
  {
    hide ReadOwner, FilledSnapshot, CompletedMarker, RestoreOwner, OwnerFile;
    ReadIsKnown(files.owner);
    RestoreReadsBack(ReadOwner(files.owner));
    OwnerReadsBack("salt");
    MissingReadsNone();
  }

  /** The gateway of salt is only started once the way back is stored and the old owner is stopped. */
  lemma StartIsGuarded(files: Files, h: Hooks, endpoint: string, home: string, i: nat)
    requires var run := Migrate(files, h, endpoint, home); i < |run.calls| && run.calls[i] == StartSaltGateway
    ensures var run := Migrate(files, h, endpoint, home);
            run.calls[..i] == [Inspect, VerifySalt, TakeSnapshot, StopGateway, DisableRuntime] &&
            h.verifySalt && h.stopGateway && h.disableRuntime && |run.states| > 0 && run.states[0].snapshot.Some?
  {
    hide ReadOwner, FilledSnapshot, CompletedMarker, RestoreOwner, OwnerFile;
  }

  /** A refused remigrate touches nothing, and it is refused exactly on a marker of a first migration. */
  lemma RemigrateRefusedIff(files: Files, h: Hooks, endpoint: string, home: string, key: Json)
    ensures var run := Remigrate(files, h, endpoint, home, key);
            run.result.error == Some(RemigrateRequiresRollback) <==>
            files.marker.Payload? && "status" in files.marker.entries &&
            files.marker.entries["status"] == JText("COMPLETED")
    ensures Remigrate(files, h, endpoint, home, key).result.error == Some(RemigrateRequiresRollback) ==>
              Remigrate(files, h, endpoint, home, key).states == [] &&
              Remigrate(files, h, endpoint, home, key).calls == []
  {
    hide Migrate;
    MigrateErrors(files, h, endpoint, home);
  }

  lemma MigrateErrors(files: Files, h: Hooks, endpoint: string, home: string)
    ensures Migrate(files, h, endpoint, home).result.error != Some(RemigrateRequiresRollback)
  {
    hide ReadOwner, FilledSnapshot, CompletedMarker, RestoreOwner, OwnerFile;
  }

  // ---------------------------------------------------------------- crash and recovery

  /** The owner that a snapshot written by a migrate leads back to. */
  lemma SnapshotOwner(h: Hooks, initial: Option<string>, endpoint: string, home: string)
    requires initial.Some? ==> initial.value in OWNERS
    ensures RecordedOwner(FilledSnapshot(h, initial, endpoint, home)) ==
              if "owner" in h.snapshot then RecordedOwner(h.snapshot) else initial
    ensures FilledSnapshot(h, initial, endpoint, home) != map[]
  {
    var d := SetDefault(h.snapshot, "owner", OwnerJson(initial));
    KeysDiffer();
    assert "owner" in FilledSnapshot(h, initial, endpoint, home);
    assert FilledSnapshot(h, initial, endpoint, home)["owner"] == d["owner"];
  }

  lemma KeysDiffer()
    ensures "owner" != "endpoint_id" && "owner" != "hermes_home"
  {
    assert "owner"[0] != "endpoint_id"[0] && "owner"[0] != "hermes_home"[0];
  }

  /** From every durable state a migrate passes through, the files alone lead a rollback to one owner. */
  lemma RollbackLeadsTo(files: Files, h: Hooks, endpoint: string, home: string, i: nat, reconcile: bool)
    requires i < |Migrate(files, h, endpoint, home).states|
    ensures var crashed := Migrate(files, h, endpoint, home).states[i];
            var after := Final(crashed, Rollback(crashed, map[], reconcile));
            after.marker.Missing? && after.snapshot == crashed.snapshot &&
            ReadOwner(after.owner) ==
              if "owner" in h.snapshot then RecordedOwner(h.snapshot) else ReadOwner(files.owner)
  {
    hide ReadOwner, FilledSnapshot, CompletedMarker, RestoreOwner, OwnerFile, RecordedOwner;
    var initial := ReadOwner(files.owner);
    ReadIsKnown(files.owner);
    SnapshotOwner(h, initial, endpoint, home);
    var snapshot := FilledSnapshot(h, initial, endpoint, home);
    RecordedIsKnown(snapshot);
    RestoreReadsBack(RecordedOwner(snapshot));
    assert Migrate(files, h, endpoint, home).states[i].snapshot == Some(snapshot);
  }

  /**
   * From every durable state a migrate passes through, a rollback that knows nothing but the files
   * brings the owner back, exactly when the snapshot hook supplied no owner or the right one.
   */
  lemma CrashThenRollbackRestoresOwnerIff(files: Files, h: Hooks, endpoint: string, home: string, i: nat,
                                          reconcile: bool)
    requires i < |Migrate(files, h, endpoint, home).states|
    ensures var crashed := Migrate(files, h, endpoint, home).states[i];
            var after := Final(crashed, Rollback(crashed, map[], reconcile));
            after.marker.Missing? && after.snapshot == crashed.snapshot &&
            (ReadOwner(after.owner) == ReadOwner(files.owner) <==>
             "owner" !in h.snapshot || RecordedOwner(h.snapshot) == ReadOwner(files.owner))
  {
    hide Migrate, Rollback, ReadOwner, RecordedOwner;
    RollbackLeadsTo(files, h, endpoint, home, i, reconcile);
  }

  /** A crash before the snapshot is written leaves every file as it was. */
  lemma NothingWrittenBeforeSnapshot(files: Files, h: Hooks, endpoint: string, home: string)
    ensures var run := Migrate(files, h, endpoint, home);
            run.states == [] <==> TakeSnapshot !in run.calls
    ensures var run := Migrate(files, h, endpoint, home);
            run.states != [] ==> run.states[0].owner == files.owner && run.states[0].marker == files.marker
  {
    hide ReadOwner, FilledSnapshot, CompletedMarker, RestoreOwner, OwnerFile;
  }

  /** A rollback that was cut short is completed by the next one, to the same files. */
  lemma RollbackResumes(files: Files, given: Dict, i: nat, first: bool, second: bool)
    requires i < |Rollback(files, given, first).states|
    ensures var cut := Rollback(files, given, first).states[i];
            Final(cut, Rollback(cut, given, second)) == Final(files, Rollback(files, given, first))
  {
    hide RestoreOwner, RecordedOwner;
  }

  /**
   * A second migrate, successful or not, overwrites the way back: after a successful first one a rollback restores
   * the first owner if and only if the second wrote no snapshot, or what it wrote names that owner. A snapshot
   * hook that supplies no owner key leaves the salt of the first migration to be recorded.
   */
  lemma FirstOwnerComesBackIff(files: Files, h1: Hooks, h2: Hooks, endpoint: string, home: string, reconcile: bool)
    requires Migrate(files, h1, endpoint, home).result.ok
    ensures var f := Final(files, Migrate(files, h1, endpoint, home));
            var second := Migrate(f, h2, endpoint, home);
            var g := Final(f, second);
            var first := ReadOwner(files.owner);
            ReadOwner(Final(g, Rollback(g, map[], reconcile)).owner) == first <==>
            if second.states == [] then "owner" !in h1.snapshot || RecordedOwner(h1.snapshot) == first
            else if "owner" in h2.snapshot then RecordedOwner(h2.snapshot) == first
            else first == Some("salt")
  {
    hide Migrate, Rollback, ReadOwner, RecordedOwner;
    MigrateAllOrNothing(files, h1, endpoint, home);
    SuccessWrites(files, h1, endpoint, home);
    var f := Final(files, Migrate(files, h1, endpoint, home));
    var states := Migrate(f, h2, endpoint, home).states;
    if states == [] {
      CrashThenRollbackRestoresOwnerIff(files, h1, endpoint, home, 2, reconcile);
    } else {
      RollbackLeadsTo(f, h2, endpoint, home, |states| - 1, reconcile);
    }
  }

  lemma SuccessWrites(files: Files, h: Hooks, endpoint: string, home: string)
    requires Migrate(files, h, endpoint, home).result.ok
    ensures |Migrate(files, h, endpoint, home).states| == 3
  {
    hide ReadOwner, FilledSnapshot, CompletedMarker, RestoreOwner, OwnerFile;
  }

  const WILLING := Hooks(Facts(true, false, JNull), true, map[], true, true, true, true, true, true)

  /** The failing side at one endpoint: the second migrate stops at the gateway, and the runtime is forgotten. */
  lemma FailedSecondMigrateForgets(endpoint: string, home: string, reconcile: bool)
    ensures var files := Files(OwnerFile("runtime"), None, Missing);
            var f := Final(files, Migrate(files, WILLING, endpoint, home));
            var second := Migrate(f, WILLING.(stopGateway := false), endpoint, home);
            var g := Final(f, second);
            Migrate(files, WILLING, endpoint, home).result.ok && !second.result.ok &&
            ReadOwner(files.owner) == Some("runtime") &&
            ReadOwner(Final(g, Rollback(g, map[], reconcile)).owner) != Some("runtime")
  {
    hide ReadOwner, RestoreOwner, OwnerFile, RecordedOwner, CompletedMarker, FilledSnapshot;
    OwnerReadsBack("runtime");
    var files := Files(OwnerFile("runtime"), None, Missing);
    assert "runtime"[0] != "salt"[0];
    FirstOwnerComesBackIff(files, WILLING, WILLING.(stopGateway := false), endpoint, home, reconcile);
  }

  // ---------------------------------------------------------------- whole runs

  datatype Op =
    | DoMigrate(h: Hooks, endpoint: string, home: string)
    | DoRollback(given: Dict, reconcile: bool)
    | DoRemigrate(h: Hooks, endpoint: string, home: string, key: Json)

  function Exec(files: Files, op: Op): Run {
    match op
    case DoMigrate(h, endpoint, home) => Migrate(files, h, endpoint, home)
    case DoRollback(given, reconcile) => Rollback(files, given, reconcile)
    case DoRemigrate(h, endpoint, home, key) => Remigrate(files, h, endpoint, home, key)
  }

  /** An operation that performs only its first `writes` durable writes; it is complete when there are no more. */
  datatype Event = Event(op: Op, writes: nat)

  function After(files: Files, e: Event): Files {
    var states := Exec(files, e.op).states;
    if e.writes == 0 || states == [] then files
    else if e.writes <= |states| then states[e.writes - 1]
    else states[|states| - 1]
  }

  function AfterAll(files: Files, events: seq<Event>): Files
    decreases |events|
  {
    if events == [] then files else AfterAll(After(files, events[0]), events[1..])
  }

  /** A marker on disk means that salt owns the endpoint. */
  predicate Safe(files: Files) {
    !files.marker.Missing? ==> ReadOwner(files.owner) == Some("salt")
  }

  /** The one gap: a rollback stopped between its owner write and the removal of the marker. */
  predicate StopsInGap(e: Event) {
    e.op.DoRollback? && e.writes == 1
  }

  lemma MigrateStaysSafe(files: Files, h: Hooks, endpoint: string, home: string, i: nat)
    requires Safe(files) && i < |Migrate(files, h, endpoint, home).states|
    ensures Safe(Migrate(files, h, endpoint, home).states[i])
  {
    hide ReadOwner, FilledSnapshot, CompletedMarker, RestoreOwner, OwnerFile;
    ReadIsKnown(files.owner);
    RestoreReadsBack(ReadOwner(files.owner));
    OwnerReadsBack("salt");
  }

  lemma RemigrateStaysSafe(files: Files, h: Hooks, endpoint: string, home: string, key: Json, i: nat)
    requires Safe(files) && i < |Remigrate(files, h, endpoint, home, key).states|
    ensures Safe(Remigrate(files, h, endpoint, home, key).states[i])
  {
    hide Migrate, ReadOwner, Remarked;
    var run := Migrate(files, h, endpoint, home);
    if i < |run.states| {
      MigrateStaysSafe(files, h, endpoint, home, i);
    } else {
      MigrateAllOrNothing(files, h, endpoint, home);
    }
  }

  lemma EventStaysSafe(files: Files, e: Event)
    requires Safe(files) && !StopsInGap(e)
    ensures Safe(After(files, e))
  {
    hide Migrate, Remigrate, Safe, RestoreOwner, RecordedOwner;
    var states := Exec(files, e.op).states;
    if e.writes > 0 && states != [] {
      var i := if e.writes <= |states| then e.writes - 1 else |states| - 1;
      match e.op
      case DoMigrate(h, endpoint, home) => MigrateStaysSafe(files, h, endpoint, home, i);
      case DoRemigrate(h, endpoint, home, key) => RemigrateStaysSafe(files, h, endpoint, home, key, i);
      case DoRollback(given, reconcile) => assert Safe(states[1]) by { NoMarkerIsSafe(states[1]); }
    }
  }

  lemma NoMarkerIsSafe(files: Files)
    requires files.marker.Missing?
    ensures Safe(files)
  {
  }

  /** Safety over every run of operations and crashes that starts without a marker and skips the gap. */
  lemma {:induction false} RunsStaySafe(files: Files, events: seq<Event>)
    requires Safe(files) && forall i :: 0 <= i < |events| ==> !StopsInGap(events[i])
    ensures Safe(AfterAll(files, events))
    decreases |events|
  {
    hide After, Safe;
    if events != [] {
      EventStaysSafe(files, events[0]);
      RunsStaySafe(After(files, events[0]), events[1..]);
    }
  }

  /**
   * The gap is real: stopping a rollback there breaks the invariant exactly when a marker stands and
   * the rollback leads to another owner than salt.
   */
  lemma GapIsUnsafeIff(files: Files, given: Dict, reconcile: bool)
    ensures Safe(After(files, Event(DoRollback(given, reconcile), 1))) <==>
            files.marker.Missing? ||
            RecordedOwner(if given == map[] && files.snapshot.Some? then files.snapshot.value else given) ==
              Some("salt")
  {
    hide ReadOwner, RestoreOwner, RecordedOwner;
    var payload := if given == map[] && files.snapshot.Some? then files.snapshot.value else given;
    RecordedIsKnown(payload);
    RestoreReadsBack(RecordedOwner(payload));
  }

  /** The failing side is reached: a rollback cut short behind any first migration away from the runtime. */
  lemma GapBehindMigrate(endpoint: string, home: string, reconcile: bool)
    ensures var files := Files(OwnerFile("runtime"), None, Missing);
            var f := After(files, Event(DoMigrate(WILLING, endpoint, home), 3));
            Safe(files) && Safe(f) && !Safe(After(f, Event(DoRollback(map[], reconcile), 1)))
  {
    hide ReadOwner, RestoreOwner, OwnerFile, RecordedOwner, CompletedMarker, FilledSnapshot;
    OwnerReadsBack("runtime");
    OwnerReadsBack("salt");
    var files := Files(OwnerFile("runtime"), None, Missing);
    var f := After(files, Event(DoMigrate(WILLING, endpoint, home), 3));
    SnapshotOwner(WILLING, Some("runtime"), endpoint, home);
    assert "runtime"[0] != "salt"[0];
    GapIsUnsafeIff(f, map[], reconcile);
  }

  /** Undo: whatever a migrate did, the rollback after it gives the owner back and removes the marker. */
  lemma MigrateThenRollback(files: Files, h: Hooks, endpoint: string, home: string, reconcile: bool)
    requires "owner" !in h.snapshot && Migrate(files, h, endpoint, home).states != []
    ensures var f := Final(files, Migrate(files, h, endpoint, home));
            var g := Final(f, Rollback(f, map[], reconcile));
            ReadOwner(g.owner) == ReadOwner(files.owner) && g.marker.Missing?
  {
    hide Migrate, Rollback, ReadOwner, RecordedOwner;
    var states := Migrate(files, h, endpoint, home).states;
    CrashThenRollbackRestoresOwnerIff(files, h, endpoint, home, |states| - 1, reconcile);
  }
}
