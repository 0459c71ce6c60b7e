/** What a handover leaves for the next one: the snapshot, the marker, and whether a remigrate may run on them. */
module HandoverMarkers {
  import opened Text
  import opened Handover
  import opened HandoverSafety

  // ---------------------------------------------------------------- which hook stopped a migrate

  /** A hook that may stop a migrate: whether it lets it pass, its call, the error, and the steps begun by then. */
  datatype Check = Check(passes: bool, call: Call, error: Error, steps: nat)

  /** The hooks in the order in which they are asked. */
  function Checks(h: Hooks): (r: seq<Check>)
    ensures |r| == 7
  {
    [Check(h.inspect.ok || !h.inspect.hasError, Inspect, InspectError, 1),
      Check(h.verifySalt, VerifySalt, SaltNotReady, 2),
      Check(h.stopGateway, StopGateway, StopGatewayFailed, 4),
      Check(h.disableRuntime, DisableRuntime, DisableRuntimeFailed, 5),
      Check(h.startSaltGateway, StartSaltGateway, SaltGatewayStartFailed, 7),
      Check(h.health, Health, GatewayUnhealthy, 7),
      Check(h.workProbe, WorkProbe, WorkProbeFailed, 8)]
  }

  function FirstFailing(checks: seq<Check>): (i: nat)
    ensures i <= |checks| && (i < |checks| ==> !checks[i].passes) && forall j :: 0 <= j < i ==> checks[j].passes
  {
    if checks == [] || !checks[0].passes then 0 else 1 + FirstFailing(checks[1..])
  }

  function CallsOf(checks: seq<Check>): seq<Call> {
    seq(|checks|, i requires 0 <= i < |checks| => checks[i].call)
  }

  /**
   * A migrate asks the hooks in their order up to the first that fails, with the snapshot taken behind the second,
   * and reports that one; everything is put back if it fails behind the owner switch.
   */
  lemma MigrateStopsAtFirstFailure(files: Files, h: Hooks, endpoint: string, home: string)
    ensures var run, checks := Migrate(files, h, endpoint, home), Checks(h);
            var i := FirstFailing(checks);
            var asked := CallsOf(checks[..if i < 7 then i + 1 else 7]);
            run.calls == (if i < 2 then asked else asked[..2] + [TakeSnapshot] + asked[2..]) +
                         (if 4 <= i < 7 then RESTORE_CALLS else []) &&
            (run.result.ok <==> i == 7) &&
            (i < 7 ==> run.result.error == Some(checks[i].error) && |run.result.steps| == checks[i].steps) &&
            |run.states| == (if i < 2 then 0 else if i < 4 then 1 else 3) &&
            run.result.snapshot == (if i < 2 then map[] else FilledSnapshot(h, ReadOwner(files.owner), endpoint, home))
  {
    hide ReadOwner, FilledSnapshot, CompletedMarker, RestoreOwner, OwnerFile, FirstFailing;
    var run, checks := Migrate(files, h, endpoint, home), Checks(h);
    var i := FirstFailing(checks);
    var asked := CallsOf(checks[..if i < 7 then i + 1 else 7]);
    AskedAre(h, i, asked);
    assert i > 0 ==> checks[0].passes;
    assert i > 1 ==> checks[1].passes;
    assert i > 2 ==> checks[2].passes;
    assert i > 3 ==> checks[3].passes;
    assert i > 4 ==> checks[4].passes;
    assert i > 5 ==> checks[5].passes;
    assert i > 6 ==> checks[6].passes;
  }

  lemma AskedAre(h: Hooks, i: nat, asked: seq<Call>)
    requires i <= 7 && asked == CallsOf(Checks(h)[..if i < 7 then i + 1 else 7])
    ensures asked == [Inspect] + (if i < 1 then [] else [VerifySalt]) + (if i < 2 then [] else [StopGateway]) +
                     (if i < 3 then [] else [DisableRuntime]) + (if i < 4 then [] else [StartSaltGateway]) +
                     (if i < 5 then [] else [Health]) + (if i < 6 then [] else [WorkProbe])
  {
  }

  /** What a rollback calls and answers: healthy or not, it names the owner the file shows afterwards. */
  lemma RollbackTells(files: Files, given: Dict, reconcile: bool)
    ensures var run := Rollback(files, given, reconcile);
            var payload := if given != map[] then given else if files.snapshot.Some? then files.snapshot.value
            else map[];
            run.calls[0] == StopGateway && (RestoreSnapshot in run.calls <==> payload != map[]) &&
            RestoreRuntime in run.calls && run.calls[|run.calls| - 1] == Reconcile &&
            run.result.ok == reconcile && (run.result.error.None? <==> reconcile) &&
            run.result.owner == OwnerJson(ReadOwner(Final(files, run).owner)) && run.result.snapshot == payload
  {
    hide ReadOwner, RestoreOwner, RecordedOwner;
    var payload := if given != map[] then given else if files.snapshot.Some? then files.snapshot.value else map[];
    RecordedIsKnown(payload);
    RestoreReadsBack(RecordedOwner(payload));
    assert Rollback(files, given, reconcile).calls[|Rollback(files, given, reconcile).calls| - 2] == RestoreRuntime;
    if payload != map[] { assert Rollback(files, given, reconcile).calls[1] == RestoreSnapshot; }
  }

  // ---------------------------------------------------------------- what is written

  /**
   * The snapshot on disk: everything the hook supplied, and the owner, the endpoint and the home of this call where it
   * supplied none.
   */
  lemma SnapshotHolds(files: Files, h: Hooks, endpoint: string, home: string, i: nat)
    requires i < |Migrate(files, h, endpoint, home).states|
    ensures var kept := Migrate(files, h, endpoint, home).states[i].snapshot;
            kept.Some? && kept.value.Keys == h.snapshot.Keys + {"owner", "endpoint_id", "hermes_home"} &&
            (forall k :: k in h.snapshot ==> kept.value[k] == h.snapshot[k]) &&
            ("owner" !in h.snapshot ==> kept.value["owner"] == OwnerJson(ReadOwner(files.owner))) &&
            ("endpoint_id" !in h.snapshot ==> kept.value["endpoint_id"] == JText(endpoint)) &&
            ("hermes_home" !in h.snapshot ==>
              kept.value["hermes_home"] == if home != "" then JText(home) else h.inspect.home)
  {
    hide ReadOwner, CompletedMarker, RestoreOwner, OwnerFile;
    KeysDiffer();
    assert "endpoint_id"[0] == 'e' && "hermes_home"[0] == 'h';
  }

  lemma MarkerKeysDiffer()
    ensures "owner" != "status" && "owner" != "endpoint_id" && "owner" != "hermes_home" && "status" != "endpoint_id" &&
            "status" != "hermes_home" && "endpoint_id" != "hermes_home" && "idempotency_key" != "status" &&
            "idempotency_key" != "owner" && "operation" != "owner" && "operation" != "status" &&
            "operation" != "idempotency_key" && "idempotency_key" != "endpoint_id" && "operation" != "endpoint_id" &&
            "idempotency_key" != "hermes_home" && "operation" != "hermes_home" && "COMPLETED" != "REMIGRATE_COMPLETED"
  {
    assert "owner"[1] == 'w' && "operation"[1] == 'p';
    assert "owner"[0] == 'o' && "status"[0] == 's' && "endpoint_id"[0] == 'e' && "hermes_home"[0] == 'h';
    assert "idempotency_key"[0] == 'i' && "operation"[0] == 'o' && "COMPLETED"[0] == 'C';
  }

  /** The marker on disk tells of a completed handover to salt, of this endpoint, with the home of the snapshot. */
  predicate MarksFirst(files: Files, endpoint: string) {
    files.marker.Payload? && files.snapshot.Some? && "hermes_home" in files.snapshot.value &&
    files.marker.entries.Keys == {"endpoint_id", "hermes_home", "owner", "status"} &&
    files.marker.entries["endpoint_id"] == JText(endpoint) &&
    files.marker.entries["hermes_home"] == files.snapshot.value["hermes_home"] &&
    files.marker.entries["owner"] == JText("salt") && files.marker.entries["status"] == JText("COMPLETED")
  }

  lemma MigrateMarks(files: Files, h: Hooks, endpoint: string, home: string)
    requires Migrate(files, h, endpoint, home).result.ok
    ensures var run := Migrate(files, h, endpoint, home); |run.states| == 3 && MarksFirst(run.states[2], endpoint)
    ensures var run := Migrate(files, h, endpoint, home);
            run.states[0].marker == files.marker && run.states[1].marker == files.marker
  {
    hide ReadOwner, RestoreOwner, OwnerFile, FilledSnapshot;
    MarkerKeysDiffer();
    SnapshotHolds(files, h, endpoint, home, 0);
  }

  lemma FailureMarksNothing(files: Files, h: Hooks, endpoint: string, home: string, i: nat)
    requires !Migrate(files, h, endpoint, home).result.ok && i < |Migrate(files, h, endpoint, home).states|
    ensures Migrate(files, h, endpoint, home).states[i].marker == files.marker
  {
    hide ReadOwner, RestoreOwner, OwnerFile, FilledSnapshot, CompletedMarker;
  }

  /** What a successful remigrate adds to that marker, in its fourth write. */
  lemma RemigrateMarks(files: Files, h: Hooks, endpoint: string, home: string, key: Json)
    requires Remigrate(files, h, endpoint, home, key).result.ok
    ensures var run := Remigrate(files, h, endpoint, home, key);
            |run.states| == 4 && MarksFirst(run.states[2], endpoint) && run.states[0].marker == files.marker &&
            run.states[1].marker == files.marker &&
            var m := run.states[3].marker;
            m.Payload? &&
            m.entries == run.states[2].marker.entries["status" := JText("REMIGRATE_COMPLETED")]["idempotency_key" :=
              key]
              ["operation" := JText("remigrate")] &&
            run.result.steps == MIGRATE_STEPS + [Remigrated]
  {
    hide Migrate, MarksFirst;
    MigrateMarks(files, h, endpoint, home);
    MigrateAllOrNothing(files, h, endpoint, home);
    MarkIsPayload(Migrate(files, h, endpoint, home).states[2], endpoint);
    MarkerKeysDiffer();
  }

  lemma MarkIsPayload(files: Files, endpoint: string)
    requires MarksFirst(files, endpoint)
    ensures files.marker.Payload? && "status" in files.marker.entries && "owner" in files.marker.entries &&
            files.marker.entries["status"] == JText("COMPLETED") && files.marker.entries["owner"] == JText("salt")
  {
  }

  // ---------------------------------------------------------------- when a remigrate is refused

  /** A remigrate on these files is refused, whatever it is called with: nothing is called, nothing written. */
  ghost predicate Refuses(files: Files, owner: Json) {
    forall h, endpoint, home, key ::
      Remigrate(files, h, endpoint, home, key) ==
        Run([], [], Result(false, owner, Some(RemigrateRequiresRollback), map[], [Precheck]))
  }

  ghost predicate Allows(files: Files) {
    forall h, endpoint, home, key ::
      Remigrate(files, h, endpoint, home, key).result.error != Some(RemigrateRequiresRollback)
  }

  /** The status the marker shows. */
  function Status(files: Files): Json {
    if files.marker.Payload? && "status" in files.marker.entries then files.marker.entries["status"] else JNull
  }

  lemma StatusDecides(files: Files)
    ensures if Status(files) == JText("COMPLETED")
            then Refuses(files, if "owner" in files.marker.entries then files.marker.entries["owner"] else JNull)
            else Allows(files)
  {
    hide Migrate;
    if Status(files) != JText("COMPLETED") {
      forall h: Hooks, endpoint: string, home: string, key: Json
        ensures Remigrate(files, h, endpoint, home, key).result.error != Some(RemigrateRequiresRollback) {
        RemigrateRefusedIff(files, h, endpoint, home, key);
      }
    }
  }

  /** Behind every successful migrate a remigrate is refused in the name of salt; behind the rollback it is not. */
  lemma RemigrateNeedsRollback(files: Files, h: Hooks, endpoint: string, home: string, given: Dict, reconcile: bool)
    requires Migrate(files, h, endpoint, home).result.ok
    ensures var after := Final(files, Migrate(files, h, endpoint, home));
            Refuses(after, JText("salt")) && Allows(Final(after, Rollback(after, given, reconcile)))
  {
    hide Migrate, Refuses, Allows, RestoreOwner, RecordedOwner, MarksFirst;
    var after := Final(files, Migrate(files, h, endpoint, home));
    MigrateMarks(files, h, endpoint, home);
    MarkIsPayload(after, endpoint);
    StatusDecides(after);
    StatusDecides(Final(after, Rollback(after, given, reconcile)));
  }

  /** Behind a successful remigrate the next one may run. */
  lemma RemigrateMayRepeat(files: Files, h: Hooks, endpoint: string, home: string, key: Json)
    requires Remigrate(files, h, endpoint, home, key).result.ok
    ensures Allows(Final(files, Remigrate(files, h, endpoint, home, key)))
  {
    hide Remigrate, Allows, MarksFirst;
    RemigrateMarks(files, h, endpoint, home, key);
    MarkerKeysDiffer();
    StatusDecides(Final(files, Remigrate(files, h, endpoint, home, key)));
  }

  // ---------------------------------------------------------------- over whole runs

  /** Who wrote the marker last, told from results and from how many writes were made. */
  datatype Writer = Nobody | Plain | Again

  /**
   * The third write of an operation that succeeds is the marker of a plain migrate, the fourth that of a remigrate; the
   * second write of a rollback removes it.
   */
  function WriterAfter(w: Writer, files: Files, e: Event): Writer {
    match e.op
    case DoRollback(_, _) => if e.writes >= 2 then Nobody else w
    case DoMigrate(_, _, _) => if Exec(files, e.op).result.ok && e.writes >= 3 then Plain else w
    case DoRemigrate(_, _, _, _) =>
      if !Exec(files, e.op).result.ok || e.writes < 3 then w else if e.writes == 3 then Plain else Again
  }

  function WriterAfterAll(w: Writer, files: Files, events: seq<Event>): Writer
    decreases |events|
  {
    if events == [] then w else WriterAfterAll(WriterAfter(w, files, events[0]), After(files, events[0]), events[1..])
  }

  predicate ShowsWriter(files: Files, w: Writer) {
    match w
    case Nobody => files.marker.Missing?
    case Plain => Status(files) == JText("COMPLETED") && "owner" in files.marker.entries &&
                  files.marker.entries["owner"] == JText("salt")
    case Again => files.marker.Payload? && Status(files) == JText("REMIGRATE_COMPLETED")
  }

  lemma SameMarkerShows(files: Files, after: Files, w: Writer)
    requires ShowsWriter(files, w) && after.marker == files.marker
    ensures ShowsWriter(after, w)
  {
  }

  lemma EventShowsWriter(files: Files, e: Event, w: Writer)
    requires ShowsWriter(files, w)
    ensures ShowsWriter(After(files, e), WriterAfter(w, files, e))
  {
    hide Migrate, Remigrate, ShowsWriter, RestoreOwner, RecordedOwner, MarksFirst;
    var after := After(files, e);
    match e.op
    case DoRollback(given, reconcile) =>
      if e.writes < 2 { SameMarkerShows(files, after, w); } else { assert after.marker.Missing?; NobodyShows(after); }
    case DoMigrate(h, endpoint, home) => MigrateShowsWriter(files, e, w, h, endpoint, home);
    case DoRemigrate(h, endpoint, home, key) => RemigrateShowsWriter(files, e, w, h, endpoint, home, key);
  }

  lemma NobodyShows(files: Files)
    requires files.marker.Missing?
    ensures ShowsWriter(files, Nobody)
  {
  }

  lemma PlainShows(files: Files, endpoint: string)
    requires MarksFirst(files, endpoint)
    ensures ShowsWriter(files, Plain)
  {
  }

  lemma MigrateShowsWriter(files: Files, e: Event, w: Writer, h: Hooks, endpoint: string, home: string)
    requires ShowsWriter(files, w) && e.op == DoMigrate(h, endpoint, home)
    ensures ShowsWriter(After(files, e), WriterAfter(w, files, e))
  {
    hide Migrate, ShowsWriter, MarksFirst;
    var run, after := Migrate(files, h, endpoint, home), After(files, e);
    if run.result.ok {
      MigrateMarks(files, h, endpoint, home);
      if e.writes >= 3 { PlainShows(after, endpoint); } else { SameMarkerShows(files, after, w); }
    } else {
      if e.writes > 0 && run.states != [] {
        FailureMarksNothing(files, h, endpoint, home,
          if e.writes <= |run.states| then e.writes - 1 else |run.states| - 1);
      }
      SameMarkerShows(files, after, w);
    }
  }

  lemma RemigrateShowsWriter(files: Files, e: Event, w: Writer, h: Hooks, endpoint: string, home: string, key: Json)
    requires ShowsWriter(files, w) && e.op == DoRemigrate(h, endpoint, home, key)
    ensures ShowsWriter(After(files, e), WriterAfter(w, files, e))
  {
    hide Remigrate, ShowsWriter, MarksFirst;
    var run, after := Remigrate(files, h, endpoint, home, key), After(files, e);
    if run.result.ok {
      RemigrateMarks(files, h, endpoint, home, key);
      if e.writes < 3 {
        SameMarkerShows(files, after, w);
      } else if e.writes == 3 {
        PlainShows(after, endpoint);
      } else {
        AgainShows(after);
      }
    } else {
      RemigrateFailureMarksNothing(files, h, endpoint, home, key);
      SameMarkerShows(files, after, w);
    }
  }

  lemma AgainShows(files: Files)
    requires files.marker.Payload? && "status" in files.marker.entries &&
             files.marker.entries["status"] == JText("REMIGRATE_COMPLETED")
    ensures ShowsWriter(files, Again)
  {
  }

  lemma RemigrateFailureMarksNothing(files: Files, h: Hooks, endpoint: string, home: string, key: Json)
    requires !Remigrate(files, h, endpoint, home, key).result.ok
    ensures forall i :: 0 <= i < |Remigrate(files, h, endpoint, home, key).states| ==>
              Remigrate(files, h, endpoint, home, key).states[i].marker == files.marker
  {
    hide Migrate;
    var run := Migrate(files, h, endpoint, home);
    if !run.result.ok {
      forall i | 0 <= i < |run.states| ensures run.states[i].marker == files.marker {
        FailureMarksNothing(files, h, endpoint, home, i);
      }
    }
  }

  lemma {:induction false} RunShowsWriter(files: Files, events: seq<Event>, w: Writer)
    requires ShowsWriter(files, w)
    ensures ShowsWriter(AfterAll(files, events), WriterAfterAll(w, files, events))
    decreases |events|
  {
    hide After, ShowsWriter, WriterAfter;
    if events != [] {
      EventShowsWriter(files, events[0], w);
      RunShowsWriter(After(files, events[0]), events[1..], WriterAfter(w, files, events[0]));
    }
  }

  /**
   * Over every run of operations and crashes from files without a marker: a remigrate is refused, in the name of salt,
   * if and only if the last marker write since the last rollback was that of a plain migrate, or of the migrate inside
   * a remigrate that was cut before its own.
   */
  lemma RefusedIffPlain(files: Files, events: seq<Event>)
    requires files.marker.Missing?
    ensures var after := AfterAll(files, events);
            if WriterAfterAll(Nobody, files, events).Plain? then Refuses(after, JText("salt")) else Allows(after)
  {
    hide Refuses, Allows, AfterAll, WriterAfterAll;
    RunShowsWriter(files, events, Nobody);
    MarkerKeysDiffer();
    StatusDecides(AfterAll(files, events));
  }

  // ---------------------------------------------------------------- the steps reported

  /** A migrate reports its steps in the order they were reached, all nine when it succeeds. */
  lemma StepsInOrder(files: Files, h: Hooks, endpoint: string, home: string)
    ensures var steps := Migrate(files, h, endpoint, home).result.steps;
            var all := [Precheck, SaltReady, HermesAdopted, OldGatewayStopped, RuntimeStopped, OwnerSwitched,
                        SaltGatewayStarted, WorkVerified, Completed];
            steps <= all && (steps == all <==> Migrate(files, h, endpoint, home).result.ok)
  {
    hide FilledSnapshot, CompletedMarker, ReadOwner, RestoreOwner;
  }

  // ---------------------------------------------------------------- the owner file

  /** The text is this owner, in letters of either case and between white space. */
  predicate Spells(text: string, owner: string) {
    SameLetters(Trim(Python, text), owner)
  }

  /** An owner is read from a file exactly when the file names one of the three there are. */
  lemma OwnerIsReadIff(file: JsonFile, owner: string)
    ensures ReadOwner(file) == Some(owner) <==>
            owner in {"salt", "runtime", "direct"} && file.Payload? && "hermes" in file.entries &&
            file.entries["hermes"].JText? && Spells(file.entries["hermes"].text, owner)
  {
    hide Trim, Lower, SameLetters;
    OwnersAreSmall();
    if file.Payload? && "hermes" in file.entries {
      var value := file.entries["hermes"];
      if value.JText? {
        LowerIff(Trim(Python, value.text), owner);
      } else {
        OtherValues();
      }
    } else if file.Payload? {
      NoOwner();
    }
  }

  lemma OwnersAreSmall()
    ensures forall o :: o in OWNERS ==> Lower(o) == o
  {
  }

  lemma OtherValues()
    ensures Lower(Trim(Python, "None")) !in OWNERS && Lower(Trim(Python, "?")) !in OWNERS
  {
    TrimIsIdentityOnTight(Python, "None");
    TrimIsIdentityOnTight(Python, "?");
    assert |Lower("None")| == 4 && |Lower("?")| == 1 && Lower("None")[0] == 'n';
  }

  lemma NoOwner()
    ensures Lower(Trim(Python, "")) !in OWNERS
  {
    assert Lower("") == "";
  }
}
