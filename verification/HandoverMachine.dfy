/** The handover operations on an endpoint whose files they rewrite one at a time. */
module HandoverMachine {
  import opened Text
  import opened Handover

  class Endpoint {
    var owner: JsonFile
    var snapshot: Option<Dict>
    var marker: JsonFile

    /** Hooks called so far, and every durable state since the endpoint came up. */
    var calls: seq<Call>
    ghost var trail: seq<Files>

    constructor (files: Files)
      ensures Durable() == files && calls == [] && trail == []
    {
      owner, snapshot, marker := files.owner, files.snapshot, files.marker;
      calls, trail := [], [];
    }

    /** The files as they stand. */
    function Durable(): (f: Files)
      reads this
    {
      Files(owner, snapshot, marker)
    }

    /** `atomic_write_json(owner_path, ...)` and `owner_path.unlink()` */
    method WriteOwner(file: JsonFile)
      modifies this
      ensures Durable() == old(Durable()).(owner := file)
      ensures trail == old(trail) + [Durable()] && calls == old(calls)
    {
      owner := file;
      trail := trail + [Files(owner, snapshot, marker)];
    }

    method WriteSnapshot(d: Dict)
      modifies this
      ensures Durable() == old(Durable()).(snapshot := Some(d))
      ensures trail == old(trail) + [Durable()] && calls == old(calls)
    {
      snapshot := Some(d);
      trail := trail + [Files(owner, snapshot, marker)];
    }

    method WriteMarker(file: JsonFile)
      modifies this
      ensures Durable() == old(Durable()).(marker := file)
      ensures trail == old(trail) + [Durable()] && calls == old(calls)
    {
      marker := file;
      trail := trail + [Files(owner, snapshot, marker)];
    }

    method Invoke(call: Call)
      modifies this`calls
      ensures calls == old(calls) + [call]
    {
      calls := calls + [call];
    }

    /** `restore_after_owner_switch` */
    method RestoreAfterOwnerSwitch(initial: Option<string>)
      modifies this
      ensures Durable() == old(Durable()).(owner := RestoreOwner(initial))
      ensures trail == old(trail) + [Durable()] && calls == old(calls) + RESTORE_CALLS
    {
      hide RestoreOwner;
      Invoke(RestoreSnapshot);
      Invoke(RestoreRuntime);
      Invoke(Reconcile);
      WriteOwner(RestoreOwner(initial));
    }

    /** `migrate` from the owner switch on. */
    method SwitchOver(h: Hooks, endpoint: string, initial: Option<string>, filled: Dict) returns (r: Result)
      modifies this
      ensures var run := Handover.SwitchOver(old(Durable()), h, endpoint, initial, filled);
              r == run.result && trail == old(trail) + run.states && calls == old(calls) + run.calls &&
              Durable() == Final(old(Durable()), run)
    {
      hide ReadOwner, CompletedMarker, RestoreOwner, OwnerFile, Failure;
      WriteOwner(OwnerFile("salt"));
      Invoke(StartSaltGateway);
      if !h.startSaltGateway {
        RestoreAfterOwnerSwitch(initial);
        return Failure(Durable(), initial, SaltGatewayStartFailed, filled, 7);
      }
      Invoke(Health);
      if !h.health {
        RestoreAfterOwnerSwitch(initial);
        return Failure(Durable(), initial, GatewayUnhealthy, filled, 7);
      }
      Invoke(WorkProbe);
      if !h.workProbe {
        RestoreAfterOwnerSwitch(initial);
        return Failure(Durable(), initial, WorkProbeFailed, filled, 8);
      }
      WriteMarker(Payload(CompletedMarker(endpoint, filled)));
      return Result(true, JText("salt"), None, filled, MIGRATE_STEPS);
    }

    method Migrate(h: Hooks, endpoint: string, home: string) returns (r: Result)
      modifies this
      ensures var run := Handover.Migrate(old(Durable()), h, endpoint, home);
              r == run.result && trail == old(trail) + run.states && calls == old(calls) + run.calls &&
              Durable() == Final(old(Durable()), run)
    {
      hide ReadOwner, FilledSnapshot, Handover.SwitchOver, Failure;
      var initial := ReadOwner(owner);
      Invoke(Inspect);
      if !h.inspect.ok && h.inspect.hasError {
        return Failure(Durable(), initial, InspectError, map[], 1);
      }
      Invoke(VerifySalt);
      if !h.verifySalt {
        return Failure(Durable(), initial, SaltNotReady, map[], 2);
      }
      Invoke(TakeSnapshot);
      var filled := FilledSnapshot(h, initial, endpoint, home);
      WriteSnapshot(filled);
      Invoke(StopGateway);
      if !h.stopGateway {
        return Failure(Durable(), initial, StopGatewayFailed, filled, 4);
      }
      Invoke(DisableRuntime);
      if !h.disableRuntime {
        return Failure(Durable(), initial, DisableRuntimeFailed, filled, 5);
      }
      r := SwitchOver(h, endpoint, initial, filled);
    }

    method Rollback(given: Dict, reconcile: bool) returns (r: Result)
      modifies this
      ensures var run := Handover.Rollback(old(Durable()), given, reconcile);
              r == run.result && trail == old(trail) + run.states && calls == old(calls) + run.calls &&
              Durable() == Final(old(Durable()), run)
    {
      hide RestoreOwner, RecordedOwner;
      var payload := given;
      if payload == map[] && snapshot.Some? {
        payload := snapshot.value;
      }
      Invoke(StopGateway);
      if payload != map[] {
        Invoke(RestoreSnapshot);
      }
      var previous := RecordedOwner(payload);
      WriteOwner(RestoreOwner(previous));
      Invoke(RestoreRuntime);
      Invoke(Reconcile);
      WriteMarker(Missing);
      return Result(reconcile, OwnerJson(previous), if reconcile then None else Some(RollbackHealthFailed), payload,
               ROLLBACK_STEPS);
    }

    method Remigrate(h: Hooks, endpoint: string, home: string, key: Json) returns (r: Result)
      modifies this
      ensures var run := Handover.Remigrate(old(Durable()), h, endpoint, home, key);
              r == run.result && trail == old(trail) + run.states && calls == old(calls) + run.calls &&
              Durable() == Final(old(Durable()), run)
    {
      hide Handover.Migrate, Remarked;
      var existing := if marker.Payload? then marker.entries else map[];
      if "status" in existing && existing["status"] == JText("COMPLETED") {
        return Result(false, if "owner" in existing then existing["owner"] else JNull, Some(RemigrateRequiresRollback),
                 map[], [Precheck]);
      }
      r := Migrate(h, endpoint, home);
      if r.ok {
        var payload := if marker.Payload? then marker.entries else map[];
        WriteMarker(Payload(Remarked(payload, key)));
        r := r.(steps := r.steps + [Remigrated]);
      }
    }
  }
}
