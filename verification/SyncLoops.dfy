/** The loops of the sync engine, each proved to compute the function the theorems are about. */
module SyncLoops {
  import opened Text
  import opened Sync
  import opened SyncParts
  import opened SyncPass

  /** `buildPushBody`: the body, and the parts it reports as not pushed. */
  method BuildPushBody(parts: seq<Part>, v: Values) returns (body: Body, skipped: seq<Part>)
    ensures body == BuildBody(EMPTY_BODY, parts, v)
    ensures forall p :: HasPart(body, p) <==> p in parts && p !in skipped
    ensures forall p :: p in skipped <==> p in parts && IsPartSkipped(p, v)
  {
    body, skipped := EMPTY_BODY, [];
    for i := 0 to |parts|
      invariant BuildBody(body, parts[i..], v) == BuildBody(EMPTY_BODY, parts, v)
      invariant forall p :: HasPart(body, p) <==> p in parts[..i] && p !in skipped
      invariant forall p :: p in skipped <==> p in parts[..i] && IsPartSkipped(p, v)
    {
      var part := parts[i];
      assert parts[..i + 1] == parts[..i] + [part];
      match part
      case Color => body := body.(color := Some(v.color));
      case Soul =>
        if |v.soul| > MAX_SOUL_CHARS {
          skipped := skipped + [part];
        } else {
          body := body.(systemPrompt := Some(OrNull(v.soul)));
        }
      case Memory =>
        if |v.memory| > MAX_MEMORY_CHARS {
          skipped := skipped + [part];
        } else {
          body := body.(memory := Some(OrNull(v.memory)));
        }
      case Config =>
        if v.model != "" {
          body := body.(config := Some((v.model, OrAuto(v.provider))));
        } else {
          skipped := skipped + [part];
        }
    }
  }

  /** The parts to push and to pull of one linked pair. */
  method DecideParts(parts: seq<Part>, local: Values, remote: Values, base: map<Part, PartValue>, t: Times)
    returns (toPush: seq<Part>, toPull: seq<Part>)
    ensures toPush == Choose(parts, Push, local, remote, base, t)
    ensures toPull == Choose(parts, Pull, local, remote, base, t)
  {
    hide Choose, ActionOf;
    toPush, toPull := [], [];
    for i := 0 to |parts|
      invariant toPush + Choose(parts[i..], Push, local, remote, base, t) == Choose(parts, Push, local, remote, base, t)
      invariant toPull + Choose(parts[i..], Pull, local, remote, base, t) == Choose(parts, Pull, local, remote, base, t)
    {
      ChooseOne(toPush, parts, i, Push, local, remote, base, t);
      ChooseOne(toPull, parts, i, Pull, local, remote, base, t);
      match ActionOf(parts[i], local, remote, base, t)
      case Push => toPush := toPush + [parts[i]];
      case Pull => toPull := toPull + [parts[i]];
      case Stay =>
    }
    assert parts[|parts|..] == [];
    ChooseNone(local, remote, base, t);
  }

  lemma ChooseOne(chosen: seq<Part>, parts: seq<Part>, i: nat, action: Action, local: Values, remote: Values,
                  base: map<Part, PartValue>, t: Times)
    requires i < |parts|
    ensures chosen + Choose(parts[i..], action, local, remote, base, t) ==
            (if ActionOf(parts[i], local, remote, base, t) == action then chosen + [parts[i]] else chosen) +
            Choose(parts[i + 1..], action, local, remote, base, t)
  {
    hide ActionOf;
    assert parts[i..][1..] == parts[i + 1..];
  }

  lemma ChooseNone(local: Values, remote: Values, base: map<Part, PartValue>, t: Times)
    ensures forall action :: Choose([], action, local, remote, base, t) == []
  {
    hide ActionOf;
  }

  /** The base to record: what was pulled, what was pushed and not skipped, and what is equal. */
  method RecordBase(parts: seq<Part>, toPush: seq<Part>, toPull: seq<Part>, pushedOk: bool, local: Values,
                    remote: Values,
                    was: map<Part, PartValue>, t: Times)
    returns (base: map<Part, PartValue>)
    requires forall i, j :: 0 <= i < j < |parts| ==> parts[i] != parts[j]
    requires toPush == Choose(parts, Push, local, remote, was, t) &&
             toPull == Choose(parts, Pull, local, remote, was, t)
    ensures base == NextBase(parts, was, local, remote, was, t, pushedOk)
  {
    hide Choose, ActionOf, IsPartSkipped, PartOf;
    base := was;
    for i := 0 to |parts|
      invariant NextBase(parts[i..], base, local, remote, was, t, pushedOk) ==
                  NextBase(parts, was, local, remote, was, t, pushedOk)
      invariant forall j :: i <= j < |parts| ==> BaseOf(base, parts[j]) == BaseOf(was, parts[j])
    {
      var part := parts[i];
      assert parts[i..][1..] == parts[i + 1..];
      ghost var next := BasePart(part, local, remote, was, t, pushedOk);
      ghost var before := base;
      if part in toPull {
        base := base[part := PartOf(remote, part)];
      } else if part in toPush {
        if pushedOk && !IsPartSkipped(part, local) { base := base[part := PartOf(local, part)]; }
      } else {
        base := base[part := PartOf(local, part)];
      }
      assert base == if next.Some? then before[part := next.value] else before by {
        assert BaseOf(before, part) == BaseOf(was, part);
      }
    }
  }

  method FindByName(listing: seq<Agent>, claimed: set<string>, name: string) returns (m: Option<Agent>)
    ensures m == MatchName(listing, claimed, name)
  {
    for i := 0 to |listing|
      invariant MatchName(listing, claimed, name) == MatchName(listing[i..], claimed, name)
    {
      if listing[i].id !in claimed && listing[i].name == name { return Some(listing[i]); }
    }
    return None;
  }

  /** `list.splice(list.indexOf(x), 1)` */
  method StrikeOut(list: seq<string>, x: string, ghost kept: seq<string>, ghost rest: seq<string>)
    returns (r: seq<string>)
    requires list == kept + [x] + rest && x !in kept
    ensures r == kept + rest
  {
    assert forall j :: 0 <= j < |kept| ==> list[j] in kept;
    var i := 0;
    while list[i] != x
      invariant i <= |kept|
      decreases |kept| - i
    {
      assert i < |kept| by { assert list[|kept|] == x; }
      i := i + 1;
    }
    r := list[..i] + list[i + 1..];
  }

  lemma FirstIsNew(s: seq<string>, i: nat)
    requires Distinct(s) && i < |s|
    ensures s[i] !in s[..i] && s[i..] == [s[i]] + s[i + 1..] && s[..i + 1] == s[..i] + [s[i]]
  {
  }

  /** The two stores a pass reads and writes: the profiles of the device and the agents of the account. */
  class Stores {
    var device: Device
    var cloud: Cloud

    constructor (device: Device, cloud: Cloud)
      ensures this.device == device && this.cloud == cloud
    {
      this.device, this.cloud := device, cloud;
    }

    /** First loop: link by stored id, unlink what the console deleted, leave foreign links alone. */
    method LinkStored(profiles: seq<string>, userId: string)
      returns (claimed: set<string>, linked: seq<Link>, unlinked: seq<string>)
      modifies this`device
      ensures Progress(device, cloud, claimed, linked, unlinked) ==
                ClassifyAll(Progress(old(device), cloud, {}, [], []), profiles, userId)
      ensures Distinct(profiles) ==> Distinct(unlinked) && forall q :: q in unlinked ==> q in profiles
    {
      claimed, linked, unlinked := {}, [], [];
      for i := 0 to |profiles|
        invariant ClassifyAll(Progress(device, cloud, claimed, linked, unlinked), profiles[i..], userId) ==
                  ClassifyAll(Progress(old(device), cloud, {}, [], []), profiles, userId)
        invariant forall q :: q in unlinked ==> q in profiles[..i]
        invariant Distinct(profiles) ==> Distinct(unlinked)
      {
        var profile := profiles[i];
        assert profiles[i..][1..] == profiles[i + 1..];
        assert profiles[..i + 1] == profiles[..i] + [profile];
        ghost var g := Progress(device, cloud, claimed, linked, unlinked);
        if profile in device && device[profile].state.Some? {
          var state := device[profile].state.value;
          if IsForeign(state, userId) {
            assert Classify(g, profile, userId) == g;
          } else if state.agentId in cloud {
            claimed := claimed + {state.agentId};
            linked := linked + [Link(profile, state.agentId, state)];
          } else if state.accountId == Some(userId) {
            device := device[profile := WithState(device[profile], None)];
          }
        } else {
          assert Distinct(profiles) ==> profile !in profiles[..i];
          unlinked := unlinked + [profile];
        }
        assert Progress(device, cloud, claimed, linked, unlinked) == Classify(g, profile, userId);
      }
    }

    /** Second loop: walk a copy of the left-over profiles and strike out those an unclaimed name matches. */
    method LinkNames(claimed0: set<string>, linked0: seq<Link>, unlinked0: seq<string>, listing: seq<Agent>,
                     userId: string)
      returns (claimed: set<string>, linked: seq<Link>, unlinked: seq<string>)
      requires Distinct(unlinked0)
      ensures Progress(device, cloud, claimed, linked, unlinked) ==
              LinkAllByName(Progress(device, cloud, claimed0, linked0, []), unlinked0, listing, userId)
    {
      hide MatchName, Distinct;
      claimed, linked, unlinked := claimed0, linked0, unlinked0;
      ghost var kept: seq<string> := [];
      ghost var start := Progress(device, cloud, claimed0, linked0, []);
      for i := 0 to |unlinked0|
        invariant unlinked == kept + unlinked0[i..] && forall q :: q in kept ==> q in unlinked0[..i]
        invariant LinkAllByName(Progress(device, cloud, claimed, linked, kept), unlinked0[i..], listing, userId) ==
                  LinkAllByName(start, unlinked0, listing, userId)
      {
        var profile := unlinked0[i];
        FirstIsNew(unlinked0, i);
        ghost var g, rest := Progress(device, cloud, claimed, linked, kept), unlinked0[i + 1..];
        assert unlinked == kept + [profile] + rest;
        var m: Option<Agent> := None;
        if profile in device { m := FindByName(listing, claimed, device[profile].name); }
        if m.Some? {
          claimed := claimed + {m.value.id};
          linked := linked + [Link(profile, m.value.id, SyncState(m.value.id, Some(userId), m.value.name, map[]))];
          unlinked := StrikeOut(unlinked, profile, kept, rest);
        } else {
          kept := kept + [profile];
        }
        assert Progress(device, cloud, claimed, linked, kept) == LinkByName(g, profile, listing, userId);
      }
      assert unlinked0[|unlinked0|..] == [];
    }

    /** One turn of the reconciliation loop; a thrown request leaves the state file and the pulls undone. */
    method ReconcileLinked(link: Link, env: Env, ghost g: Progress)
      requires g.device == device && g.cloud == cloud
      modifies this
      ensures ReconcileLink(g, link, env) == g.(device := device, cloud := cloud)
    {
      hide Choose, NextBase, BuildBody;
      if link.profile !in device || link.agent !in cloud { return; }
      var profile, agent := device[link.profile], cloud[link.agent];
      var t := TimesOf(env, link.profile);
      var local, remote := LocalParts(profile.values), RemoteParts(agent);
      var toPush, toPull := DecideParts(PARTS, local, remote, link.state.base, t);
      var pushedOk := true;
      if |toPush| > 0 {
        var body, skipped := BuildPushBody(toPush, local);
        if body != EMPTY_BODY {
          var outcome := PatchOf(env, link.agent);
          if outcome.Done? || (outcome.Lost? && outcome.applied) {
            cloud := cloud[link.agent := ApplyBody(agent, body)];
          }
          if outcome.Lost? {
            assert device[link.profile := profile] == device;
            assert !outcome.applied ==> cloud[link.agent := agent] == cloud;
            return;
          }
          pushedOk := outcome.Done?;
        }
      }
      assert toPush == [] ==> BuildBody(EMPTY_BODY, toPush, local) == EMPTY_BODY by { NothingToPush(local); }
      var values := PullParts(profile.values, toPull, remote);
      var base := RecordBase(PARTS, toPush, toPull, pushedOk, local, remote, link.state.base, t);
      device := device[link.profile :=
        profile.(values := values, state := Some(SyncState(agent.id, Some(env.userId), agent.name, base)))];
      assert g.cloud[link.agent := agent] == g.cloud;
    }

    static method PullParts(v: Values, parts: seq<Part>, remote: Values) returns (values: Values)
      ensures values == ApplyPulls(v, parts, remote)
    {
      hide ApplyPull;
      values := v;
      for i := 0 to |parts|
        invariant ApplyPulls(values, parts[i..], remote) == ApplyPulls(v, parts, remote)
      {
        assert parts[i..][1..] == parts[i + 1..];
        values := ApplyPull(values, parts[i], remote);
      }
    }

    static lemma NothingToPush(v: Values)
      ensures BuildBody(EMPTY_BODY, [], v) == EMPTY_BODY
    {
    }

    method ReconcileAllLinked(linked: seq<Link>, env: Env, ghost g: Progress)
      requires g.device == device && g.cloud == cloud
      modifies this
      ensures ReconcileAll(g, linked, env) == g.(device := device, cloud := cloud)
    {
      hide ReconcileLink;
      for i := 0 to |linked|
        invariant ReconcileAll(g.(device := device, cloud := cloud), linked[i..], env) == ReconcileAll(g, linked, env)
      {
        assert linked[i..][1..] == linked[i + 1..];
        ReconcileLinked(linked[i], env, g.(device := device, cloud := cloud));
      }
    }

    /** Third loop: a cloud agent for each profile still left over. */
    method BackUp(unlinked: seq<string>, env: Env, ghost g: Progress)
      requires g.device == device && g.cloud == cloud
      modifies this
      ensures CreateAllRemote(g, unlinked, env) == g.(device := device, cloud := cloud)
    {
      hide CreatedBase, NewAgent;
      for i := 0 to |unlinked|
        invariant CreateAllRemote(g.(device := device, cloud := cloud), unlinked[i..], env) ==
                    CreateAllRemote(g, unlinked, env)
      {
        assert unlinked[i..][1..] == unlinked[i + 1..];
        var profile := unlinked[i];
        if profile in device {
          var local := device[profile];
          match PostOf(env, profile)
          case PostRefused =>
          case PostLost(made) =>
            if made.Some? { cloud := cloud[made.value := NewAgent(made.value, local)]; }
          case Created(id) =>
            var agent := NewAgent(id, local);
            cloud := cloud[id := agent];
            var base := RecordCreated(LocalParts(local.values));
            device := device[profile := WithState(local, Some(SyncState(id, Some(env.userId), agent.name, base)))];
        }
      }
    }

    static method RecordCreated(v: Values) returns (base: map<Part, PartValue>)
      ensures base == CreatedBase(PARTS, map[], v)
    {
      hide IsPartSkipped;
      base := map[];
      for i := 0 to |PARTS|
        invariant CreatedBase(PARTS[i..], base, v) == CreatedBase(PARTS, map[], v)
      {
        assert PARTS[i..] == [PARTS[i]] + PARTS[i + 1..];
        if !IsPartSkipped(PARTS[i], v) { base := base[PARTS[i] := PartOf(v, PARTS[i])]; }
      }
    }

    /** Last loop: a profile for each agent nobody claimed. */
    method PullNew(listing: seq<Agent>, claimed: set<string>, env: Env, ghost g: Progress)
      requires g.device == device && g.cloud == cloud && g.claimed == claimed
      modifies this`device
      ensures CreateAllLocal(g, listing, env) == g.(device := device)
    {
      hide ApplyPulls;
      for i := 0 to |listing|
        invariant CreateAllLocal(g.(device := device), listing[i..], env) == CreateAllLocal(g, listing, env)
      {
        assert listing[i..][1..] == listing[i + 1..];
        var agent := listing[i];
        if agent.id !in claimed && agent.id in env.profiles {
          var made, remote := env.profiles[agent.id], RemoteParts(agent);
          var values := PullParts(made.values, PARTS, remote);
          device := device[made.id :=
            Local(agent.name, values, Some(SyncState(agent.id, Some(env.userId), agent.name, FullBase(remote))))];
        }
      }
    }

    /** `runSyncPass` of a signed-in user, from the arrival of the listings on. */
    method RunSyncPass(profiles: seq<string>, listing: seq<Agent>, env: Env)
      requires Distinct(profiles)
      modifies this
      ensures var r := RunPass(old(device), old(cloud), profiles, listing, env); device == r.device && cloud == r.cloud
    {
      hide ClassifyAll, LinkAllByName, ReconcileAll, CreateAllRemote, CreateAllLocal;
      var claimed, linked, unlinked := LinkStored(profiles, env.userId);
      claimed, linked, unlinked := LinkNames(claimed, linked, unlinked, listing, env.userId);
      ghost var g := Progress(device, cloud, claimed, linked, unlinked);
      assert g == Linked(old(device), old(cloud), profiles, listing, env.userId);
      ReconcileAllLinked(linked, env, g);
      ghost var h := g.(device := device, cloud := cloud);
      BackUp(unlinked, env, h);
      PullNew(listing, claimed, env, h.(device := device, cloud := cloud));
    }
  }
}
