/** Convergence of whole passes: a clean pass leaves every linked pair equal on all parts, and the next pass is idle. */
module SyncConverges {
  import opened Text
  import opened Sync
  import opened SyncParts
  import opened SyncRuns
  import opened SyncPass
  import opened SyncLinks

  /** Profile and agent are linked by this account, equal on all four parts, and the recorded base says so. */
  ghost predicate Agrees(device: Device, cloud: Cloud, q: string, x: string, userId: string) {
    q in device && x in cloud && cloud[x].id == x && device[q].state.Some? &&
    PairAgrees(Pair(device[q], cloud[x]), userId)
  }

  ghost predicate PairAgrees(pair: Pair, userId: string) {
    IsLinked(pair) && StateOf(pair).agentId == pair.agent.id && StateOf(pair).accountId == Some(userId) &&
    StateOf(pair).remoteName == pair.agent.name && forall p :: InSync(At(pair, p))
  }

  lemma AgreesOwns(device: Device, cloud: Cloud, q: string, x: string, userId: string)
    requires Agrees(device, cloud, q, x, userId)
    ensures Owns(device, q, x, userId)
  {
  }

  // ---------------------------------------------------------------- reconciling

  /** The pair as if the state it is reconciled from were stored already. */
  function Stamped(pair: Pair, s: SyncState): Pair {
    pair.(local := pair.local.(state := Some(s)))
  }

  lemma StampDoesNotMatter(pair: Pair, s: SyncState, userId: string, t: Times, outcome: Outcome)
    requires !outcome.Lost?
    ensures Reconcile(pair, s, userId, t, outcome) == Do(Stamped(pair, s), Pass(t, outcome), userId)
  {
    hide Choose, BuildBody, NextBase, ApplyPulls, ApplyBody;
  }

  lemma StampedShape(pair: Pair, s: SyncState, userId: string, t: Times, outcome: Outcome)
    requires !outcome.Lost?
    ensures var after := Reconcile(pair, s, userId, t, outcome);
            IsLinked(after) && StateOf(after).agentId == pair.agent.id == after.agent.id &&
            StateOf(after).accountId == Some(userId) &&
            StateOf(after).remoteName == pair.agent.name == after.agent.name
  {
    hide Choose, BuildBody, NextBase, ApplyPulls;
  }

  /** An answered, unobstructed reconciliation leaves the pair in agreement. */
  lemma PairConverges(pair: Pair, s: SyncState, userId: string, t: Times)
    requires Unobstructed(Stamped(pair, s), t)
    ensures PairAgrees(Reconcile(pair, s, userId, t, Done), userId)
  {
    hide Unobstructed, Reconcile, InSync;
    StampDoesNotMatter(pair, s, userId, t, Done);
    StampedShape(pair, s, userId, t, Done);
    OnePassConverges(Stamped(pair, s), t, t, Done, userId);
  }

  /** A link whose request will be answered and whose parts can all move. */
  ghost predicate Ready(g: Progress, l: Link, env: Env) {
    l.profile in g.device && l.agent in g.cloud && g.cloud[l.agent].id == l.agent && PatchOf(env, l.agent) == Done &&
    Unobstructed(Stamped(Pair(g.device[l.profile], g.cloud[l.agent]), l.state), TimesOf(env, l.profile))
  }

  lemma ReconcileAgrees(g: Progress, l: Link, env: Env)
    requires Ready(g, l, env)
    ensures var r := ReconcileLink(g, l, env);
            Agrees(r.device, r.cloud, l.profile, l.agent, env.userId) && r.device.Keys == g.device.Keys &&
            r.cloud.Keys == g.cloud.Keys &&
            (forall q :: q in g.device && q != l.profile ==> r.device[q] == g.device[q]) &&
            (forall x :: x in g.cloud && x != l.agent ==> r.cloud[x] == g.cloud[x])
  {
    hide Reconcile, Unobstructed, PairAgrees, TimesOf;
    var pair := Pair(g.device[l.profile], g.cloud[l.agent]);
    PairConverges(pair, l.state, env.userId, TimesOf(env, l.profile));
    var after := Reconcile(pair, l.state, env.userId, TimesOf(env, l.profile), Done);
    StampedShape(pair, l.state, env.userId, TimesOf(env, l.profile), Done);
    assert Pair(after.local, after.agent) == after;
  }

  /** What is outside the links is as it was. */
  ghost predicate OnlyLinks(g: Progress, r: Progress, links: seq<Link>) {
    r.device.Keys == g.device.Keys && r.cloud.Keys == g.cloud.Keys &&
    (forall q :: q in g.device && q !in Profiles(links) ==> r.device[q] == g.device[q]) &&
    (forall x :: x in g.cloud && x !in Agents(links) ==> r.cloud[x] == g.cloud[x])
  }

  lemma ProfilesTail(links: seq<Link>)
    requires links != []
    ensures Profiles(links) == Profiles(links[1..]) + {links[0].profile}
  {
    var rest := links[1..];
    forall x | x in Profiles(links) ensures x in Profiles(rest) + {links[0].profile} {
      var i :| 0 <= i < |links| && links[i].profile == x;
      if i > 0 { assert rest[i - 1].profile == x; }
    }
    forall x | x in Profiles(rest) ensures x in Profiles(links) {
      var i :| 0 <= i < |rest| && rest[i].profile == x;
      assert links[i + 1].profile == x;
    }
  }

  lemma AgentsTail(links: seq<Link>)
    requires links != []
    ensures Agents(links) == Agents(links[1..]) + {links[0].agent}
  {
    var rest := links[1..];
    forall x | x in Agents(links) ensures x in Agents(rest) + {links[0].agent} {
      var i :| 0 <= i < |links| && links[i].agent == x;
      if i > 0 { assert rest[i - 1].agent == x; }
    }
    forall x | x in Agents(rest) ensures x in Agents(links) {
      var i :| 0 <= i < |rest| && rest[i].agent == x;
      assert links[i + 1].agent == x;
    }
  }

  lemma TailApart(links: seq<Link>)
    requires links != [] && PairwiseApart(links)
    ensures PairwiseApart(links[1..]) && links[0].profile !in Profiles(links[1..]) &&
            links[0].agent !in Agents(links[1..])
    ensures Profiles(links) == Profiles(links[1..]) + {links[0].profile} &&
            Agents(links) == Agents(links[1..]) + {links[0].agent}
  {
    ProfilesTail(links);
    AgentsTail(links);
    var rest := links[1..];
    forall i | 0 <= i < |rest|
      ensures rest[i] == links[i + 1] && rest[i].profile != links[0].profile && rest[i].agent != links[0].agent {}
  }

  lemma ReadyStays(g: Progress, r: Progress, l: Link, env: Env)
    requires Ready(g, l, env) && r.device.Keys == g.device.Keys && r.cloud.Keys == g.cloud.Keys
    requires r.device[l.profile] == g.device[l.profile] && r.cloud[l.agent] == g.cloud[l.agent]
    ensures Ready(r, l, env)
  {
    hide Unobstructed;
  }

  lemma {:induction false} AllLinksAgree(g: Progress, links: seq<Link>, env: Env)
    requires PairwiseApart(links) && forall i :: 0 <= i < |links| ==> Ready(g, links[i], env)
    ensures var r := ReconcileAll(g, links, env);
            OnlyLinks(g, r, links) && forall i :: 0 <= i < |links| ==>
              Agrees(r.device, r.cloud, links[i].profile, links[i].agent, env.userId)
    decreases |links|
  {
    hide ReconcileLink, PatchOf, TimesOf, Unobstructed, PairAgrees;
    if links != [] {
      var l, rest, h := links[0], links[1..], ReconcileLink(g, links[0], env);
      ReconcileAgrees(g, l, env);
      TailApart(links);
      forall i | 0 <= i < |rest| ensures Ready(h, rest[i], env) {
        assert rest[i] == links[i + 1] && Ready(g, rest[i], env);
        ReadyStays(g, h, rest[i], env);
      }
      AllLinksAgree(h, rest, env);
      var r := ReconcileAll(h, rest, env);
      assert r.device[l.profile] == h.device[l.profile] && r.cloud[l.agent] == h.cloud[l.agent];
      forall i | 0 <= i < |links| ensures Agrees(r.device, r.cloud, links[i].profile, links[i].agent, env.userId) {
        if i > 0 { assert rest[i - 1] == links[i]; }
      }
    }
  }

  // ---------------------------------------------------------------- creating agents

  ghost predicate NoneSkipped(v: Values) {
    forall p :: !IsPartSkipped(p, LocalParts(v))
  }

  lemma {:induction false} CreatedBaseParts(parts: seq<Part>, next: map<Part, PartValue>, v: Values, p: Part)
    ensures BaseOf(CreatedBase(parts, next, v), p) ==
              if p in parts && !IsPartSkipped(p, v) then Some(PartOf(v, p)) else BaseOf(next, p)
    decreases |parts|
  {
    hide IsPartSkipped, PartOf;
    if parts != [] {
      CreatedBaseParts(parts[1..], if IsPartSkipped(parts[0], v) then next else next[parts[0] := PartOf(v, parts[0])],
        v, p);
    }
  }

  lemma NewAgentParts(id: string, l: Local, p: Part)
    requires NoneSkipped(l.values)
    ensures PartOf(RemoteParts(NewAgent(id, l)), p) == PartOf(LocalParts(l.values), p) && NewAgent(id, l).id == id
  {
    hide BuildBody, PartOf, IsPartSkipped, RemoteParts;
    EveryPart(p);
    NewAgentHasId(id, l);
    var blank := Agent(id, if |l.name| > MAX_NAME_CHARS then l.name[..MAX_NAME_CHARS] else l.name, "", None, None, "",
      "");
    ReadUndoesPush(blank, PARTS, LocalParts(l.values), p);
  }

  /** The backup of a profile none of whose parts is skipped leaves the pair in agreement. */
  lemma BackupAgrees(g: Progress, profile: string, env: Env, id: string)
    requires profile in g.device && PostOf(env, profile) == Created(id) && NoneSkipped(g.device[profile].values)
    ensures var r := CreateRemote(g, profile, env);
            Agrees(r.device, r.cloud, profile, id, env.userId) && r.claimed == g.claimed &&
            r.cloud.Keys == g.cloud.Keys + {id} &&
            r.device.Keys == g.device.Keys &&
            (forall q :: q in g.device && q != profile ==> r.device[q] == g.device[q]) &&
            (forall x :: x in g.cloud && x != id ==> r.cloud[x] == g.cloud[x])
  {
    hide NewAgent, CreatedBase, PartOf, NoneSkipped;
    var l := g.device[profile];
    var r := CreateRemote(g, profile, env);
    var pair := Pair(r.device[profile], r.cloud[id]);
    NewAgentHasId(id, l);
    forall p ensures InSync(At(pair, p)) {
      NewAgentParts(id, l, p);
      CreatedBaseParts(PARTS, map[], LocalParts(l.values), p);
      EveryPart(p);
      assert !IsPartSkipped(p, LocalParts(l.values)) by { SkippedIsNot(l.values, p); }
    }
  }

  lemma SkippedIsNot(v: Values, p: Part)
    requires NoneSkipped(v)
    ensures !IsPartSkipped(p, LocalParts(v))
  {
  }

  /** Each left-over profile is backed up under an identifier of its own that the cloud does not hold yet. */
  ghost predicate BackupsReady(g: Progress, rest: seq<string>, env: Env) {
    Distinct(rest) &&
    (forall i :: 0 <= i < |rest| ==>
      rest[i] in g.device && NoneSkipped(g.device[rest[i]].values) && PostOf(env, rest[i]).Created?) &&
    (forall i :: 0 <= i < |rest| && PostOf(env, rest[i]).Created? ==> PostOf(env, rest[i]).id !in g.cloud) &&
    forall i, j :: 0 <= i < j < |rest| && PostOf(env, rest[i]).Created? && PostOf(env, rest[j]).Created? ==>
      PostOf(env, rest[i]).id != PostOf(env, rest[j]).id
  }

  ghost predicate OnlyProfiles(g: Progress, r: Progress, rest: seq<string>) {
    r.claimed == g.claimed && r.device.Keys == g.device.Keys && g.cloud.Keys <= r.cloud.Keys &&
    (forall q :: q in g.device && q !in rest ==> r.device[q] == g.device[q]) &&
    forall x :: x in g.cloud ==> r.cloud[x] == g.cloud[x]
  }

  lemma {:induction false} AllBackupsAgree(g: Progress, rest: seq<string>, env: Env)
    requires BackupsReady(g, rest, env)
    ensures var r := CreateAllRemote(g, rest, env);
            OnlyProfiles(g, r, rest) &&
            forall i :: 0 <= i < |rest| ==>
              PostOf(env, rest[i]).Created? && Agrees(r.device, r.cloud, rest[i], PostOf(env, rest[i]).id, env.userId)
    decreases |rest|
  {
    hide CreateRemote, PostOf, NoneSkipped, PairAgrees;
    if rest != [] {
      var q, tail, h := rest[0], rest[1..], CreateRemote(g, rest[0], env);
      var id := PostOf(env, q).id;
      BackupAgrees(g, q, env, id);
      assert forall i :: 0 <= i < |tail| ==> tail[i] == rest[i + 1];
      assert BackupsReady(h, tail, env);
      AllBackupsAgree(h, tail, env);
      var r := CreateAllRemote(h, tail, env);
      assert q !in tail && r.device[q] == h.device[q] && r.cloud[id] == h.cloud[id];
      forall i | 0 <= i < |rest|
        ensures PostOf(env, rest[i]).Created? &&
        Agrees(r.device, r.cloud, rest[i], PostOf(env, rest[i]).id, env.userId) {
        if i > 0 { assert tail[i - 1] == rest[i]; }
      }
    }
  }

  // ---------------------------------------------------------------- creating profiles

  ghost predicate AllStick(a: Agent) {
    forall p :: Sticks(p, RemoteParts(a))
  }

  lemma FullBaseParts(v: Values, p: Part)
    ensures BaseOf(FullBase(v), p) == Some(PartOf(v, p))
  {
  }

  lemma RemoteHasProvider(a: Agent)
    ensures RemoteParts(a).provider != ""
  {
  }

  /** A profile made for an agent all of whose parts can be written agrees with it. */
  lemma NewProfileAgrees(g: Progress, a: Agent, env: Env)
    requires a.id !in g.claimed && a.id in env.profiles && a.id in g.cloud && g.cloud[a.id] == a && AllStick(a)
    ensures var r := CreateLocal(g, a, env);
            var q := env.profiles[a.id].id;
            Agrees(r.device, r.cloud, q, a.id, env.userId) && r.cloud == g.cloud && r.claimed == g.claimed &&
            r.device.Keys == g.device.Keys + {q} &&
            forall p :: p in g.device && p != q ==> r.device[p] == g.device[p]
  {
    hide ApplyPulls, PartOf, FullBase, Sticks, RemoteParts;
    var made, remote, r := env.profiles[a.id], RemoteParts(a), CreateLocal(g, a, env);
    var pair := Pair(r.device[made.id], r.cloud[a.id]);
    RemoteHasProvider(a);
    forall p ensures InSync(At(pair, p)) {
      EveryPart(p);
      assert Sticks(p, remote);
      PullParts(made.values, PARTS, remote, p);
      FullBaseParts(remote, p);
    }
  }

  /** The agents still to come are in the cloud as listed, and those nobody claimed get a new profile. */
  ghost predicate PullsReady(g: Progress, listing: seq<Agent>, env: Env) {
    DistinctIds(listing) && FreshProfiles(g.device, listing, env) &&
    forall i :: 0 <= i < |listing| && listing[i].id !in g.claimed ==>
      listing[i].id in env.profiles && listing[i].id in g.cloud && g.cloud[listing[i].id] == listing[i] &&
      AllStick(listing[i])
  }

  lemma {:induction false} AllPullsAgree(g: Progress, listing: seq<Agent>, env: Env)
    requires PullsReady(g, listing, env)
    ensures var r := CreateAllLocal(g, listing, env);
            r.cloud == g.cloud && g.device.Keys <= r.device.Keys &&
            (forall q :: q in g.device ==> r.device[q] == g.device[q]) &&
            (forall i :: 0 <= i < |listing| && listing[i].id !in g.claimed ==>
              listing[i].id in env.profiles &&
              Agrees(r.device, r.cloud, env.profiles[listing[i].id].id, listing[i].id, env.userId)) &&
            forall q :: q in r.device && q !in g.device ==>
              exists i :: 0 <= i < |listing| && listing[i].id !in g.claimed && listing[i].id in env.profiles &&
                q == env.profiles[listing[i].id].id
    decreases |listing|
  {
    hide CreateLocal, AllStick, PairAgrees;
    if listing != [] {
      var a, tail, h := listing[0], listing[1..], CreateLocal(g, listing[0], env);
      assert forall i :: 0 <= i < |tail| ==> tail[i] == listing[i + 1];
      if a.id in g.claimed {
        ClaimedIsSkipped(g, a, env);
      } else {
        NewProfileAgrees(g, a, env);
      }
      assert PullsReady(h, tail, env);
      AllPullsAgree(h, tail, env);
      var r := CreateAllLocal(h, tail, env);
      forall i | 0 <= i < |listing| && listing[i].id !in g.claimed
        ensures listing[i].id in env.profiles &&
                Agrees(r.device, r.cloud, env.profiles[listing[i].id].id, listing[i].id, env.userId) {
        if i > 0 { assert tail[i - 1] == listing[i]; }
      }
      forall q | q in r.device && q !in g.device
        ensures exists i :: 0 <= i < |listing| && listing[i].id !in g.claimed && listing[i].id in env.profiles &&
                  q == env.profiles[listing[i].id].id {
        if q in h.device {
          assert listing[0].id !in g.claimed && q == env.profiles[listing[0].id].id;
        } else {
          var i :| 0 <= i < |tail| && tail[i].id !in h.claimed && tail[i].id in env.profiles &&
          q == env.profiles[tail[i].id].id;
          assert listing[i + 1] == tail[i];
        }
      }
    }
  }

  lemma ClaimedIsSkipped(g: Progress, a: Agent, env: Env)
    requires a.id in g.claimed
    ensures CreateLocal(g, a, env) == g
  {
  }

  // ---------------------------------------------------------------- the pass

  /** Every request of the pass is answered well, and nothing that has to move is skipped or unwritable. */
  ghost predicate Unhindered(device: Device, cloud: Cloud, profiles: seq<string>, listing: seq<Agent>, env: Env) {
    var g := Linked(device, cloud, profiles, listing, env.userId);
    (forall i :: 0 <= i < |g.linked| ==> Ready(g, g.linked[i], env)) &&
    (forall i :: 0 <= i < |g.unlinked| ==>
      g.unlinked[i] in g.device && NoneSkipped(g.device[g.unlinked[i]].values) &&
      PostOf(env, g.unlinked[i]).Created?) &&
    forall i :: 0 <= i < |listing| && listing[i].id !in g.claimed ==>
      listing[i].id in env.profiles && AllStick(listing[i])
  }

  lemma BackupsAreReady(device: Device, cloud: Cloud, profiles: seq<string>, listing: seq<Agent>, env: Env, h: Progress)
    requires Sound(device, cloud, profiles, listing, env) && Unhindered(device, cloud, profiles, listing, env)
    requires var g := Linked(device, cloud, profiles, listing, env.userId);
             OnlyLinks(g, h, g.linked) && h.cloud.Keys == cloud.Keys && Distinct(g.unlinked) &&
             forall q :: q in g.unlinked ==> q !in Profiles(g.linked)
    ensures BackupsReady(h, Linked(device, cloud, profiles, listing, env.userId).unlinked, env)
  {
    hide Linked, LinksTo, Ready, NoneSkipped, AllStick, Listed, FreshProfiles;
    var rest := Linked(device, cloud, profiles, listing, env.userId).unlinked;
    forall i | 0 <= i < |rest| ensures PostOf(env, rest[i]).Created? && PostOf(env, rest[i]).id !in h.cloud {
      assert PostMakes(env, rest[i], PostOf(env, rest[i]).id);
    }
    forall i, j | 0 <= i < j < |rest| ensures PostOf(env, rest[i]).id != PostOf(env, rest[j]).id {
      assert PostMakes(env, rest[i], PostOf(env, rest[i]).id) && PostMakes(env, rest[j], PostOf(env, rest[j]).id);
    }
  }

  lemma PullsAreReady(device: Device, cloud: Cloud, profiles: seq<string>, listing: seq<Agent>, env: Env, k: Progress)
    requires Sound(device, cloud, profiles, listing, env) && Unhindered(device, cloud, profiles, listing, env)
    requires var g := Linked(device, cloud, profiles, listing, env.userId);
             k.claimed == g.claimed && k.device.Keys == device.Keys &&
             forall x :: x in cloud && x !in g.claimed ==> x in k.cloud && k.cloud[x] == cloud[x]
    ensures PullsReady(k, listing, env)
  {
    hide Linked, LinksTo, Ready, NoneSkipped, AllStick, PostMakes, Unused;
    ListedIds(device, cloud, profiles, listing);
    assert forall i :: 0 <= i < |listing| ==> listing[i] in listing;
  }

  /** The three stages of an unhindered pass, and what agrees after each. */
  lemma StagesAgree(device: Device, cloud: Cloud, profiles: seq<string>, listing: seq<Agent>, env: Env)
    requires Sound(device, cloud, profiles, listing, env) && NoSharing(device, env.userId) &&
             Unhindered(device, cloud, profiles, listing, env)
    ensures var g := Linked(device, cloud, profiles, listing, env.userId);
            var r := RunPass(device, cloud, profiles, listing, env);
            (forall i :: 0 <= i < |g.linked| ==>
              Agrees(r.device, r.cloud, g.linked[i].profile, g.linked[i].agent, env.userId)) &&
            (forall i :: 0 <= i < |g.unlinked| ==>
              PostOf(env, g.unlinked[i]).Created? &&
              Agrees(r.device, r.cloud, g.unlinked[i], PostOf(env, g.unlinked[i]).id, env.userId)) &&
            (forall i :: 0 <= i < |listing| && listing[i].id !in g.claimed ==>
              listing[i].id in env.profiles &&
              Agrees(r.device, r.cloud, env.profiles[listing[i].id].id, listing[i].id, env.userId)) &&
            (forall q :: q in g.device && q !in Profiles(g.linked) && q !in g.unlinked ==>
              q in r.device && r.device[q] == g.device[q]) &&
            (forall q :: q in r.device && q !in device ==>
              exists i :: 0 <= i < |listing| && listing[i].id !in g.claimed && listing[i].id in env.profiles &&
                q == env.profiles[listing[i].id].id)
  {
    hide Linked, ReconcileAll, CreateAllRemote, CreateAllLocal, LinksTo, Ready, NoneSkipped, AllStick, Sound,
         Unhindered, PairAgrees, NoSharing, PostOf;
    hide LinkOk, IsForeign, PostMakes;
    var userId := env.userId;
    var g := Linked(device, cloud, profiles, listing, userId);
    LinkedFacts(device, cloud, profiles, listing, env);
    AllLinksAgree(g, g.linked, env);
    var h := ReconcileAll(g, g.linked, env);
    Stages(device, cloud, profiles, listing, env);
    BackupsAreReady(device, cloud, profiles, listing, env, h);
    AllBackupsAgree(h, g.unlinked, env);
    var k := CreateAllRemote(h, g.unlinked, env);
    assert h.claimed == g.claimed by { ClaimsKept(g, h, userId); }
    PullsAreReady(device, cloud, profiles, listing, env, k);
    AllPullsAgree(k, listing, env);
    var r := CreateAllLocal(k, listing, env);
    forall i | 0 <= i < |g.linked| ensures Agrees(r.device, r.cloud, g.linked[i].profile, g.linked[i].agent, userId) {
      assert g.linked[i].profile in Profiles(g.linked);
      StillAgrees(h, k, g.linked[i].profile, g.linked[i].agent, userId);
      StillAgrees(k, r, g.linked[i].profile, g.linked[i].agent, userId);
    }
    forall i | 0 <= i < |g.unlinked|
      ensures PostOf(env, g.unlinked[i]).Created? &&
      Agrees(r.device, r.cloud, g.unlinked[i], PostOf(env, g.unlinked[i]).id, userId) {
      StillAgrees(k, r, g.unlinked[i], PostOf(env, g.unlinked[i]).id, userId);
    }
  }

  lemma ClaimsKept(g: Progress, h: Progress, userId: string)
    requires LinksGrow(g, h, userId)
    ensures h.claimed == g.claimed
  {
    hide LinksTo, Owns, IsForeign;
  }

  lemma StillAgrees(a: Progress, b: Progress, q: string, x: string, userId: string)
    requires Agrees(a.device, a.cloud, q, x, userId)
    requires q in b.device && b.device[q] == a.device[q] && x in b.cloud && b.cloud[x] == a.cloud[x]
    ensures Agrees(b.device, b.cloud, q, x, userId)
  {
    hide PairAgrees;
  }

  lemma LinkedFacts(device: Device, cloud: Cloud, profiles: seq<string>, listing: seq<Agent>, env: Env)
    requires Sound(device, cloud, profiles, listing, env) && NoSharing(device, env.userId) &&
             Unhindered(device, cloud, profiles, listing, env)
    ensures var g := Linked(device, cloud, profiles, listing, env.userId);
            PairwiseApart(g.linked) && (forall i :: 0 <= i < |g.linked| ==> Ready(g, g.linked[i], env)) &&
            Distinct(g.unlinked) && (forall q :: q in g.unlinked ==> q !in Profiles(g.linked)) &&
            g.claimed == Agents(g.linked) &&
            g.cloud == cloud && g.device.Keys == device.Keys
  {
    hide Linked, LinksTo, Ready, NoneSkipped, AllStick, IsForeign, LinkOk, PostMakes, Unused;
    LinkedIsByName(device, cloud, profiles, listing, env.userId);
    var g := Linked(device, cloud, profiles, listing, env.userId);
    assert g.unlinked + [] == g.unlinked;
  }

  /** After an unhindered pass every profile linked by this account agrees with its agent on all four parts. */
  lemma UnhinderedPassConverges(device: Device, cloud: Cloud, profiles: seq<string>, listing: seq<Agent>, env: Env)
    requires Sound(device, cloud, profiles, listing, env) && NoSharing(device, env.userId) &&
             Unhindered(device, cloud, profiles, listing, env)
    ensures var r := RunPass(device, cloud, profiles, listing, env);
            (forall x :: x in r.cloud ==> exists q :: Agrees(r.device, r.cloud, q, x, env.userId)) &&
            forall q, x :: Owns(r.device, q, x, env.userId) ==> Agrees(r.device, r.cloud, q, x, env.userId)
  {
    hide RunPass, Linked, ReconcileAll, CreateAllRemote, LinksTo, Ready, Sound, Unhindered, Agrees, NoSharing,
         PostMakes, PostOf, Owns, LinkOk, PatchOf;
    var userId := env.userId;
    var g := Linked(device, cloud, profiles, listing, userId);
    var r := RunPass(device, cloud, profiles, listing, env);
    StagesAgree(device, cloud, profiles, listing, env);
    LinkedFacts(device, cloud, profiles, listing, env);
    EveryPassKeepsLinksApart(device, cloud, profiles, listing, env);
    OneOwner(r.device, userId);
    forall x | x in r.cloud ensures exists q :: Agrees(r.device, r.cloud, q, x, userId) {
      SomebodyAgrees(device, cloud, profiles, listing, env, x);
    }
    forall q, x | Owns(r.device, q, x, userId) ensures Agrees(r.device, r.cloud, q, x, userId) {
      var p :| Agrees(r.device, r.cloud, p, x, userId);
      AgreesOwns(r.device, r.cloud, p, x, userId);
    }
  }

  lemma SomebodyAgrees(device: Device, cloud: Cloud, profiles: seq<string>, listing: seq<Agent>, env: Env, x: string)
    requires Sound(device, cloud, profiles, listing, env) && NoSharing(device, env.userId) &&
             Unhindered(device, cloud, profiles, listing, env)
    requires x in RunPass(device, cloud, profiles, listing, env).cloud
    ensures exists q :: Agrees(RunPass(device, cloud, profiles, listing, env).device,
              RunPass(device, cloud, profiles, listing, env).cloud, q, x, env.userId)
  {
    hide RunPass, Linked, ReconcileAll, CreateAllRemote, LinksTo, Ready, Unhindered, Agrees, NoSharing, PostOf, Owns,
         LinkOk, PatchOf, Sound, PostMakes;
    var g := Linked(device, cloud, profiles, listing, env.userId);
    StagesAgree(device, cloud, profiles, listing, env);
    LinkedFacts(device, cloud, profiles, listing, env);
    Stages(device, cloud, profiles, listing, env);
    SoundIsListed(device, cloud, profiles, listing, env);
    ListedIds(device, cloud, profiles, listing);
    if x !in cloud {
      var i :| 0 <= i < |g.unlinked| && PostMakes(env, g.unlinked[i], x);
      CreatedMakes(env, g.unlinked[i], x);
    } else if x in g.claimed {
      var i :| 0 <= i < |g.linked| && g.linked[i].agent == x;
      assert Agrees(RunPass(device, cloud, profiles, listing, env).device,
               RunPass(device, cloud, profiles, listing, env).cloud, g.linked[i].profile, x, env.userId);
    } else {
      var i :| 0 <= i < |listing| && listing[i].id == x;
      assert Agrees(RunPass(device, cloud, profiles, listing, env).device,
               RunPass(device, cloud, profiles, listing, env).cloud, env.profiles[x].id, x, env.userId);
    }
  }

  lemma CreatedMakes(env: Env, profile: string, x: string)
    requires PostMakes(env, profile, x) && PostOf(env, profile).Created?
    ensures PostOf(env, profile).id == x
  {
    hide PostOf;
  }
}
