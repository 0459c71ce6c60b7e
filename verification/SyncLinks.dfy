/** Links between profiles and agents: never two profiles on one agent, and a bijection when nothing fails. */
module SyncLinks {
  import opened Text
  import opened Sync
  import opened SyncPass

  /** A stored link the signed-in account may act on: its own, or one without an owner record. */
  predicate IsEligible(l: Local, userId: string) {
    l.state.Some? && !IsForeign(l.state.value, userId)
  }

  /** Profile `q` holds an eligible link to agent `x`. */
  predicate LinksTo(device: Device, q: string, x: string, userId: string) {
    q in device && IsEligible(device[q], userId) && device[q].state.value.agentId == x
  }

  /** Profile `q` holds this account's own link to agent `x`. */
  predicate Owns(device: Device, q: string, x: string, userId: string) {
    q in device && device[q].state.Some? && device[q].state.value.accountId == Some(userId) &&
    device[q].state.value.agentId == x
  }

  /** No two eligible links lead to one agent. */
  ghost predicate NoSharing(device: Device, userId: string) {
    forall q, r, x :: LinksTo(device, q, x, userId) && LinksTo(device, r, x, userId) ==> q == r
  }

  /** Foreign links are as they were. */
  ghost predicate ForeignUntouched(before: Device, after: Device, userId: string) {
    forall q :: q in before && before[q].state.Some? && IsForeign(before[q].state.value, userId) ==>
      q in after && after[q] == before[q]
  }

  ghost predicate HasNoState(device: Device, q: string) {
    q in device && device[q].state.None?
  }

  function Agents(links: seq<Link>): set<string> { set i | 0 <= i < |links| :: links[i].agent }

  function Profiles(links: seq<Link>): set<string> { set i | 0 <= i < |links| :: links[i].profile }

  /** A link that can be reconciled: its profile is on it already or on nothing, and nobody else is on its agent. */
  ghost predicate LinkOk(device: Device, cloud: Cloud, l: Link, userId: string) {
    l.profile in device && l.agent in cloud &&
    (device[l.profile].state.None? || LinksTo(device, l.profile, l.agent, userId)) &&
    forall q :: LinksTo(device, q, l.agent, userId) ==> q == l.profile
  }

  ghost predicate PairwiseApart(links: seq<Link>) {
    forall i, j :: 0 <= i < j < |links| ==> links[i].profile != links[j].profile && links[i].agent != links[j].agent
  }

  ghost predicate LinksOk(device: Device, cloud: Cloud, links: seq<Link>, userId: string) {
    PairwiseApart(links) && forall i :: 0 <= i < |links| ==> LinkOk(device, cloud, links[i], userId)
  }

  lemma LinksOkSnoc(device: Device, cloud: Cloud, links: seq<Link>, l: Link, userId: string)
    requires LinksOk(device, cloud, links, userId) && LinkOk(device, cloud, l, userId)
    requires l.profile !in Profiles(links) && l.agent !in Agents(links)
    ensures LinksOk(device, cloud, links + [l], userId)
    ensures Agents(links + [l]) == Agents(links) + {l.agent} && Profiles(links + [l]) == Profiles(links) + {l.profile}
  {
    hide LinkOk;
    var r := links + [l];
    assert r[|links|] == l && forall i :: 0 <= i < |links| ==> r[i] == links[i];
    forall x | x in Agents(links) + {l.agent} ensures x in Agents(r) {
      if x in Agents(links) { var i :| 0 <= i < |links| && links[i].agent == x; assert r[i].agent == x; }
    }
    forall x | x in Profiles(links) + {l.profile} ensures x in Profiles(r) {
      if x in Profiles(links) { var i :| 0 <= i < |links| && links[i].profile == x; assert r[i].profile == x; }
    }
  }

  // ---------------------------------------------------------------- the linking loops

  /** Eligible links of the seen profiles to the agents listed are claimed, and own links lead into the cloud. */
  ghost predicate SeenAreClaimed(g: Progress, seen: set<string>, listed: set<string>, userId: string) {
    (forall q, x :: q in seen && x in listed && LinksTo(g.device, q, x, userId) ==> x in g.claimed) &&
    (forall q, x :: q in seen && Owns(g.device, q, x, userId) ==> x in g.cloud)
  }

  ghost predicate Unsynced(device: Device, profiles: seq<string>) {
    Distinct(profiles) && forall i :: 0 <= i < |profiles| ==> HasNoState(device, profiles[i])
  }

  /** After the first loop has seen the profiles in `seen`. */
  ghost predicate Classified(g: Progress, seen: set<string>, userId: string) {
    NoSharing(g.device, userId) && LinksOk(g.device, g.cloud, g.linked, userId) && g.claimed == Agents(g.linked) &&
    Profiles(g.linked) <= seen && SeenAreClaimed(g, seen, g.cloud.Keys, userId) &&
    (forall q :: q in Profiles(g.linked) ==> q in g.device && g.device[q].state.Some?) &&
    Unsynced(g.device, g.unlinked) && forall q :: q in g.unlinked ==> q in seen
  }

  lemma ClassifyUnsynced(g: Progress, profile: string, seen: set<string>, userId: string)
    requires Classified(g, seen, userId) && profile in g.device && profile !in seen && g.device[profile].state.None?
    ensures Classified(g.(unlinked := g.unlinked + [profile]), seen + {profile}, userId)
  {
    hide LinksOk, NoSharing;
  }

  lemma ClassifyLinked(g: Progress, profile: string, s: SyncState, seen: set<string>, userId: string)
    requires Classified(g, seen, userId) && profile in g.device && profile !in seen
    requires g.device[profile].state == Some(s) && !IsForeign(s, userId) && s.agentId in g.cloud
    ensures Classified(g.(claimed := g.claimed + {s.agentId}, linked := g.linked + [Link(profile, s.agentId, s)]),
              seen + {profile}, userId)
  {
    hide LinksOk, IsForeign;
    var l := Link(profile, s.agentId, s);
    assert LinksTo(g.device, profile, s.agentId, userId);
    assert l.agent !in Agents(g.linked) by { AgentsHaveTheirProfiles(g, profile, s.agentId, userId); }
    LinksOkSnoc(g.device, g.cloud, g.linked, l, userId);
  }

  lemma AgentsHaveTheirProfiles(g: Progress, profile: string, x: string, userId: string)
    requires LinksOk(g.device, g.cloud, g.linked, userId) && LinksTo(g.device, profile, x, userId) &&
             profile !in Profiles(g.linked)
    ensures x !in Agents(g.linked)
  {
    forall i | 0 <= i < |g.linked| ensures g.linked[i].agent != x {
      assert LinkOk(g.device, g.cloud, g.linked[i], userId);
      assert g.linked[i].profile in Profiles(g.linked);
    }
  }

  /** Dropping the link of a profile that is not in any link of the pass. */
  lemma ClassifyUnlinked(g: Progress, profile: string, seen: set<string>, userId: string)
    requires Classified(g, seen, userId) && profile in g.device && profile !in seen
    ensures Classified(g.(device := g.device[profile := WithState(g.device[profile], None)]), seen + {profile}, userId)
  {
    hide IsForeign;
    var r := g.(device := g.device[profile := WithState(g.device[profile], None)]);
    assert forall q, y :: LinksTo(r.device, q, y, userId) ==> LinksTo(g.device, q, y, userId);
    forall i | 0 <= i < |g.linked| ensures LinkOk(r.device, r.cloud, g.linked[i], userId) {
      assert LinkOk(g.device, g.cloud, g.linked[i], userId);
      assert g.linked[i].profile in Profiles(g.linked);
      assert LinksTo(g.device, g.linked[i].profile, g.linked[i].agent, userId) ==>
               LinksTo(r.device, g.linked[i].profile, g.linked[i].agent, userId);
    }
  }

  lemma ClassifySkipped(g: Progress, profile: string, s: SyncState, seen: set<string>, userId: string)
    requires Classified(g, seen, userId) && profile in g.device && profile !in seen &&
             g.device[profile].state == Some(s)
    requires IsForeign(s, userId) || (s.agentId !in g.cloud && s.accountId != Some(userId))
    ensures Classified(g, seen + {profile}, userId)
  {
    hide LinksOk, NoSharing;
  }

  lemma ClassifyOne(g: Progress, profile: string, seen: set<string>, userId: string)
    requires Classified(g, seen, userId) && profile in g.device && profile !in seen
    ensures var r := Classify(g, profile, userId);
            Classified(r, seen + {profile}, userId) && r.cloud == g.cloud && r.device.Keys == g.device.Keys &&
            ForeignUntouched(g.device, r.device, userId) &&
            forall q, x :: LinksTo(r.device, q, x, userId) ==> LinksTo(g.device, q, x, userId)
  {
    hide Classified, IsForeign;
    var local := g.device[profile];
    if local.state.None? {
      ClassifyUnsynced(g, profile, seen, userId);
    } else {
      var s := local.state.value;
      if IsForeign(s, userId) {
        ClassifySkipped(g, profile, s, seen, userId);
      } else if s.agentId in g.cloud {
        ClassifyLinked(g, profile, s, seen, userId);
      } else if s.accountId == Some(userId) {
        ClassifyUnlinked(g, profile, seen, userId);
      } else {
        ClassifySkipped(g, profile, s, seen, userId);
      }
    }
  }

  lemma {:induction false} ClassifyRun(g: Progress, profiles: seq<string>, seen: set<string>, userId: string)
    requires Classified(g, seen, userId) && Distinct(profiles)
    requires forall p :: p in profiles ==> p in g.device && p !in seen
    ensures var r := ClassifyAll(g, profiles, userId);
            Classified(r, seen + (set p | p in profiles), userId) && r.cloud == g.cloud &&
            r.device.Keys == g.device.Keys &&
            ForeignUntouched(g.device, r.device, userId) &&
            forall q, x :: LinksTo(r.device, q, x, userId) ==> LinksTo(g.device, q, x, userId)
    decreases |profiles|
  {
    hide Classified, Classify, IsForeign, LinksTo;
    if profiles == [] {
      assert seen + (set p | p in profiles) == seen;
    } else {
      var p := profiles[0];
      assert p in profiles;
      var h := Classify(g, p, userId);
      ClassifyOne(g, p, seen, userId);
      assert forall q :: q in profiles[1..] ==> q in profiles && q != p;
      ClassifyRun(h, profiles[1..], seen + {p}, userId);
      assert seen + {p} + (set q | q in profiles[1..]) == seen + (set q | q in profiles);
    }
  }

  /** During the second loop, with `rest` still to come. */
  ghost predicate ByName(g: Progress, rest: seq<string>, userId: string) {
    NoSharing(g.device, userId) && LinksOk(g.device, g.cloud, g.linked, userId) && g.claimed == Agents(g.linked) &&
    SeenAreClaimed(g, g.device.Keys, g.cloud.Keys, userId) && Unsynced(g.device, g.unlinked + rest) &&
    forall q :: q in g.unlinked + rest ==> q !in Profiles(g.linked)
  }

  lemma DropFromMiddle(a: seq<string>, x: string, b: seq<string>)
    requires Distinct(a + ([x] + b))
    ensures Distinct(a + b) && x !in a + b && x in a + ([x] + b) && forall q :: q in a + b ==> q in a + ([x] + b)
  {
    var all, fewer := a + ([x] + b), a + b;
    assert all[|a|] == x;
    forall j | 0 <= j < |fewer| ensures fewer[j] in all && fewer[j] != x {
      assert fewer[j] == all[if j < |a| then j else j + 1];
    }
    forall i, j | 0 <= i < j < |fewer| ensures fewer[i] != fewer[j] {
      assert fewer[i] == all[if i < |a| then i else i + 1] && fewer[j] == all[if j < |a| then j else j + 1];
    }
  }

  lemma UnsyncedSubset(device: Device, all: seq<string>, fewer: seq<string>)
    requires Unsynced(device, all) && Distinct(fewer) && forall q :: q in fewer ==> q in all
    ensures Unsynced(device, fewer)
  {
    forall i | 0 <= i < |fewer| ensures HasNoState(device, fewer[i]) {
      assert fewer[i] in all;
    }
  }

  lemma NameLinked(g: Progress, profile: string, rest: seq<string>, a: Agent, s: SyncState, userId: string)
    requires ByName(g, [profile] + rest, userId) && a.id in g.cloud && a.id !in g.claimed
    ensures ByName(g.(claimed := g.claimed + {a.id}, linked := g.linked + [Link(profile, a.id, s)]), rest, userId)
  {
    hide LinksOk, IsForeign, Distinct;
    var all, fewer := g.unlinked + ([profile] + rest), g.unlinked + rest;
    assert Distinct(all);
    DropFromMiddle(g.unlinked, profile, rest);
    UnsyncedSubset(g.device, all, fewer);
    assert HasNoState(g.device, profile);
    var l := Link(profile, a.id, s);
    assert LinkOk(g.device, g.cloud, l, userId);
    LinksOkSnoc(g.device, g.cloud, g.linked, l, userId);
  }

  lemma NameOne(g: Progress, profile: string, rest: seq<string>, listing: seq<Agent>, userId: string)
    requires ByName(g, [profile] + rest, userId) && forall a :: a in listing ==> a.id in g.cloud
    ensures var r := LinkByName(g, profile, listing, userId);
            ByName(r, rest, userId) && r.device == g.device && r.cloud == g.cloud
  {
    hide NoSharing, LinksOk, LinksTo, Owns;
    var all := g.unlinked + ([profile] + rest);
    assert all[|g.unlinked|] == profile;
    var m := MatchName(listing, g.claimed, g.device[profile].name);
    if m.None? {
      assert g.unlinked + [profile] + rest == all;
    } else {
      NameLinked(g, profile, rest, m.value, SyncState(m.value.id, Some(userId), m.value.name, map[]), userId);
    }
  }

  lemma {:induction false} NameRun(g: Progress, profiles: seq<string>, listing: seq<Agent>, userId: string)
    requires ByName(g, profiles, userId) && forall a :: a in listing ==> a.id in g.cloud
    ensures var r := LinkAllByName(g, profiles, listing, userId);
            ByName(r, [], userId) && r.device == g.device && r.cloud == g.cloud
    decreases |profiles|
  {
    hide ByName, LinkByName;
    if profiles != [] {
      assert profiles == [profiles[0]] + profiles[1..];
      NameOne(g, profiles[0], profiles[1..], listing, userId);
      NameRun(LinkByName(g, profiles[0], listing, userId), profiles[1..], listing, userId);
    }
  }

  lemma ClassifiedToByName(g: Progress, userId: string)
    requires Classified(g, g.device.Keys, userId)
    ensures ByName(g.(unlinked := []), g.unlinked, userId)
  {
    hide NoSharing, LinksOk, IsForeign;
    assert [] + g.unlinked == g.unlinked;
  }

  /** What the listings of a pass are: all profiles, and all agents, each once. */
  ghost predicate Listed(device: Device, cloud: Cloud, profiles: seq<string>, listing: seq<Agent>) {
    Distinct(profiles) && (forall p :: p in profiles <==> p in device) &&
    (forall i, j :: 0 <= i < j < |listing| ==> listing[i].id != listing[j].id) &&
    (forall a :: a in listing ==> a.id in cloud && cloud[a.id] == a) &&
    (forall x :: x in cloud ==> cloud[x] in listing && cloud[x].id == x)
  }

  lemma LinkedIsByName(device: Device, cloud: Cloud, profiles: seq<string>, listing: seq<Agent>, userId: string)
    requires Listed(device, cloud, profiles, listing) && NoSharing(device, userId)
    ensures var g := Linked(device, cloud, profiles, listing, userId);
            ByName(g, [], userId) && g.cloud == cloud && g.device.Keys == device.Keys &&
            ForeignUntouched(device, g.device, userId) &&
            forall q, x :: LinksTo(g.device, q, x, userId) ==> LinksTo(device, q, x, userId)
  {
    hide ByName, ClassifyAll, LinkAllByName, LinksTo, IsForeign;
    var start := Progress(device, cloud, {}, [], []);
    assert Classified(start, {}, userId);
    ClassifyRun(start, profiles, {}, userId);
    var g := ClassifyAll(start, profiles, userId);
    assert {} + (set p | p in profiles) == device.Keys;
    ClassifiedToByName(g, userId);
    NameRun(g.(unlinked := []), g.unlinked, listing, userId);
  }

  // ---------------------------------------------------------------- reconciling the links

  /** What holds between the linking loops and the end, with some links and some listed agents still to come. */
  ghost predicate Steady(g: Progress, links: seq<Link>, listed: set<string>, userId: string) {
    NoSharing(g.device, userId) && LinksOk(g.device, g.cloud, links, userId) &&
    SeenAreClaimed(g, g.device.Keys, listed, userId) && listed <= g.cloud.Keys &&
    forall x :: x in g.cloud ==> g.cloud[x].id == x
  }

  /** Nothing of this account's is lost: own links stay, foreign ones are untouched, new ones lead into the cloud. */
  ghost predicate LinksGrow(before: Progress, after: Progress, userId: string) {
    ForeignUntouched(before.device, after.device, userId) &&
    after.claimed == before.claimed && before.cloud.Keys <= after.cloud.Keys &&
    before.device.Keys <= after.device.Keys &&
    (forall q, x :: Owns(before.device, q, x, userId) ==> Owns(after.device, q, x, userId)) &&
    forall q, x :: LinksTo(after.device, q, x, userId) ==> LinksTo(before.device, q, x, userId) || x in after.cloud
  }

  lemma LinksGrowTwice(a: Progress, b: Progress, c: Progress, userId: string)
    requires LinksGrow(a, b, userId) && LinksGrow(b, c, userId)
    ensures LinksGrow(a, c, userId)
  {
    hide Owns, LinksTo, IsForeign;
    assert ForeignUntouched(a.device, c.device, userId) by {
      hide LinksTo;
      assert ForeignUntouched(a.device, b.device, userId) && ForeignUntouched(b.device, c.device, userId);
    }
  }

  lemma ReconcileShape(pair: Pair, s: SyncState, userId: string, t: Times, outcome: Outcome)
    ensures var after := Reconcile(pair, s, userId, t, outcome);
            after.agent.id == pair.agent.id && after.local.name == pair.local.name &&
            (after.local.state == pair.local.state ||
             (after.local.state.Some? && after.local.state.value.agentId == pair.agent.id &&
               after.local.state.value.accountId == Some(userId)))
    ensures !outcome.Lost? ==>
              (var state := Reconcile(pair, s, userId, t, outcome).local.state;
               state.Some? && state.value.accountId == Some(userId) && state.value.agentId == pair.agent.id)
  {
    hide Choose, BuildBody, NextBase, ApplyPulls;
  }

  /** Giving a profile its own link to an agent nobody else is on. */
  lemma NewLinkKeeps(device: Device, q: string, l: Local, x: string, userId: string)
    requires NoSharing(device, userId) && (forall r :: LinksTo(device, r, x, userId) ==> r == q)
    requires q in device && device[q].state.Some? ==> LinksTo(device, q, x, userId)
    requires l.state.Some? && l.state.value.agentId == x && l.state.value.accountId == Some(userId)
    ensures var after := device[q := l];
            NoSharing(after, userId) && ForeignUntouched(device, after, userId) && Owns(after, q, x, userId) &&
            (forall r, y :: LinksTo(after, r, y, userId) ==> LinksTo(device, r, y, userId) || (r == q && y == x)) &&
            (forall r, y :: Owns(after, r, y, userId) ==> Owns(device, r, y, userId) || (r == q && y == x)) &&
            (forall r, y :: Owns(device, r, y, userId) ==> Owns(after, r, y, userId))
  {
    var after := device[q := l];
    forall r, y | LinksTo(after, r, y, userId) ensures LinksTo(device, r, y, userId) || (r == q && y == x) {
      assert r != q ==> after[r] == device[r];
    }
    forall r, y | Owns(device, r, y, userId) ensures Owns(after, r, y, userId) {
      assert LinksTo(device, r, y, userId);
      assert r == q ==> y == x;
    }
  }

  /** Writing values to a profile without touching its state. */
  lemma SameStateKeeps(device: Device, q: string, l: Local, userId: string)
    requires NoSharing(device, userId) && q in device && l.state == device[q].state
    requires device[q].state.None? || !IsForeign(device[q].state.value, userId)
    ensures var after := device[q := l];
            NoSharing(after, userId) && ForeignUntouched(device, after, userId) &&
            (forall r, y :: LinksTo(after, r, y, userId) <==> LinksTo(device, r, y, userId)) &&
            (forall r, y :: Owns(after, r, y, userId) <==> Owns(device, r, y, userId))
  {
    hide IsForeign;
    var after := device[q := l];
    forall r, y ensures LinksTo(after, r, y, userId) <==> LinksTo(device, r, y, userId) {
      assert r in device && r != q ==> after[r] == device[r];
    }
  }

  lemma ReconcileDevice(g: Progress, l: Link, env: Env)
    requires NoSharing(g.device, env.userId) && LinkOk(g.device, g.cloud, l, env.userId) &&
             g.cloud[l.agent].id == l.agent
    ensures var r := ReconcileLink(g, l, env);
            NoSharing(r.device, env.userId) && ForeignUntouched(g.device, r.device, env.userId) &&
            (forall q, y :: LinksTo(r.device, q, y, env.userId) ==>
              LinksTo(g.device, q, y, env.userId) || (q == l.profile && y == l.agent)) &&
            (forall q, y :: Owns(r.device, q, y, env.userId) ==>
              Owns(g.device, q, y, env.userId) || (q == l.profile && y == l.agent)) &&
            (forall q, y :: Owns(g.device, q, y, env.userId) ==> Owns(r.device, q, y, env.userId)) &&
            (!PatchOf(env, l.agent).Lost? ==> Owns(r.device, l.profile, l.agent, env.userId))
    ensures var r := ReconcileLink(g, l, env);
            r.device.Keys == g.device.Keys && r.cloud.Keys == g.cloud.Keys && r.cloud[l.agent].id == l.agent &&
            (forall q :: q in g.device && q != l.profile ==> r.device[q] == g.device[q]) &&
            (forall x :: x in g.cloud && x != l.agent ==> r.cloud[x] == g.cloud[x])
  {
    hide Reconcile, Owns, IsForeign;
    var userId := env.userId;
    ReconcileShape(Pair(g.device[l.profile], g.cloud[l.agent]), l.state, userId, TimesOf(env, l.profile),
      PatchOf(env, l.agent));
    var r := ReconcileLink(g, l, env);
    var local := r.device[l.profile];
    if local.state.Some? && local.state.value.agentId == l.agent && local.state.value.accountId == Some(userId) {
      NewLinkKeeps(g.device, l.profile, local, l.agent, userId);
    } else {
      SameStateKeeps(g.device, l.profile, local, userId);
    }
  }

  lemma ReconcileOne(g: Progress, links: seq<Link>, listed: set<string>, env: Env)
    requires links != [] && Steady(g, links, listed, env.userId) && links[0].agent in g.claimed
    ensures var r := ReconcileLink(g, links[0], env);
            Steady(r, links[1..], listed, env.userId) && LinksGrow(g, r, env.userId) &&
            r.cloud.Keys == g.cloud.Keys && r.device.Keys == g.device.Keys && r.unlinked == g.unlinked &&
            (forall q :: q in g.device && q != links[0].profile ==> r.device[q] == g.device[q]) &&
            (!PatchOf(env, links[0].agent).Lost? ==> Owns(r.device, links[0].profile, links[0].agent, env.userId))
  {
    hide Owns, IsForeign, LinksTo, LinkOk, PatchOf;
    var l, r, userId := links[0], ReconcileLink(g, links[0], env), env.userId;
    assert LinkOk(g.device, g.cloud, l, userId);
    assert l.agent in g.cloud && l.profile in g.device by { LinkInside(g, l, userId); }
    ReconcileDevice(g, l, env);
    assert r.claimed == g.claimed && r.unlinked == g.unlinked by { hide Reconcile; }
    RestStaysOk(g, r, links, userId);
    OwnsStayInside(g, r, l, listed, userId);
  }

  lemma LinkInside(g: Progress, l: Link, userId: string)
    requires LinkOk(g.device, g.cloud, l, userId)
    ensures l.agent in g.cloud && l.profile in g.device
  {
    hide LinksTo;
  }

  lemma OwnsStayInside(g: Progress, r: Progress, l: Link, listed: set<string>, userId: string)
    requires SeenAreClaimed(g, g.device.Keys, listed, userId) && l.agent in g.claimed && l.agent in g.cloud
    requires r.claimed == g.claimed && r.cloud.Keys == g.cloud.Keys && r.device.Keys == g.device.Keys
    requires forall q, y :: LinksTo(r.device, q, y, userId) ==>
               LinksTo(g.device, q, y, userId) || (q == l.profile && y == l.agent)
    requires forall q, y :: Owns(r.device, q, y, userId) ==>
               Owns(g.device, q, y, userId) || (q == l.profile && y == l.agent)
    ensures SeenAreClaimed(r, r.device.Keys, listed, userId)
  {
    hide Owns, LinksTo;
  }

  lemma RestStaysOk(g: Progress, r: Progress, links: seq<Link>, userId: string)
    requires links != [] && LinksOk(g.device, g.cloud, links, userId)
    requires r.device.Keys == g.device.Keys && r.cloud.Keys == g.cloud.Keys
    requires forall q :: q in g.device && q != links[0].profile ==> r.device[q] == g.device[q]
    requires forall q, y :: LinksTo(r.device, q, y, userId) ==>
               LinksTo(g.device, q, y, userId) || (q == links[0].profile && y == links[0].agent)
    ensures LinksOk(r.device, r.cloud, links[1..], userId)
  {
    hide LinksTo, LinkOk;
    forall i | 0 <= i < |links[1..]| ensures LinkOk(r.device, r.cloud, links[1..][i], userId) {
      var m := links[i + 1];
      assert LinkOk(g.device, g.cloud, m, userId);
      assert m.profile != links[0].profile && m.agent != links[0].agent;
      LinkInside(g, m, userId);
      LinkStaysOk(g, r, links[0], m, userId);
    }
  }

  lemma LinkStaysOk(g: Progress, r: Progress, l: Link, m: Link, userId: string)
    requires LinkOk(g.device, g.cloud, m, userId) && m.profile != l.profile && m.agent != l.agent
    requires r.device.Keys == g.device.Keys && r.cloud.Keys == g.cloud.Keys && m.profile in g.device &&
             r.device[m.profile] == g.device[m.profile]
    requires forall q, y :: LinksTo(r.device, q, y, userId) ==>
               LinksTo(g.device, q, y, userId) || (q == l.profile && y == l.agent)
    ensures LinkOk(r.device, r.cloud, m, userId)
  {
    hide IsForeign;
  }

  lemma {:induction false} ReconcileRun(g: Progress, links: seq<Link>, listed: set<string>, env: Env)
    requires Steady(g, links, listed, env.userId) && forall i :: 0 <= i < |links| ==> links[i].agent in g.claimed
    ensures var r := ReconcileAll(g, links, env);
            Steady(r, [], listed, env.userId) && LinksGrow(g, r, env.userId) &&
            r.cloud.Keys == g.cloud.Keys && r.device.Keys == g.device.Keys && r.unlinked == g.unlinked &&
            (forall q :: q in g.device && q !in Profiles(links) ==> r.device[q] == g.device[q]) &&
            forall i :: 0 <= i < |links| && !PatchOf(env, links[i].agent).Lost? ==>
              Owns(r.device, links[i].profile, links[i].agent, env.userId)
    decreases |links|
  {
    hide ReconcileLink, Owns, IsForeign, Steady, PatchOf, LinksTo;
    if links == [] {
      assert links == [];
      assert LinksGrow(g, g, env.userId);
    } else {
      var h := ReconcileLink(g, links[0], env);
      ReconcileOne(g, links, listed, env);
      ReconcileRun(h, links[1..], listed, env);
      var r := ReconcileAll(g, links, env);
      LinksGrowTwice(g, h, r, env.userId);
      forall q | q in g.device && q !in Profiles(links) ensures r.device[q] == g.device[q] {
        assert links[0].profile in Profiles(links);
        assert forall i :: 0 <= i < |links[1..]| ==> links[1..][i] == links[i + 1];
        assert q !in Profiles(links[1..]);
      }
      assert forall i :: 0 < i < |links| ==> links[i] == links[1..][i - 1];
    }
  }

  // ---------------------------------------------------------------- creating cloud agents

  predicate PostMakes(env: Env, profile: string, x: string) {
    PostOf(env, profile) == Created(x) || PostOf(env, profile) == PostLost(Some(x))
  }

  /** An identifier nobody links to and the cloud does not hold. */
  ghost predicate Unused(device: Device, cloud: Cloud, x: string, userId: string) {
    x !in cloud && forall q :: !LinksTo(device, q, x, userId)
  }

  /** The backend hands out unused identifiers, a different one to each request. */
  ghost predicate FreshPosts(g: Progress, rest: seq<string>, env: Env) {
    (forall i, x :: 0 <= i < |rest| && PostMakes(env, rest[i], x) ==> Unused(g.device, g.cloud, x, env.userId)) &&
    (forall i, j, x :: 0 <= i < j < |rest| && PostMakes(env, rest[i], x) ==> !PostMakes(env, rest[j], x))
  }

  lemma NewAgentHasId(id: string, l: Local)
    ensures NewAgent(id, l).id == id
  {
    hide BuildBody;
  }

  /** The backup loop made agent `id` for `profile`, and linked them unless the answer was lost. */
  ghost predicate AgentMade(g: Progress, r: Progress, profile: string, id: string, env: Env) {
    PostMakes(env, profile, id) && r.cloud.Keys == g.cloud.Keys + {id} && r.cloud[id].id == id &&
    (forall x :: x in g.cloud && x != id ==> r.cloud[x] == g.cloud[x]) &&
    (if PostOf(env, profile).Created? then MadeOwn(g.device, r.device, profile, id, env.userId)
        else r.device == g.device)
  }

  lemma CreateRemoteShape(g: Progress, profile: string, env: Env)
    requires HasNoState(g.device, profile)
    ensures var r := CreateRemote(g, profile, env);
            r.claimed == g.claimed && r.unlinked == g.unlinked && r.linked == g.linked &&
            forall id :: PostMakes(env, profile, id) ==> AgentMade(g, r, profile, id, env)
    ensures (forall id :: !PostMakes(env, profile, id)) ==> CreateRemote(g, profile, env) == g
  {
    hide CreatedBase, NewAgent;
    match PostOf(env, profile)
    case PostRefused =>
    case PostLost(made) =>
      if made.Some? {
        NewAgentHasId(made.value, g.device[profile]);
        assert PostMakes(env, profile, made.value);
      }
    case Created(id) =>
      NewAgentHasId(id, g.device[profile]);
      assert PostMakes(env, profile, id);
      var r := CreateRemote(g, profile, env);
      assert r.device == g.device[profile := r.device[profile]];
  }

  /** `after` is `device` with an own link of `q` to `x`. */
  ghost predicate MadeOwn(device: Device, after: Device, q: string, x: string, userId: string) {
    q in after && after == device[q := after[q]] && after[q].state.Some? &&
    after[q].state.value.agentId == x && after[q].state.value.accountId == Some(userId)
  }

  lemma MadeOwnKeeps(device: Device, after: Device, q: string, x: string, userId: string)
    requires MadeOwn(device, after, q, x, userId) && NoSharing(device, userId)
    requires (q in device ==> HasNoState(device, q)) && forall r :: !LinksTo(device, r, x, userId)
    ensures NoSharing(after, userId) && ForeignUntouched(device, after, userId) && Owns(after, q, x, userId)
    ensures forall r, y :: LinksTo(after, r, y, userId) ==> LinksTo(device, r, y, userId) || (r == q && y == x)
    ensures forall r, y :: Owns(after, r, y, userId) ==> Owns(device, r, y, userId) || (r == q && y == x)
    ensures forall r, y :: Owns(device, r, y, userId) ==> Owns(after, r, y, userId)
    ensures after.Keys == device.Keys + {q}
  {
    hide IsForeign, LinksTo, Owns;
    NewLinkKeeps(device, q, after[q], x, userId);
  }

  /** The backup loop's new agent and link keep the loop's invariant. */
  lemma CreatedIsSteady(g: Progress, r: Progress, listed: set<string>, profile: string, id: string, userId: string)
    requires Steady(g, [], listed, userId) && Unused(g.device, g.cloud, id, userId) && HasNoState(g.device, profile)
    requires r.claimed == g.claimed && r.cloud.Keys == g.cloud.Keys + {id} && r.cloud[id].id == id
    requires forall x :: x in g.cloud && x != id ==> r.cloud[x] == g.cloud[x]
    requires r.device == g.device || MadeOwn(g.device, r.device, profile, id, userId)
    ensures Steady(r, [], listed, userId) && LinksGrow(g, r, userId) && r.device.Keys == g.device.Keys
    ensures MadeOwn(g.device, r.device, profile, id, userId) ==> Owns(r.device, profile, id, userId)
    ensures forall q, x :: LinksTo(r.device, q, x, userId) ==> LinksTo(g.device, q, x, userId) || x == id
    ensures forall q :: q in g.device && q != profile ==> r.device[q] == g.device[q]
  {
    hide IsForeign, LinksTo;
    if MadeOwn(g.device, r.device, profile, id, userId) {
      MadeOwnKeeps(g.device, r.device, profile, id, userId);
    }
    assert forall q, x :: Owns(r.device, q, x, userId) ==> x in r.cloud;
  }

  lemma CreateRemoteOne(g: Progress, rest: seq<string>, listed: set<string>, env: Env)
    requires rest != [] && Steady(g, [], listed, env.userId) && Unsynced(g.device, rest) && FreshPosts(g, rest, env)
    ensures var r := CreateRemote(g, rest[0], env);
            Steady(r, [], listed, env.userId) && LinksGrow(g, r, env.userId) && r.device.Keys == g.device.Keys &&
            Unsynced(r.device, rest[1..]) && FreshPosts(r, rest[1..], env) &&
            (forall x :: x in r.cloud ==> x in g.cloud || PostMakes(env, rest[0], x)) &&
            forall x :: PostMakes(env, rest[0], x) && PostOf(env, rest[0]).Created? ==>
              x in r.cloud && Owns(r.device, rest[0], x, env.userId)
  {
    hide IsForeign, LinksTo, Owns, CreateRemote, Steady, PostOf;
    var profile, r := rest[0], CreateRemote(g, rest[0], env);
    assert HasNoState(g.device, profile);
    assert forall i :: 0 <= i < |rest[1..]| ==> rest[1..][i] == rest[i + 1];
    CreateRemoteShape(g, profile, env);
    if exists id :: PostMakes(env, profile, id) {
      var id :| PostMakes(env, profile, id);
      assert AgentMade(g, r, profile, id, env);
      CreatedIsSteady(g, r, listed, profile, id, env.userId);
      forall i, x | 0 <= i < |rest[1..]| && PostMakes(env, rest[1..][i], x)
        ensures Unused(r.device, r.cloud, x, env.userId) {
        assert PostMakes(env, rest[i + 1], x) && Unused(g.device, g.cloud, x, env.userId);
        assert x != id;
      }
      forall i | 0 <= i < |rest[1..]| ensures HasNoState(r.device, rest[1..][i]) {
        assert HasNoState(g.device, rest[i + 1]) && rest[i + 1] != rest[0];
      }
    } else {
      assert LinksGrow(g, g, env.userId);
    }
  }

  /** Every creation that succeeded left its agent and its link. */
  ghost predicate AllMade(r: Progress, rest: seq<string>, env: Env) {
    forall i, x :: 0 <= i < |rest| && PostMakes(env, rest[i], x) && PostOf(env, rest[i]).Created? ==>
      x in r.cloud && Owns(r.device, rest[i], x, env.userId)
  }

  lemma NoneMade(r: Progress, rest: seq<string>, env: Env)
    requires rest == []
    ensures AllMade(r, rest, env)
  {
  }

  lemma AllMadeMore(h: Progress, r: Progress, rest: seq<string>, env: Env)
    requires rest != [] && AllMade(r, rest[1..], env) && LinksGrow(h, r, env.userId)
    requires forall x :: PostMakes(env, rest[0], x) && PostOf(env, rest[0]).Created? ==>
               x in h.cloud && Owns(h.device, rest[0], x, env.userId)
    ensures AllMade(r, rest, env)
  {
    hide Owns, LinksTo, IsForeign, PostMakes, PostOf;
    forall i, x | 0 <= i < |rest| && PostMakes(env, rest[i], x) && PostOf(env, rest[i]).Created?
      ensures x in r.cloud && Owns(r.device, rest[i], x, env.userId) {
      if i > 0 {
        assert rest[i] == rest[1..][i - 1];
      } else {
        assert x in h.cloud && Owns(h.device, rest[0], x, env.userId);
      }
    }
  }

  lemma {:induction false} CreateRemoteRun(g: Progress, rest: seq<string>, listed: set<string>, env: Env)
    requires Steady(g, [], listed, env.userId) && Unsynced(g.device, rest) && FreshPosts(g, rest, env)
    ensures var r := CreateAllRemote(g, rest, env);
            Steady(r, [], listed, env.userId) && LinksGrow(g, r, env.userId) && r.device.Keys == g.device.Keys
    ensures forall x :: x in CreateAllRemote(g, rest, env).cloud && x !in g.cloud ==>
              exists i :: 0 <= i < |rest| && PostMakes(env, rest[i], x)
    ensures AllMade(CreateAllRemote(g, rest, env), rest, env)
    decreases |rest|
  {
    hide IsForeign, LinksTo, Owns, CreateRemote, Steady, PostOf, PostMakes, FreshPosts, Unsynced, AllMade;
    if rest == [] {
      NoneMade(g, rest, env);
      assert LinksGrow(g, g, env.userId);
    } else {
      var h := CreateRemote(g, rest[0], env);
      CreateRemoteOne(g, rest, listed, env);
      CreateRemoteRun(h, rest[1..], listed, env);
      var r := CreateAllRemote(g, rest, env);
      LinksGrowTwice(g, h, r, env.userId);
      AllMadeMore(h, r, rest, env);
      forall x | x in r.cloud && x !in g.cloud ensures exists i :: 0 <= i < |rest| && PostMakes(env, rest[i], x) {
        if x in h.cloud {
          assert PostMakes(env, rest[0], x);
        } else {
          var i :| 0 <= i < |rest[1..]| && PostMakes(env, rest[1..][i], x);
          assert rest[i + 1] == rest[1..][i];
        }
      }
    }
  }

  // ---------------------------------------------------------------- creating profiles

  function Ids(listing: seq<Agent>): set<string> { set i | 0 <= i < |listing| :: listing[i].id }

  ghost predicate DistinctIds(listing: seq<Agent>) {
    forall i, j :: 0 <= i < j < |listing| ==> listing[i].id != listing[j].id
  }

  /** New profiles get directory names in use nowhere, a different one for each agent. */
  ghost predicate FreshProfiles(device: Device, listing: seq<Agent>, env: Env) {
    (forall i :: 0 <= i < |listing| && listing[i].id in env.profiles ==> env.profiles[listing[i].id].id !in device) &&
    forall i, j :: 0 <= i < j < |listing| && listing[i].id in env.profiles && listing[j].id in env.profiles ==>
      env.profiles[listing[i].id].id != env.profiles[listing[j].id].id
  }

  lemma CreateLocalOne(g: Progress, listing: seq<Agent>, env: Env)
    requires listing != [] && DistinctIds(listing) && Steady(g, [], Ids(listing), env.userId) &&
             FreshProfiles(g.device, listing, env)
    ensures var r := CreateLocal(g, listing[0], env);
            Steady(r, [], Ids(listing[1..]), env.userId) && LinksGrow(g, r, env.userId) && r.cloud == g.cloud &&
            FreshProfiles(r.device, listing[1..], env)
    ensures var x := listing[0].id;
            x !in g.claimed && x in env.profiles ==>
              Owns(CreateLocal(g, listing[0], env).device, env.profiles[x].id, x, env.userId)
  {
    hide IsForeign, LinksTo, Owns;
    var a, rest, r := listing[0], listing[1..], CreateLocal(g, listing[0], env);
    assert a.id in Ids(listing);
    assert forall i :: 0 <= i < |rest| ==> rest[i] == listing[i + 1];
    forall x | x in Ids(rest) ensures x in Ids(listing) && x != a.id {
      var i :| 0 <= i < |rest| && rest[i].id == x;
      assert listing[i + 1].id == x;
    }
    if a.id in g.claimed || a.id !in env.profiles {
      assert r == g && LinksGrow(g, g, env.userId);
    } else {
      CreateLocalMakesOwn(g, a, env);
      NobodyOn(g, a.id, Ids(listing), env.userId);
      MadeOwnKeeps(g.device, r.device, env.profiles[a.id].id, a.id, env.userId);
      CreatedLocalIsSteady(g, r, env.profiles[a.id].id, a.id, Ids(listing), Ids(rest), env.userId);
    }
  }

  lemma CreateLocalMakesOwn(g: Progress, a: Agent, env: Env)
    requires a.id !in g.claimed && a.id in env.profiles
    ensures var r := CreateLocal(g, a, env);
            MadeOwn(g.device, r.device, env.profiles[a.id].id, a.id, env.userId) && r.cloud == g.cloud &&
            r.claimed == g.claimed
  {
    hide ApplyPulls;
  }

  lemma NobodyOn(g: Progress, x: string, listed: set<string>, userId: string)
    requires SeenAreClaimed(g, g.device.Keys, listed, userId) && x in listed && x !in g.claimed
    ensures forall q :: !LinksTo(g.device, q, x, userId)
  {
    hide IsForeign;
  }

  lemma CreatedLocalIsSteady(g: Progress, r: Progress, q: string, x: string, listed: set<string>, rest: set<string>,
                             userId: string)
    requires Steady(g, [], listed, userId) && x in listed && rest <= listed && x !in rest
    requires r.cloud == g.cloud && r.claimed == g.claimed && r.device.Keys == g.device.Keys + {q}
    requires NoSharing(r.device, userId) && ForeignUntouched(g.device, r.device, userId)
    requires forall p, y :: LinksTo(r.device, p, y, userId) ==> LinksTo(g.device, p, y, userId) || (p == q && y == x)
    requires forall p, y :: Owns(r.device, p, y, userId) ==> Owns(g.device, p, y, userId) || (p == q && y == x)
    requires forall p, y :: Owns(g.device, p, y, userId) ==> Owns(r.device, p, y, userId)
    ensures Steady(r, [], rest, userId) && LinksGrow(g, r, userId)
  {
    hide IsForeign;
  }

  lemma {:induction false} CreateLocalRun(g: Progress, listing: seq<Agent>, env: Env)
    requires DistinctIds(listing) && Steady(g, [], Ids(listing), env.userId) && FreshProfiles(g.device, listing, env)
    ensures var r := CreateAllLocal(g, listing, env);
            Steady(r, [], {}, env.userId) && LinksGrow(g, r, env.userId) && r.cloud == g.cloud
    ensures forall i :: 0 <= i < |listing| && listing[i].id !in g.claimed && listing[i].id in env.profiles ==>
              Owns(CreateAllLocal(g, listing, env).device, env.profiles[listing[i].id].id, listing[i].id, env.userId)
    decreases |listing|
  {
    hide IsForeign, LinksTo, Owns, CreateLocal, Steady, FreshProfiles;
    if listing == [] {
      assert Ids(listing) == {};
      assert LinksGrow(g, g, env.userId);
    } else {
      var h := CreateLocal(g, listing[0], env);
      CreateLocalOne(g, listing, env);
      CreateLocalRun(h, listing[1..], env);
      var r := CreateAllLocal(g, listing, env);
      LinksGrowTwice(g, h, r, env.userId);
      forall i | 0 <= i < |listing| && listing[i].id !in g.claimed && listing[i].id in env.profiles
        ensures Owns(r.device, env.profiles[listing[i].id].id, listing[i].id, env.userId) {
        if i > 0 { assert listing[i] == listing[1..][i - 1]; }
      }
    }
  }

  // ---------------------------------------------------------------- the whole pass

  /** What the outside world promises a pass: complete listings, and identifiers that are new. */
  ghost predicate Sound(device: Device, cloud: Cloud, profiles: seq<string>, listing: seq<Agent>, env: Env) {
    Listed(device, cloud, profiles, listing) && FreshProfiles(device, listing, env) &&
    (forall p, x :: PostMakes(env, p, x) ==> Unused(device, cloud, x, env.userId)) &&
    forall p, q, x :: PostMakes(env, p, x) && PostMakes(env, q, x) ==> p == q
  }

  lemma ListedIds(device: Device, cloud: Cloud, profiles: seq<string>, listing: seq<Agent>)
    requires Listed(device, cloud, profiles, listing)
    ensures DistinctIds(listing) && Ids(listing) == cloud.Keys
  {
    forall x | x in Ids(listing) ensures x in cloud {
      var i :| 0 <= i < |listing| && listing[i].id == x;
      assert listing[i] in listing;
    }
    forall x | x in cloud ensures x in Ids(listing) {
      var i :| 0 <= i < |listing| && listing[i] == cloud[x];
      assert listing[i].id == x;
    }
  }

  lemma SteadyAfterLinking(g: Progress, userId: string)
    requires ByName(g, [], userId) && forall x :: x in g.cloud ==> g.cloud[x].id == x
    ensures Steady(g, g.linked, g.cloud.Keys, userId) &&
            forall i :: 0 <= i < |g.linked| ==> g.linked[i].agent in g.claimed
    ensures Unsynced(g.device, g.unlinked) && forall q :: q in g.unlinked ==> q !in Profiles(g.linked)
  {
    hide LinksOk, NoSharing, IsForeign;
    assert g.unlinked + [] == g.unlinked;
  }

  lemma UnsyncedAfter(device: Device, after: Device, profiles: seq<string>)
    requires Unsynced(device, profiles) && after.Keys == device.Keys &&
             forall i :: 0 <= i < |profiles| ==> after[profiles[i]] == device[profiles[i]]
    ensures Unsynced(after, profiles)
  {
    forall i | 0 <= i < |profiles| ensures HasNoState(after, profiles[i]) {
      assert HasNoState(device, profiles[i]);
    }
  }

  lemma FreshAfterReconcile(device: Device, g: Progress, h: Progress, profiles: seq<string>, env: Env)
    requires Distinct(profiles) && LinksGrow(g, h, env.userId) && h.cloud.Keys == g.cloud.Keys
    requires forall q, x :: LinksTo(g.device, q, x, env.userId) ==> LinksTo(device, q, x, env.userId)
    requires forall p, x :: PostMakes(env, p, x) ==> Unused(device, g.cloud, x, env.userId)
    requires forall p, q, x :: PostMakes(env, p, x) && PostMakes(env, q, x) ==> p == q
    ensures FreshPosts(h, profiles, env)
  {
    hide LinksTo, PostMakes, IsForeign, Owns;
    forall i, x | 0 <= i < |profiles| && PostMakes(env, profiles[i], x)
      ensures Unused(h.device, h.cloud, x, env.userId) {
      assert Unused(device, g.cloud, x, env.userId);
    }
  }

  lemma FreshProfilesKept(device: Device, after: Device, listing: seq<Agent>, env: Env)
    requires FreshProfiles(device, listing, env) && after.Keys == device.Keys
    ensures FreshProfiles(after, listing, env)
  {
  }

  /** The three stages, each started in the state the one before left. */
  lemma Stages(device: Device, cloud: Cloud, profiles: seq<string>, listing: seq<Agent>, env: Env)
    requires Sound(device, cloud, profiles, listing, env) && NoSharing(device, env.userId)
    ensures var g := Linked(device, cloud, profiles, listing, env.userId);
            var h := ReconcileAll(g, g.linked, env);
            var k := CreateAllRemote(h, h.unlinked, env);
            var r := RunPass(device, cloud, profiles, listing, env);
            g.cloud == cloud && g.claimed == Agents(g.linked) && h.unlinked == g.unlinked &&
            h.cloud.Keys == cloud.Keys &&
            g.device.Keys == device.Keys && (forall i :: 0 <= i < |g.unlinked| ==> g.unlinked[i] in device) &&
            LinksGrow(g, h, env.userId) && LinksGrow(h, k, env.userId) && LinksGrow(k, r, env.userId) &&
            Steady(r, [], {}, env.userId) && r.cloud == k.cloud && ForeignUntouched(device, g.device, env.userId) &&
            (forall i :: 0 <= i < |g.linked| && !PatchOf(env, g.linked[i].agent).Lost? ==>
              Owns(h.device, g.linked[i].profile, g.linked[i].agent, env.userId)) &&
            (forall x :: x in k.cloud && x !in cloud ==>
              exists i :: 0 <= i < |h.unlinked| && PostMakes(env, h.unlinked[i], x)) &&
            (forall i, x ::
              0 <= i < |h.unlinked| && PostMakes(env, h.unlinked[i], x) && PostOf(env, h.unlinked[i]).Created? ==>
              x in k.cloud && Owns(k.device, h.unlinked[i], x, env.userId)) &&
            (forall i :: 0 <= i < |listing| && listing[i].id !in k.claimed && listing[i].id in env.profiles ==>
              Owns(r.device, env.profiles[listing[i].id].id, listing[i].id, env.userId))
  {
    hide IsForeign, LinksTo, Owns, CreateAllLocal, CreateAllRemote, ReconcileAll, Linked, PostMakes, PostOf, PatchOf,
         LinksGrow, Listed;
    hide NoSharing, ForeignUntouched;
    var userId := env.userId;
    LinkedIsByName(device, cloud, profiles, listing, userId);
    ListedIds(device, cloud, profiles, listing);
    var g := Linked(device, cloud, profiles, listing, userId);
    assert forall x :: x in cloud ==> cloud[x].id == x by { ListedById(device, cloud, profiles, listing); }
    SteadyAfterLinking(g, userId);
    assert g.claimed == Agents(g.linked);
    ReconcileRun(g, g.linked, cloud.Keys, env);
    var h := ReconcileAll(g, g.linked, env);
    UnsyncedAfter(g.device, h.device, g.unlinked);
    assert forall i :: 0 <= i < |g.unlinked| ==> HasNoState(g.device, g.unlinked[i]);
    FreshAfterReconcile(device, g, h, g.unlinked, env);
    CreateRemoteRun(h, h.unlinked, cloud.Keys, env);
    var k := CreateAllRemote(h, h.unlinked, env);
    FreshProfilesKept(device, k.device, listing, env);
    CreateLocalRun(k, listing, env);
  }

  lemma ListedById(device: Device, cloud: Cloud, profiles: seq<string>, listing: seq<Agent>)
    requires Listed(device, cloud, profiles, listing)
    ensures forall x :: x in cloud ==> cloud[x].id == x
  {
  }

  /**
   * After every pass, whatever failed or was lost in it, no two profiles hold an eligible link to one
   * agent, every link of this account leads to an agent of the cloud, nothing was deleted there, and
   * profiles of other accounts are as they were.
   */
  lemma EveryPassKeepsLinksApart(device: Device, cloud: Cloud, profiles: seq<string>, listing: seq<Agent>, env: Env)
    requires Sound(device, cloud, profiles, listing, env) && NoSharing(device, env.userId)
    ensures var r := RunPass(device, cloud, profiles, listing, env);
            NoSharing(r.device, env.userId) && ForeignUntouched(device, r.device, env.userId) &&
            cloud.Keys <= r.cloud.Keys && device.Keys <= r.device.Keys &&
            forall q, x :: Owns(r.device, q, x, env.userId) ==> x in r.cloud
  {
    hide IsForeign, LinksTo, RunPass, Sound, Linked, ReconcileAll, CreateAllRemote, PostMakes, PostOf, PatchOf;
    Stages(device, cloud, profiles, listing, env);
    var g := Linked(device, cloud, profiles, listing, env.userId);
    var h := ReconcileAll(g, g.linked, env);
    var k := CreateAllRemote(h, h.unlinked, env);
    var r := RunPass(device, cloud, profiles, listing, env);
    LinksGrowTwice(g, h, k, env.userId);
    LinksGrowTwice(g, k, r, env.userId);
    ForeignTwice(device, g.device, r.device, env.userId);
  }

  lemma ForeignTwice(a: Device, b: Device, c: Device, userId: string)
    requires ForeignUntouched(a, b, userId) && ForeignUntouched(b, c, userId)
    ensures ForeignUntouched(a, c, userId)
  {
    hide IsForeign;
  }

  /** No answer is lost, every creation succeeds on both sides; a refused update does no harm. */
  ghost predicate NothingLost(device: Device, cloud: Cloud, env: Env) {
    (forall x :: x in cloud ==> !PatchOf(env, x).Lost?) &&
    (forall p :: p in device ==> PostOf(env, p).Created?) &&
    forall x :: x in cloud ==> x in env.profiles
  }

  /** This account's links are a bijection between the profiles holding one and the agents of the cloud. */
  ghost predicate Bijection(device: Device, cloud: Cloud, userId: string) {
    (forall q, x :: Owns(device, q, x, userId) ==> x in cloud) &&
    (forall x :: x in cloud ==> exists q :: Owns(device, q, x, userId)) &&
    forall p, q, x :: Owns(device, p, x, userId) && Owns(device, q, x, userId) ==> p == q
  }

  /** A pass in which nothing is lost ends in a bijection with the agents there were and those it created. */
  lemma CleanPassEndsInBijection(device: Device, cloud: Cloud, profiles: seq<string>, listing: seq<Agent>, env: Env)
    requires Sound(device, cloud, profiles, listing, env) && NoSharing(device, env.userId) &&
             NothingLost(device, cloud, env)
    ensures var r := RunPass(device, cloud, profiles, listing, env);
            Bijection(r.device, r.cloud, env.userId) &&
            forall x :: x in r.cloud <==>
              x in cloud ||
              exists p :: p in Linked(device, cloud, profiles, listing, env.userId).unlinked && PostMakes(env, p, x)
  {
    hide IsForeign, LinksTo, RunPass, Sound, Linked, ReconcileAll, CreateAllRemote, PostMakes, PostOf, PatchOf, Owns,
         Listed, LinksGrow;
    Stages(device, cloud, profiles, listing, env);
    EveryPassKeepsLinksApart(device, cloud, profiles, listing, env);
    assert Ids(listing) == cloud.Keys by {
      assert Listed(device, cloud, profiles, listing) by { SoundIsListed(device, cloud, profiles, listing, env); }
      ListedIds(device, cloud, profiles, listing);
    }
    var g := Linked(device, cloud, profiles, listing, env.userId);
    var h := ReconcileAll(g, g.linked, env);
    var k := CreateAllRemote(h, h.unlinked, env);
    var r := RunPass(device, cloud, profiles, listing, env);
    GrownKeepsOwn(h, k, env.userId);
    GrownKeepsOwn(k, r, env.userId);
    GrownKeepsOwn(g, h, env.userId);
    forall x | x in r.cloud ensures exists q :: Owns(r.device, q, x, env.userId) {
      if x !in cloud {
        var i :| 0 <= i < |h.unlinked| && PostMakes(env, h.unlinked[i], x);
        assert Owns(k.device, h.unlinked[i], x, env.userId);
        assert Owns(r.device, h.unlinked[i], x, env.userId);
      } else if x in g.claimed {
        var i :| 0 <= i < |g.linked| && g.linked[i].agent == x;
        assert Owns(h.device, g.linked[i].profile, x, env.userId);
        assert Owns(r.device, g.linked[i].profile, x, env.userId);
      } else {
        var i :| 0 <= i < |listing| && listing[i].id == x;
        assert Owns(r.device, env.profiles[x].id, x, env.userId);
      }
    }
    OneOwner(r.device, env.userId);
    forall x ensures x in r.cloud <==> x in cloud || exists p :: p in g.unlinked && PostMakes(env, p, x) {
      if x in r.cloud && x !in cloud {
        var i :| 0 <= i < |h.unlinked| && PostMakes(env, h.unlinked[i], x);
        assert h.unlinked[i] in g.unlinked;
      }
      if exists p :: p in g.unlinked && PostMakes(env, p, x) {
        var p :| p in g.unlinked && PostMakes(env, p, x);
        var i :| 0 <= i < |g.unlinked| && g.unlinked[i] == p;
        assert PostOf(env, p).Created?;
      }
    }
  }

  lemma SoundIsListed(device: Device, cloud: Cloud, profiles: seq<string>, listing: seq<Agent>, env: Env)
    requires Sound(device, cloud, profiles, listing, env)
    ensures Listed(device, cloud, profiles, listing)
  {
    hide Listed;
  }

  lemma GrownKeepsOwn(before: Progress, after: Progress, userId: string)
    requires LinksGrow(before, after, userId)
    ensures after.claimed == before.claimed && before.cloud.Keys <= after.cloud.Keys
    ensures forall q, x :: Owns(before.device, q, x, userId) ==> Owns(after.device, q, x, userId)
  {
    hide Owns, LinksTo, ForeignUntouched;
  }

  lemma OneOwner(device: Device, userId: string)
    requires NoSharing(device, userId)
    ensures forall p, q, x :: Owns(device, p, x, userId) && Owns(device, q, x, userId) ==> p == q
  {
    forall p, q, x | Owns(device, p, x, userId) && Owns(device, q, x, userId) ensures p == q {
      assert LinksTo(device, p, x, userId) && LinksTo(device, q, x, userId);
    }
  }
}
