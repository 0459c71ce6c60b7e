/** Quiescence of whole passes, and what the linking loops do and do not link. */
module SyncIdle {
  import opened Text
  import opened Sync
  import opened SyncRuns
  import opened SyncPass
  import opened SyncLinks
  import opened SyncConverges

  // ---------------------------------------------------------------- at rest

  /**
   * A link that is not this account's to touch: a foreign one, or an unowned one to an agent this cloud does not
   * have.
   */
  predicate IsLeftAlone(l: Local, cloud: Cloud, userId: string) {
    l.state.Some? && (IsForeign(l.state.value, userId) ||
      (l.state.value.accountId != Some(userId) && l.state.value.agentId !in cloud))
  }

  /** Every profile agrees with its agent or is left alone, and every agent has its profile. */
  ghost predicate AtRest(device: Device, cloud: Cloud, userId: string) {
    (forall q :: q in device ==>
      IsLeftAlone(device[q], cloud, userId) || exists x :: Agrees(device, cloud, q, x, userId)) &&
    forall x :: x in cloud ==> exists q :: Agrees(device, cloud, q, x, userId)
  }

  ghost predicate RestLink(device: Device, cloud: Cloud, l: Link, userId: string) {
    Agrees(device, cloud, l.profile, l.agent, userId) && device[l.profile].state == Some(l.state)
  }

  lemma {:induction false} SameBase(parts: seq<Part>, next: map<Part, PartValue>, local: Values, remote: Values,
                                    base: map<Part, PartValue>, t: Times, pushedOk: bool)
    requires forall p :: ActionOf(p, local, remote, base, t) == Stay && BaseOf(next, p) == Some(PartOf(local, p))
    ensures NextBase(parts, next, local, remote, base, t, pushedOk) == next
    decreases |parts|
  {
    hide ActionOf, PartOf;
    if parts != [] {
      var p := parts[0];
      assert BaseOf(next, p) == Some(PartOf(local, p));
      assert next[p := PartOf(local, p)] == next;
      SameBase(parts[1..], next, local, remote, base, t, pushedOk);
    }
  }

  /** A pair in agreement comes out of any pass exactly as it went in, whatever the clocks and the network do. */
  lemma AgreeingPairStays(pair: Pair, userId: string, t: Times, outcome: Outcome)
    requires PairAgrees(pair, userId)
    ensures Reconcile(pair, StateOf(pair), userId, t, outcome) == pair
  {
    hide Choose, BuildBody, NextBase, ApplyPulls, ApplyBody, PartOf, Decide;
    var s := StateOf(pair);
    var local, remote := LocalParts(pair.local.values), RemoteParts(pair.agent);
    forall p ensures ActionOf(p, local, remote, s.base, t) == Stay && BaseOf(s.base, p) == Some(PartOf(local, p)) {
      assert InSync(At(pair, p));
      EqualStays(BaseOf(s.base, p), PartOf(local, p), MsOf(t, p), t.remote);
    }
    NothingChosen(PARTS, Push, local, remote, s.base, t);
    NothingChosen(PARTS, Pull, local, remote, s.base, t);
    NothingToSend(local);
    NothingToPull(pair.local.values, remote);
    SameBase(PARTS, s.base, local, remote, s.base, t, true);
  }

  lemma EqualStays(base: Option<PartValue>, v: PartValue, m: int, r: int)
    ensures Decide(base, v, v, m, r) == Stay
  {
  }

  lemma NothingToSend(v: Values)
    ensures BuildBody(EMPTY_BODY, [], v) == EMPTY_BODY
  {
  }

  lemma NothingToPull(v: Values, remote: Values)
    ensures ApplyPulls(v, [], remote) == v
  {
  }

  lemma RestLinkIsIdle(g: Progress, l: Link, env: Env)
    requires RestLink(g.device, g.cloud, l, env.userId)
    ensures ReconcileLink(g, l, env) == g
  {
    hide Reconcile, PairAgrees, TimesOf, PatchOf;
    var pair := Pair(g.device[l.profile], g.cloud[l.agent]);
    AgreeingPairStays(pair, env.userId, TimesOf(env, l.profile), PatchOf(env, l.agent));
    assert g.device[l.profile := g.device[l.profile]] == g.device && g.cloud[l.agent := g.cloud[l.agent]] == g.cloud;
  }

  lemma {:induction false} RestLinksAreIdle(g: Progress, links: seq<Link>, env: Env)
    requires forall i :: 0 <= i < |links| ==> RestLink(g.device, g.cloud, links[i], env.userId)
    ensures ReconcileAll(g, links, env) == g
    decreases |links|
  {
    hide ReconcileLink, RestLink;
    if links != [] {
      RestLinkIsIdle(g, links[0], env);
      RestLinksAreIdle(g, links[1..], env);
    }
  }

  lemma ClassifyAtRest(g: Progress, profile: string, userId: string)
    requires AtRest(g.device, g.cloud, userId) && profile in g.device
    ensures var r := Classify(g, profile, userId);
            r.device == g.device && r.cloud == g.cloud && r.unlinked == g.unlinked && g.claimed <= r.claimed &&
            (r.linked == g.linked || (|r.linked| == |g.linked| + 1 && r.linked[..|g.linked|] == g.linked &&
              RestLink(g.device, g.cloud, r.linked[|g.linked|], userId))) &&
            forall x :: Agrees(g.device, g.cloud, profile, x, userId) ==> x in r.claimed
  {
    hide InSync, At;
    if !IsLeftAlone(g.device[profile], g.cloud, userId) {
      var x :| Agrees(g.device, g.cloud, profile, x, userId);
      assert g.device[profile].state.value.agentId == x;
    }
  }

  lemma {:induction false} ClassifyAllAtRest(g: Progress, profiles: seq<string>, userId: string)
    requires AtRest(g.device, g.cloud, userId) && (forall p :: p in profiles ==> p in g.device)
    requires forall i :: 0 <= i < |g.linked| ==> RestLink(g.device, g.cloud, g.linked[i], userId)
    ensures var r := ClassifyAll(g, profiles, userId);
            r.device == g.device && r.cloud == g.cloud && r.unlinked == g.unlinked && g.claimed <= r.claimed &&
            (forall i :: 0 <= i < |r.linked| ==> RestLink(g.device, g.cloud, r.linked[i], userId)) &&
            forall p, x :: p in profiles && Agrees(g.device, g.cloud, p, x, userId) ==> x in r.claimed
    decreases |profiles|
  {
    hide AtRest, Classify, RestLink, Agrees;
    if profiles != [] {
      var h := Classify(g, profiles[0], userId);
      assert profiles[0] in profiles;
      ClassifyAtRest(g, profiles[0], userId);
      forall i | 0 <= i < |h.linked| ensures RestLink(g.device, g.cloud, h.linked[i], userId) {
        if i < |g.linked| { assert h.linked[..|g.linked|][i] == h.linked[i]; }
      }
      ClassifyAllAtRest(h, profiles[1..], userId);
    }
  }

  lemma {:induction false} ClaimedPullsAreIdle(g: Progress, listing: seq<Agent>, env: Env)
    requires forall i :: 0 <= i < |listing| ==> listing[i].id in g.claimed
    ensures CreateAllLocal(g, listing, env) == g
    decreases |listing|
  {
    hide CreateLocal;
    if listing != [] {
      ClaimedIsSkipped(g, listing[0], env);
      ClaimedPullsAreIdle(g, listing[1..], env);
    }
  }

  /** At rest a pass pushes, pulls, links and creates nothing: both sides come out as they went in. */
  lemma RestIsIdle(device: Device, cloud: Cloud, profiles: seq<string>, listing: seq<Agent>, env: Env)
    requires AtRest(device, cloud, env.userId) && Listed(device, cloud, profiles, listing)
    ensures var r := RunPass(device, cloud, profiles, listing, env); r.device == device && r.cloud == cloud
  {
    hide AtRest, Classify, ReconcileLink, CreateLocal, RestLink, Agrees, LinkByName;
    var start := Progress(device, cloud, {}, [], []);
    ClassifyAllAtRest(start, profiles, env.userId);
    var g := ClassifyAll(start, profiles, env.userId);
    var l := g.(unlinked := []);
    assert Linked(device, cloud, profiles, listing, env.userId) == l;
    RestLinksAreIdle(l, l.linked, env);
    forall i | 0 <= i < |listing| ensures listing[i].id in l.claimed {
      assert listing[i] in listing;
      AgentHasProfile(device, cloud, listing[i].id, env.userId);
      var q :| Agrees(device, cloud, q, listing[i].id, env.userId);
      AgreesIsHere(device, cloud, q, listing[i].id, env.userId);
    }
    ClaimedPullsAreIdle(l, listing, env);
    assert CreateAllRemote(l, [], env) == l;
  }

  lemma AgentHasProfile(device: Device, cloud: Cloud, x: string, userId: string)
    requires AtRest(device, cloud, userId) && x in cloud
    ensures exists q :: Agrees(device, cloud, q, x, userId)
  {
    hide Agrees;
  }

  lemma AgreesIsHere(device: Device, cloud: Cloud, q: string, x: string, userId: string)
    requires Agrees(device, cloud, q, x, userId)
    ensures q in device && x in cloud
  {
    hide PairAgrees;
  }

  // ---------------------------------------------------------------- from any device to rest

  /** No link of this account leads to an agent that was deleted in the console. */
  ghost predicate NoneVanished(device: Device, cloud: Cloud, userId: string) {
    forall q, x :: Owns(device, q, x, userId) ==> x in cloud
  }

  /** What the linking loops have done with a profile. */
  ghost predicate Covered(device: Device, g: Progress, q: string, userId: string) {
    q in Profiles(g.linked) || q in g.unlinked ||
    (q in g.device && q in device && g.device[q] == device[q] && IsLeftAlone(device[q], g.cloud, userId))
  }

  lemma MoreLinksCover(device: Device, g: Progress, h: Progress, q: string, userId: string)
    requires Covered(device, g, q, userId) && g.linked <= h.linked && h.device == g.device && h.cloud == g.cloud
    requires q in g.unlinked ==> q in h.unlinked || q in Profiles(h.linked)
    ensures Covered(device, h, q, userId)
  {
    hide IsForeign;
    if q in Profiles(g.linked) {
      var i :| 0 <= i < |g.linked| && g.linked[i].profile == q;
      assert h.linked[i].profile == q;
    }
  }

  lemma ClassifyCovers(device: Device, g: Progress, profile: string, userId: string)
    requires g.device == device && profile in device && NoneVanished(device, g.cloud, userId)
    ensures var h := Classify(g, profile, userId);
            h.device == device && h.cloud == g.cloud && g.linked <= h.linked &&
            (forall q :: q in g.unlinked ==> q in h.unlinked) && Covered(device, h, profile, userId)
  {
    hide IsForeign;
    var h := Classify(g, profile, userId);
    if device[profile].state.Some? {
      var s := device[profile].state.value;
      if !IsForeign(s, userId) {
        if s.agentId in g.cloud {
          assert h.linked[|g.linked|].profile == profile;
        } else {
          assert s.accountId == Some(userId) ==> Owns(device, profile, s.agentId, userId);
        }
      }
    }
  }

  lemma {:induction false} ClassifyAllCovers(device: Device, g: Progress, profiles: seq<string>, seen: set<string>,
                                             userId: string)
    requires g.device == device && NoneVanished(device, g.cloud, userId) && (forall p :: p in profiles ==> p in device)
    requires forall q :: q in seen ==> Covered(device, g, q, userId)
    ensures var r := ClassifyAll(g, profiles, userId);
            r.device == device && r.cloud == g.cloud &&
            forall q :: q in seen || q in profiles ==> Covered(device, r, q, userId)
    decreases |profiles|
  {
    hide Covered, Classify, NoneVanished;
    if profiles != [] {
      var p, h := profiles[0], Classify(g, profiles[0], userId);
      assert p in profiles;
      ClassifyCovers(device, g, p, userId);
      forall q | q in seen ensures Covered(device, h, q, userId) { MoreLinksCover(device, g, h, q, userId); }
      ClassifyAllCovers(device, h, profiles[1..], seen + {p}, userId);
      assert forall q :: q in profiles ==> q == p || q in profiles[1..];
    }
  }

  lemma NameCovers(device: Device, g: Progress, profile: string, listing: seq<Agent>, userId: string)
    ensures var h := LinkByName(g, profile, listing, userId);
            h.device == g.device && h.cloud == g.cloud && g.linked <= h.linked &&
            (forall q :: q in g.unlinked ==> q in h.unlinked) &&
            (profile in h.unlinked || profile in Profiles(h.linked))
  {
    hide MatchName;
    var h := LinkByName(g, profile, listing, userId);
    if h.linked != g.linked { assert h.linked[|g.linked|].profile == profile; }
  }

  lemma {:induction false} NamesCover(device: Device, g: Progress, rest: seq<string>, listing: seq<Agent>,
                                      userId: string)
    ensures var r := LinkAllByName(g, rest, listing, userId);
            r.device == g.device && r.cloud == g.cloud && g.linked <= r.linked &&
            (forall q :: q in g.unlinked ==> q in r.unlinked) &&
            forall q :: q in rest ==> q in r.unlinked || q in Profiles(r.linked)
    decreases |rest|
  {
    hide LinkByName;
    if rest != [] {
      var h := LinkByName(g, rest[0], listing, userId);
      NameCovers(device, g, rest[0], listing, userId);
      NamesCover(device, h, rest[1..], listing, userId);
      var r := LinkAllByName(h, rest[1..], listing, userId);
      if rest[0] in Profiles(h.linked) {
        var i :| 0 <= i < |h.linked| && h.linked[i].profile == rest[0];
        assert r.linked[i].profile == rest[0];
      }
      assert forall q :: q in rest ==> q == rest[0] || q in rest[1..];
    }
  }

  /** Every profile is linked, left over or rightly left alone. */
  lemma LinkingCovers(device: Device, cloud: Cloud, profiles: seq<string>, listing: seq<Agent>, userId: string)
    requires Listed(device, cloud, profiles, listing) && NoneVanished(device, cloud, userId)
    ensures var g := Linked(device, cloud, profiles, listing, userId);
            g.device == device && forall q :: q in device ==> Covered(device, g, q, userId)
  {
    hide Covered, ClassifyAll, LinkAllByName, NoneVanished;
    var start := Progress(device, cloud, {}, [], []);
    ClassifyAllCovers(device, start, profiles, {}, userId);
    var c := ClassifyAll(start, profiles, userId);
    NamesCover(device, c.(unlinked := []), c.unlinked, listing, userId);
    var g := Linked(device, cloud, profiles, listing, userId);
    forall q | q in device ensures Covered(device, g, q, userId) {
      assert Covered(device, c, q, userId);
      MoreLinksCover(device, c, g, q, userId);
    }
  }

  lemma LeftAloneStays(l: Local, cloud: Cloud, next: Cloud, userId: string)
    requires IsLeftAlone(l, cloud, userId) &&
             forall x :: x in next && x !in cloud ==> l.state.value.agentId != x || IsForeign(l.state.value, userId)
    ensures IsLeftAlone(l, next, userId)
  {
    hide IsForeign;
  }

  lemma EligibleLinks(device: Device, q: string, userId: string)
    requires q in device && device[q].state.Some? && !IsForeign(device[q].state.value, userId)
    ensures LinksTo(device, q, device[q].state.value.agentId, userId)
  {
    hide IsForeign;
  }

  /** An unhindered pass over links none of which vanished ends at rest. */
  lemma UnhinderedPassEndsAtRest(device: Device, cloud: Cloud, profiles: seq<string>, listing: seq<Agent>, env: Env)
    requires Sound(device, cloud, profiles, listing, env) && NoSharing(device, env.userId) &&
             Unhindered(device, cloud, profiles, listing, env)
    requires NoneVanished(device, cloud, env.userId)
    ensures var r := RunPass(device, cloud, profiles, listing, env); AtRest(r.device, r.cloud, env.userId)
  {
    hide RunPass, Linked, LinksTo, Ready, Unhindered, Agrees, NoSharing, PostOf, Owns, LinkOk, PatchOf, Sound,
         PostMakes, NoneVanished, IsForeign, Listed;
    hide ReconcileAll, CreateAllRemote, IsLeftAlone;
    var userId := env.userId;
    var g, r := Linked(device, cloud, profiles, listing, userId), RunPass(device, cloud, profiles, listing, env);
    SoundIsListed(device, cloud, profiles, listing, env);
    UnhinderedPassConverges(device, cloud, profiles, listing, env);
    LinkingCovers(device, cloud, profiles, listing, userId);
    forall q | q in r.device ensures IsLeftAlone(r.device[q], r.cloud, userId) ||
      exists x :: Agrees(r.device, r.cloud, q, x, userId) {
      StagesAgree(device, cloud, profiles, listing, env);
      if q in device {
        assert Covered(device, g, q, userId);
        if q in Profiles(g.linked) {
          var i :| 0 <= i < |g.linked| && g.linked[i].profile == q;
          assert Agrees(r.device, r.cloud, q, g.linked[i].agent, userId);
        } else if q in g.unlinked {
          var i :| 0 <= i < |g.unlinked| && g.unlinked[i] == q;
          assert Agrees(r.device, r.cloud, q, PostOf(env, q).id, userId);
        } else {
          LeftAloneAfter(device, cloud, profiles, listing, env, q);
        }
      } else {
        var i :| 0 <= i < |listing| && listing[i].id !in g.claimed && listing[i].id in env.profiles &&
        q == env.profiles[listing[i].id].id;
        assert Agrees(r.device, r.cloud, q, listing[i].id, userId);
      }
    }
  }

  lemma LeftAloneAfter(device: Device, cloud: Cloud, profiles: seq<string>, listing: seq<Agent>, env: Env, q: string)
    requires Sound(device, cloud, profiles, listing, env) && NoSharing(device, env.userId) &&
             Unhindered(device, cloud, profiles, listing, env)
    requires var g := Linked(device, cloud, profiles, listing, env.userId);
             q in device && g.device == device && q !in Profiles(g.linked) && q !in g.unlinked &&
             IsLeftAlone(device[q], g.cloud, env.userId)
    ensures var r := RunPass(device, cloud, profiles, listing, env);
            q in r.device && r.device[q] == device[q] && IsLeftAlone(r.device[q], r.cloud, env.userId)
  {
    hide RunPass, Linked, LinksTo, Ready, Unhindered, Agrees, NoSharing, PostOf, Owns, LinkOk, PatchOf, PostMakes,
         IsForeign, Listed, ReconcileAll, CreateAllRemote;
    hide FreshProfiles;
    var userId := env.userId;
    var g, r := Linked(device, cloud, profiles, listing, userId), RunPass(device, cloud, profiles, listing, env);
    StagesAgree(device, cloud, profiles, listing, env);
    LinkedFacts(device, cloud, profiles, listing, env);
    Stages(device, cloud, profiles, listing, env);
    forall x | x in r.cloud && x !in cloud
      ensures device[q].state.value.agentId != x || IsForeign(device[q].state.value, userId) {
      var i :| 0 <= i < |g.unlinked| && PostMakes(env, g.unlinked[i], x);
      assert Unused(device, cloud, x, userId);
      if !IsForeign(device[q].state.value, userId) { EligibleLinks(device, q, userId); }
    }
    LeftAloneStays(device[q], cloud, r.cloud, userId);
  }

  /**
   * Convergence and quiescence of whole passes: after an unhindered pass the next one, without edits between, changes
   * nothing on either side.
   */
  lemma SecondPassIsIdle(device: Device, cloud: Cloud, profiles: seq<string>, listing: seq<Agent>, env: Env,
                         profiles2: seq<string>, listing2: seq<Agent>, env2: Env)
    requires Sound(device, cloud, profiles, listing, env) && NoSharing(device, env.userId) &&
             Unhindered(device, cloud, profiles, listing, env)
    requires NoneVanished(device, cloud, env.userId) && env2.userId == env.userId
    requires var r := RunPass(device, cloud, profiles, listing, env); Listed(r.device, r.cloud, profiles2, listing2)
    ensures var r := RunPass(device, cloud, profiles, listing, env);
            var s := RunPass(r.device, r.cloud, profiles2, listing2, env2);
            s.device == r.device && s.cloud == r.cloud
  {
    hide RunPass, Sound, Unhindered, NoSharing, NoneVanished, Listed, AtRest;
    UnhinderedPassEndsAtRest(device, cloud, profiles, listing, env);
    var r := RunPass(device, cloud, profiles, listing, env);
    RestIsIdle(r.device, r.cloud, profiles2, listing2, env2);
  }

  // ---------------------------------------------------------------- linking by name and unlinking

  /** A link is the profile's stored one, or joins a profile without a state to an agent of its name. */
  ghost predicate IsProper(device: Device, listing: seq<Agent>, l: Link, userId: string) {
    l.profile in device &&
    if device[l.profile].state.Some? then
      device[l.profile].state == Some(l.state) && l.agent == l.state.agentId && !IsForeign(l.state, userId)
    else
      exists a ::
        a in listing && a.id == l.agent && a.name == device[l.profile].name &&
        l.state == SyncState(a.id, Some(userId), a.name, map[])
  }

  lemma {:induction false} NoMatchLeft(listing: seq<Agent>, claimed: set<string>, name: string)
    requires MatchName(listing, claimed, name).None?
    ensures forall a :: a in listing && a.name == name ==> a.id in claimed
  {
    if listing != [] {
      NoMatchLeft(listing[1..], claimed, name);
      assert forall a :: a in listing ==> a == listing[0] || a in listing[1..];
    }
  }

  /**
   * Linking is complete: a profile left over after the second loop shares its name with no agent that is still
   * unclaimed, so nothing is created twice.
   */
  lemma {:induction false} LeftOversHaveNoNamesake(g: Progress, rest: seq<string>, listing: seq<Agent>, userId: string)
    requires forall q, a :: q in g.unlinked && q in g.device && a in listing && a.name == g.device[q].name ==>
               a.id in g.claimed
    ensures var r := LinkAllByName(g, rest, listing, userId);
            r.device == g.device &&
            forall q, a ::
              q in r.unlinked && q in r.device && a in listing && a.name == r.device[q].name ==> a.id in r.claimed
    decreases |rest|
  {
    hide MatchName;
    if rest != [] {
      var h := LinkByName(g, rest[0], listing, userId);
      if rest[0] in g.device && MatchName(listing, g.claimed, g.device[rest[0]].name).None? {
        NoMatchLeft(listing, g.claimed, g.device[rest[0]].name);
      }
      LeftOversHaveNoNamesake(h, rest[1..], listing, userId);
    }
  }

  lemma {:induction false} NamedLinksAreProper(g: Progress, rest: seq<string>, listing: seq<Agent>, userId: string)
    requires (forall i :: 0 <= i < |g.linked| ==> IsProper(g.device, listing, g.linked[i], userId)) &&
             forall q :: q in rest ==> HasNoState(g.device, q)
    ensures var r := LinkAllByName(g, rest, listing, userId);
            r.device == g.device && forall i :: 0 <= i < |r.linked| ==> IsProper(r.device, listing, r.linked[i], userId)
    decreases |rest|
  {
    hide MatchName, IsForeign;
    if rest != [] {
      var h := LinkByName(g, rest[0], listing, userId);
      assert rest[0] in rest;
      NamedLinksAreProper(h, rest[1..], listing, userId);
    }
  }

  /**
   * A stored link of this account is dropped exactly when its agent is gone; no other state is touched by the first
   * loop.
   */
  lemma {:induction false} UnlinkedIff(g: Progress, profiles: seq<string>, userId: string, q: string)
    requires q in g.device && Distinct(profiles)
    ensures var r := ClassifyAll(g, profiles, userId);
            q in r.device && r.device[q] ==
              if q in profiles && g.device[q].state.Some? && g.device[q].state.value.accountId == Some(userId) &&
              g.device[q].state.value.agentId !in g.cloud
              then WithState(g.device[q], None) else g.device[q]
    decreases |profiles|
  {
    hide IsForeign;
    if profiles != [] {
      var h := Classify(g, profiles[0], userId);
      assert h.cloud == g.cloud && profiles[0] !in profiles[1..] by { FirstIsNotLater(profiles); }
      OwnIsNotForeign(g, profiles[0], userId);
      UnlinkedIff(h, profiles[1..], userId, q);
      assert q in profiles <==> q == profiles[0] || q in profiles[1..];
    }
  }

  lemma FirstIsNotLater(s: seq<string>)
    requires s != [] && Distinct(s)
    ensures s[0] !in s[1..] && Distinct(s[1..])
  {
    var t := s[1..];
    assert forall i :: 0 <= i < |t| ==> t[i] == s[i + 1];
  }

  lemma OwnIsNotForeign(g: Progress, q: string, userId: string)
    ensures q in g.device && g.device[q].state.Some? && g.device[q].state.value.accountId == Some(userId) ==>
              !IsForeign(g.device[q].state.value, userId)
  {
  }
}
