/** Names: they never move, and they are how a profile finds the agent whose creation went unanswered. */
module SyncNames {
  import opened Text
  import opened Sync
  import opened SyncPass
  import opened SyncLinks
  import opened SyncIdle

  /** The part of a name the cloud keeps. */
  function Cut(name: string): string {
    if |name| > 80 then name[..80] else name
  }

  lemma CutIsPrefix(name: string)
    ensures Cut(name) <= name && |Cut(name)| <= 80 && (Cut(name) == name <==> |name| <= 80)
    ensures |Cut(name)| == 80 || Cut(name) == name
  {
  }

  /** A new agent is named after its profile. */
  lemma NewAgentIsNamed(id: string, l: Local)
    ensures NewAgent(id, l).name == Cut(l.name) && NewAgent(id, l).id == id
  {
    hide BuildBody;
  }

  // ---------------------------------------------------------------- names never move

  ghost predicate SameNames(g: Progress, r: Progress) {
    (forall q :: q in g.device ==> q in r.device && r.device[q].name == g.device[q].name) &&
    forall x :: x in g.cloud ==> x in r.cloud && r.cloud[x].name == g.cloud[x].name
  }

  lemma ReconcileKeepsNames(g: Progress, l: Link, env: Env)
    ensures var r := ReconcileLink(g, l, env); SameNames(g, r) && r.unlinked == g.unlinked
  {
    hide BuildBody, Choose, ApplyPulls, NextBase, RemoteParts;
  }

  lemma {:induction false} ReconcilingKeepsNames(g: Progress, links: seq<Link>, env: Env)
    ensures var r := ReconcileAll(g, links, env);
            SameNames(g, r) && r.device.Keys == g.device.Keys && r.cloud.Keys == g.cloud.Keys &&
            r.unlinked == g.unlinked &&
            forall q :: q in g.device && q !in Profiles(links) ==> r.device[q] == g.device[q]
    decreases |links|
  {
    hide ReconcileLink;
    if links != [] {
      ReconcileKeepsNames(g, links[0], env);
      ReconcileKeepsRest(g, links[0], env);
      ReconcilingKeepsNames(ReconcileLink(g, links[0], env), links[1..], env);
      assert links[0].profile in Profiles(links);
      forall q | q in Profiles(links[1..]) ensures q in Profiles(links) {
        var i :| 0 <= i < |links[1..]| && links[1..][i].profile == q;
        assert links[i + 1].profile == q;
      }
    }
  }

  lemma ReconcileKeepsRest(g: Progress, l: Link, env: Env)
    ensures var r := ReconcileLink(g, l, env);
            r.device.Keys == g.device.Keys && r.cloud.Keys == g.cloud.Keys &&
            forall q :: q in g.device && q != l.profile ==> r.device[q] == g.device[q]
  {
    hide Reconcile;
  }

  /** The backup loop: each profile it makes an agent for, answered or not, gives it its name. */
  lemma {:induction false} BackupsAreNamed(g: Progress, rest: seq<string>, env: Env)
    requires Distinct(rest) && (forall q :: q in rest ==> q in g.device) &&
             (forall p, x :: p in rest && PostMakes(env, p, x) ==> x !in g.cloud) &&
             (forall p, q, x :: PostMakes(env, p, x) && PostMakes(env, q, x) ==> p == q)
    ensures var r := CreateAllRemote(g, rest, env);
            SameNames(g, r) && r.device.Keys == g.device.Keys &&
            (forall p, x :: p in rest && PostMakes(env, p, x) ==>
              x in r.cloud && r.cloud[x].name == Cut(g.device[p].name)) &&
            (forall q :: q in g.device && !(q in rest && PostOf(env, q).Created?) ==> r.device[q] == g.device[q]) &&
            forall q :: q in rest && PostOf(env, q).Created? ==>
              r.device[q].state.Some? && r.device[q].state.value.agentId == PostOf(env, q).id
    decreases |rest|
  {
    hide PostOf, CreateRemote;
    if rest != [] {
      var p, tail, h := rest[0], rest[1..], CreateRemote(g, rest[0], env);
      BackupIsNamed(g, p, env);
      FirstApart(rest);
      assert forall q, x :: q in tail && PostMakes(env, q, x) ==> !PostMakes(env, p, x);
      BackupsAreNamed(h, tail, env);
      var r := CreateAllRemote(h, tail, env);
      forall q, x | q in rest && PostMakes(env, q, x) ensures x in r.cloud && r.cloud[x].name == Cut(g.device[q].name) {
        if q == p { assert x in h.cloud; } else { assert q in tail; }
      }
      assert forall q :: q in rest <==> q == p || q in tail;
    }
  }

  lemma FirstApart(rest: seq<string>)
    requires rest != [] && Distinct(rest)
    ensures rest[0] !in rest[1..] && Distinct(rest[1..]) && forall q :: q in rest <==> q == rest[0] || q in rest[1..]
  {
    assert forall i :: 0 <= i < |rest[1..]| ==> rest[1..][i] == rest[i + 1];
  }

  lemma BackupIsNamed(g: Progress, p: string, env: Env)
    requires p in g.device && forall x :: PostMakes(env, p, x) ==> x !in g.cloud
    ensures var r := CreateRemote(g, p, env);
            SameNames(g, r) && r.device.Keys == g.device.Keys &&
            (forall x :: x in r.cloud <==> x in g.cloud || PostMakes(env, p, x)) &&
            (forall x :: PostMakes(env, p, x) ==> r.cloud[x].name == Cut(g.device[p].name)) &&
            (forall q :: q in g.device && q != p ==> r.device[q] == g.device[q]) &&
            if PostOf(env, p).Created?
            then r.device[p].state.Some? && r.device[p].state.value.agentId == PostOf(env, p).id
            else r.device[p] == g.device[p]
  {
    hide NewAgent, CreatedBase, LocalParts;
    match PostOf(env, p)
    case PostRefused =>
    case PostLost(made) => if made.Some? {
      NewAgentIsNamed(made.value, g.device[p]);
      assert PostMakes(env, p, made.value);
    }
    case Created(id) =>
      NewAgentIsNamed(id, g.device[p]);
      assert PostMakes(env, p, id);
  }

  /** The last loop: each profile it makes is named after its agent. */
  lemma {:induction false} PullsAreNamed(g: Progress, listing: seq<Agent>, env: Env)
    requires DistinctIds(listing) && FreshProfiles(g.device, listing, env)
    ensures var r := CreateAllLocal(g, listing, env);
            r.cloud == g.cloud && (forall q :: q in g.device ==> q in r.device && r.device[q] == g.device[q]) &&
            (forall a :: a in listing && a.id !in g.claimed && a.id in env.profiles ==>
              var q := env.profiles[a.id].id; q in r.device && r.device[q].name == a.name) &&
            forall q :: q in r.device && q !in g.device ==>
              r.device[q].state.Some? && exists a :: a in listing && a.id == r.device[q].state.value.agentId
    decreases |listing|
  {
    hide ApplyPulls, RemoteParts, FullBase;
    if listing != [] {
      var a, tail, h := listing[0], listing[1..], CreateLocal(g, listing[0], env);
      assert forall i :: 0 <= i < |tail| ==> tail[i] == listing[i + 1];
      assert h.claimed == g.claimed && h.cloud == g.cloud;
      PullsAreNamed(h, tail, env);
      var r := CreateAllLocal(h, tail, env);
      assert forall b :: b in listing ==> b == a || b in tail;
      forall q | q in r.device && q !in g.device
        ensures r.device[q].state.Some? && exists b :: b in listing && b.id == r.device[q].state.value.agentId {
        if q in h.device { assert a in listing && a.id == h.device[q].state.value.agentId; }
      }
    }
  }

  lemma {:induction false} ClassifyKeepsNames(g: Progress, profiles: seq<string>, userId: string)
    ensures var r := ClassifyAll(g, profiles, userId);
            SameNames(g, r) && r.cloud == g.cloud && r.device.Keys == g.device.Keys &&
            forall q :: q in g.device && g.device[q].state.None? ==> r.device[q] == g.device[q]
    decreases |profiles|
  {
    hide IsForeign;
    if profiles != [] { ClassifyKeepsNames(Classify(g, profiles[0], userId), profiles[1..], userId); }
  }

  lemma {:induction false} NamingKeepsDevice(g: Progress, profiles: seq<string>, listing: seq<Agent>, userId: string)
    ensures var r := LinkAllByName(g, profiles, listing, userId); r.device == g.device && r.cloud == g.cloud
    decreases |profiles|
  {
    hide MatchName;
    if profiles != [] {
      NamingKeepsDevice(LinkByName(g, profiles[0], listing, userId), profiles[1..], listing, userId);
    }
  }

  /** The first loop leaves over exactly the profiles it finds without a state, as they are. */
  lemma {:induction false} ClassifyLeaves(g: Progress, profiles: seq<string>, userId: string, q: string)
    requires Distinct(profiles) && q in g.device
    ensures var r := ClassifyAll(g, profiles, userId);
            q in r.device && (q !in profiles ==> r.device[q] == g.device[q]) &&
            (q in r.unlinked <==> q in g.unlinked || (q in profiles && g.device[q].state.None?)) &&
            (g.device[q].state.None? ==> r.device[q] == g.device[q])
    decreases |profiles|
  {
    hide IsForeign;
    if profiles != [] {
      FirstApart(profiles);
      ClassifyLeaves(Classify(g, profiles[0], userId), profiles[1..], userId, q);
    }
  }

  lemma {:induction false} NamingLeaves(g: Progress, profiles: seq<string>, listing: seq<Agent>, userId: string)
    ensures forall q :: q in LinkAllByName(g, profiles, listing, userId).unlinked ==> q in g.unlinked || q in profiles
    decreases |profiles|
  {
    hide MatchName;
    if profiles != [] { NamingLeaves(LinkByName(g, profiles[0], listing, userId), profiles[1..], listing, userId); }
  }

  /** The linking loops keep names, and what is left over had no state and stands once, as it was. */
  lemma NamesAfterLinking(device: Device, cloud: Cloud, profiles: seq<string>, listing: seq<Agent>, userId: string)
    requires Listed(device, cloud, profiles, listing) && NoSharing(device, userId)
    ensures var g := Linked(device, cloud, profiles, listing, userId);
            SameNames(Progress(device, cloud, {}, [], []), g) && g.cloud == cloud && g.device.Keys == device.Keys &&
            Distinct(g.unlinked) &&
            forall p :: p in g.unlinked ==>
              p in device && device[p].state.None? && g.device[p] == device[p] && p !in Profiles(g.linked)
  {
    hide ClassifyAll, LinkAllByName, NoSharing, LinksTo, LinksOk, IsForeign;
    var start := Progress(device, cloud, {}, [], []);
    var c, g := ClassifyAll(start, profiles, userId), Linked(device, cloud, profiles, listing, userId);
    ClassifyKeepsNames(start, profiles, userId);
    NamingKeepsDevice(c.(unlinked := []), c.unlinked, listing, userId);
    NamingLeaves(c.(unlinked := []), c.unlinked, listing, userId);
    LinkedIsByName(device, cloud, profiles, listing, userId);
    assert g.unlinked + [] == g.unlinked;
    forall p | p in g.unlinked
      ensures p in device && device[p].state.None? && g.device[p] == device[p] && p !in Profiles(g.linked) {
      var i :| 0 <= i < |g.unlinked| && g.unlinked[i] == p;
      assert HasNoState(g.device, g.unlinked[i]);
      ClassifyLeaves(start, profiles, userId, p);
    }
  }

  /** The stages behind the linking loops: reconciling, backing up, and making profiles. */
  lemma NamesAfterMaking(g: Progress, listing: seq<Agent>, env: Env)
    requires Distinct(g.unlinked) && DistinctIds(listing) && FreshProfiles(g.device, listing, env)
    requires forall p :: p in g.unlinked ==> p in g.device && p !in Profiles(g.linked)
    requires (forall p, x :: PostMakes(env, p, x) ==> x !in g.cloud) &&
             (forall p, q, x :: PostMakes(env, p, x) && PostMakes(env, q, x) ==> p == q)
    ensures var h := ReconcileAll(g, g.linked, env);
            var k := CreateAllRemote(h, h.unlinked, env);
            var r := CreateAllLocal(k, listing, env);
            SameNames(g, r) &&
            (forall p, x :: p in g.unlinked && PostMakes(env, p, x) ==>
              x in r.cloud && r.cloud[x].name == Cut(g.device[p].name)) &&
            (forall p :: p in g.unlinked && !PostOf(env, p).Created? ==> p in r.device && r.device[p] == g.device[p]) &&
            forall a :: a in listing && a.id !in k.claimed && a.id in env.profiles ==>
              var q := env.profiles[a.id].id; q in r.device && r.device[q].name == a.name
  {
    hide ReconcileAll, CreateAllRemote, CreateAllLocal, PostMakes, PostOf;
    ReconcilingKeepsNames(g, g.linked, env);
    var h := ReconcileAll(g, g.linked, env);
    BackupsAreNamed(h, h.unlinked, env);
    var k := CreateAllRemote(h, h.unlinked, env);
    FreshProfilesKept(g.device, k.device, listing, env);
    PullsAreNamed(k, listing, env);
  }

  /** What a pass does to names, and to the profiles it leaves over. */
  lemma NamesAfterPass(device: Device, cloud: Cloud, profiles: seq<string>, listing: seq<Agent>, env: Env)
    requires Sound(device, cloud, profiles, listing, env) && NoSharing(device, env.userId)
    ensures var g := Linked(device, cloud, profiles, listing, env.userId);
            var r := RunPass(device, cloud, profiles, listing, env);
            SameNames(Progress(device, cloud, {}, [], []), r) &&
            (forall p, x :: p in g.unlinked && PostMakes(env, p, x) ==>
              p in device && x in r.cloud && r.cloud[x].name == Cut(device[p].name)) &&
            (forall p :: p in g.unlinked && !PostOf(env, p).Created? ==>
              p in device && p in r.device && device[p].state.None? && r.device[p] == device[p]) &&
            forall a :: a in listing && a.id !in g.claimed && a.id in env.profiles ==>
              var q := env.profiles[a.id].id; q in r.device && r.device[q].name == a.name
  {
    hide Linked, ReconcileAll, CreateAllRemote, CreateAllLocal, PostOf, NoSharing, Listed, LinksTo, LinksGrow, Steady,
         ForeignUntouched, Owns, PostMakes;
    var g := Linked(device, cloud, profiles, listing, env.userId);
    SoundIsListed(device, cloud, profiles, listing, env);
    NamesAfterLinking(device, cloud, profiles, listing, env.userId);
    ListedIds(device, cloud, profiles, listing);
    FreshProfilesKept(device, g.device, listing, env);
    NamesAfterMaking(g, listing, env);
    Stages(device, cloud, profiles, listing, env);
    var h := ReconcileAll(g, g.linked, env);
    ClaimsKept(g, h, CreateAllRemote(h, h.unlinked, env), env.userId);
  }

  lemma ClaimsKept(g: Progress, h: Progress, k: Progress, userId: string)
    requires LinksGrow(g, h, userId) && LinksGrow(h, k, userId)
    ensures k.claimed == g.claimed
  {
    hide Owns, LinksTo, ForeignUntouched;
  }

  // ---------------------------------------------------------------- recorded names

  lemma ListedProfiles(device: Device, cloud: Cloud, profiles: seq<string>, listing: seq<Agent>)
    requires Listed(device, cloud, profiles, listing)
    ensures Distinct(profiles) && forall p :: p in profiles <==> p in device
    ensures forall a :: a in listing <==> a.id in cloud && cloud[a.id] == a
    ensures forall x :: x in cloud ==> cloud[x] in listing && cloud[x].id == x
  {
  }

  /** Every link of this account leads into the cloud and records the name of its agent. */
  ghost predicate Told(g: Progress, userId: string) {
    forall q, x :: Owns(g.device, q, x, userId) ==>
      x in g.cloud && g.device[q].state.value.remoteName == g.cloud[x].name
  }

  lemma ReconcileTells(g: Progress, l: Link, env: Env)
    requires Told(g, env.userId) && forall x :: x in g.cloud ==> g.cloud[x].id == x
    ensures var r := ReconcileLink(g, l, env); Told(r, env.userId) && forall x :: x in r.cloud ==> r.cloud[x].id == x
  {
    hide BuildBody, Choose, ApplyPulls, NextBase, RemoteParts;
    if l.profile in g.device && l.agent in g.cloud {
      var r := ReconcileLink(g, l, env);
      forall q, x | Owns(r.device, q, x, env.userId)
        ensures x in r.cloud && r.device[q].state.value.remoteName == r.cloud[x].name {
        if q != l.profile || r.device[q].state == g.device[q].state { assert Owns(g.device, q, x, env.userId); }
      }
    }
  }

  lemma {:induction false} ReconcilingTells(g: Progress, links: seq<Link>, env: Env)
    requires Told(g, env.userId) && forall x :: x in g.cloud ==> g.cloud[x].id == x
    ensures Told(ReconcileAll(g, links, env), env.userId)
    decreases |links|
  {
    hide ReconcileLink, Told;
    if links != [] {
      ReconcileTells(g, links[0], env);
      ReconcilingTells(ReconcileLink(g, links[0], env), links[1..], env);
    }
  }

  lemma {:induction false} BackingUpTells(g: Progress, rest: seq<string>, env: Env)
    requires Told(g, env.userId) && Distinct(rest)
    requires (forall p, x :: p in rest && PostMakes(env, p, x) ==> x !in g.cloud) &&
             (forall p, q, x :: PostMakes(env, p, x) && PostMakes(env, q, x) ==> p == q)
    ensures Told(CreateAllRemote(g, rest, env), env.userId)
    decreases |rest|
  {
    hide CreateRemote, PostOf, Owns;
    if rest != [] {
      var h := CreateRemote(g, rest[0], env);
      FirstApart(rest);
      BackupTells(g, rest[0], env);
      BackingUpTells(h, rest[1..], env);
    }
  }

  lemma BackupTells(g: Progress, p: string, env: Env)
    requires Told(g, env.userId) && forall x :: PostMakes(env, p, x) ==> x !in g.cloud
    ensures var r := CreateRemote(g, p, env);
            Told(r, env.userId) && forall x :: x in r.cloud ==> x in g.cloud || PostMakes(env, p, x)
  {
    hide NewAgent, CreatedBase, LocalParts;
    var r := CreateRemote(g, p, env);
    forall id | PostMakes(env, p, id) ensures id !in g.cloud {}
    forall q, x | Owns(r.device, q, x, env.userId)
      ensures x in r.cloud && r.device[q].state.value.remoteName == r.cloud[x].name {
      if r.device == g.device || q != p { assert Owns(g.device, q, x, env.userId); }
      match PostOf(env, p)
      case PostRefused =>
      case PostLost(made) => if made.Some? { assert PostMakes(env, p, made.value); }
      case Created(id) => assert PostMakes(env, p, id);
    }
  }

  lemma {:induction false} PullingTells(g: Progress, listing: seq<Agent>, env: Env)
    requires Told(g, env.userId) && forall a :: a in listing ==> a.id in g.cloud && g.cloud[a.id].name == a.name
    ensures Told(CreateAllLocal(g, listing, env), env.userId)
    decreases |listing|
  {
    hide ApplyPulls, RemoteParts, FullBase;
    if listing != [] {
      var h := CreateLocal(g, listing[0], env);
      assert listing[0] in listing;
      forall q, x | Owns(h.device, q, x, env.userId)
        ensures x in h.cloud && h.device[q].state.value.remoteName == h.cloud[x].name {
        if q in g.device && h.device[q] == g.device[q] { assert Owns(g.device, q, x, env.userId); }
      }
      PullingTells(h, listing[1..], env);
    }
  }

  /** Every pass keeps it: a link of this account records the name of its agent. */
  lemma LinksRecordNames(device: Device, cloud: Cloud, profiles: seq<string>, listing: seq<Agent>, env: Env)
    requires Sound(device, cloud, profiles, listing, env) && NoSharing(device, env.userId)
    requires forall q, x :: Owns(device, q, x, env.userId) && x in cloud ==>
               device[q].state.value.remoteName == cloud[x].name
    ensures Told(RunPass(device, cloud, profiles, listing, env), env.userId)
  {
    hide Linked, ReconcileAll, CreateAllRemote, CreateAllLocal, NoSharing, Listed, LinksTo, PostMakes, SameNames,
         ClassifyAll, LinkAllByName, LinksGrow, Steady, ForeignUntouched;
    var userId := env.userId;
    var g := Linked(device, cloud, profiles, listing, userId);
    SoundIsListed(device, cloud, profiles, listing, env);
    ListedProfiles(device, cloud, profiles, listing);
    LinkedTells(device, cloud, profiles, listing, userId);
    NamesAfterLinking(device, cloud, profiles, listing, userId);
    ReconcilingTells(g, g.linked, env);
    ReconcilingKeepsNames(g, g.linked, env);
    var h := ReconcileAll(g, g.linked, env);
    assert forall p, x :: PostMakes(env, p, x) ==> x !in cloud;
    BackingUpTells(h, h.unlinked, env);
    BackupsAreNamed(h, h.unlinked, env);
    var k := CreateAllRemote(h, h.unlinked, env);
    ListedNames(g, h, k, listing);
    PullingTells(k, listing, env);
  }

  lemma ListedNames(g: Progress, h: Progress, k: Progress, listing: seq<Agent>)
    requires SameNames(g, h) && SameNames(h, k) && forall a :: a in listing ==> a.id in g.cloud && g.cloud[a.id] == a
    ensures forall a :: a in listing ==> a.id in k.cloud && k.cloud[a.id].name == a.name
  {
  }

  lemma LinkedTells(device: Device, cloud: Cloud, profiles: seq<string>, listing: seq<Agent>, userId: string)
    requires Listed(device, cloud, profiles, listing) && NoSharing(device, userId)
    requires forall q, x :: Owns(device, q, x, userId) && x in cloud ==>
               device[q].state.value.remoteName == cloud[x].name
    ensures Told(Linked(device, cloud, profiles, listing, userId), userId)
  {
    hide ClassifyAll, LinkAllByName, NoSharing, Listed, LinksTo, LinksOk;
    var start := Progress(device, cloud, {}, [], []);
    var c, g := ClassifyAll(start, profiles, userId), Linked(device, cloud, profiles, listing, userId);
    NamingKeepsDevice(c.(unlinked := []), c.unlinked, listing, userId);
    LinkedIsByName(device, cloud, profiles, listing, userId);
    ListedProfiles(device, cloud, profiles, listing);
    forall q, x | Owns(g.device, q, x, userId)
      ensures x in g.cloud && g.device[q].state.value.remoteName == g.cloud[x].name {
      UnlinkedIff(start, profiles, userId, q);
      assert Owns(device, q, x, userId);
    }
  }

  // ---------------------------------------------------------------- a creation whose answer was lost

  /** The backup loop and the last loop link to agents they make, answered, and to agents that were listed. */
  lemma NewLinksLead(h: Progress, listing: seq<Agent>, env: Env)
    requires Distinct(h.unlinked) && DistinctIds(listing) && FreshProfiles(h.device, listing, env)
    requires forall p :: p in h.unlinked ==> p in h.device
    requires (forall p, x :: p in h.unlinked && PostMakes(env, p, x) ==> x !in h.cloud) &&
             (forall p, q, x :: PostMakes(env, p, x) && PostMakes(env, q, x) ==> p == q)
    ensures var r := CreateAllLocal(CreateAllRemote(h, h.unlinked, env), listing, env);
            forall q, x :: LinksTo(r.device, q, x, env.userId) ==>
              LinksTo(h.device, q, x, env.userId) || PostOf(env, q) == Created(x) || x in Ids(listing)
  {
    hide CreateAllRemote, CreateAllLocal, PostOf, IsForeign, SameNames;
    BackupsAreNamed(h, h.unlinked, env);
    var k := CreateAllRemote(h, h.unlinked, env);
    FreshProfilesKept(h.device, k.device, listing, env);
    PullsAreNamed(k, listing, env);
    var r := CreateAllLocal(k, listing, env);
    forall q, x | LinksTo(r.device, q, x, env.userId)
      ensures LinksTo(h.device, q, x, env.userId) || PostOf(env, q) == Created(x) || x in Ids(listing) {
      if q in k.device {
        assert r.device[q] == k.device[q];
      } else {
        var a :| a in listing && a.id == r.device[q].state.value.agentId;
        var i :| 0 <= i < |listing| && listing[i] == a;
        assert listing[i].id in Ids(listing);
      }
    }
  }

  /** Nobody holds an eligible link to the agent after a pass that made it without an answer. */
  lemma NobodyKnows(device: Device, cloud: Cloud, profiles: seq<string>, listing: seq<Agent>, env: Env, p: string,
                    id: string)
    requires Sound(device, cloud, profiles, listing, env) && NoSharing(device, env.userId)
    requires PostOf(env, p) == PostLost(Some(id))
    ensures forall q :: !LinksTo(RunPass(device, cloud, profiles, listing, env).device, q, id, env.userId)
  {
    hide Linked, ReconcileAll, CreateAllRemote, CreateAllLocal, NoSharing, Listed, LinksGrow, Steady, ForeignUntouched,
         Owns, IsForeign, SameNames, LinksTo, ByName;
    var userId := env.userId;
    var g := Linked(device, cloud, profiles, listing, userId);
    assert PostMakes(env, p, id) && Unused(device, cloud, id, userId);
    Stages(device, cloud, profiles, listing, env);
    SoundIsListed(device, cloud, profiles, listing, env);
    LinkedIsByName(device, cloud, profiles, listing, userId);
    NamesAfterLinking(device, cloud, profiles, listing, userId);
    ListedIds(device, cloud, profiles, listing);
    var h := ReconcileAll(g, g.linked, env);
    GrowLinks(g, h, userId);
    ReconcilingKeepsNames(g, g.linked, env);
    FreshProfilesKept(device, h.device, listing, env);
    NewLinksLead(h, listing, env);
    assert forall q :: PostOf(env, q) == Created(id) ==> PostMakes(env, q, id);
  }

  lemma GrowLinks(g: Progress, h: Progress, userId: string)
    requires LinksGrow(g, h, userId)
    ensures forall q, x :: LinksTo(h.device, q, x, userId) ==> LinksTo(g.device, q, x, userId) || x in h.cloud
  {
    hide Owns, LinksTo, ForeignUntouched;
  }

  /** No other agent and no other profile without a state goes by this name. */
  ghost predicate IsAlone(device: Device, cloud: Cloud, p: string, id: string, name: string) {
    (forall x :: x in cloud && cloud[x].name == name ==> x == id) &&
    forall q :: q in device && device[q].state.None? && device[q].name == name ==> q == p
  }

  lemma {:induction false} MatchIs(listing: seq<Agent>, claimed: set<string>, a: Agent)
    requires a in listing && a.id !in claimed && forall b :: b in listing && b.name == a.name ==> b == a
    ensures MatchName(listing, claimed, a.name) == Some(a)
  {
    if listing[0] != a { MatchIs(listing[1..], claimed, a); }
  }

  /** The second loop joins the profile to the one agent of its name. */
  lemma {:induction false} NameIsFound(g: Progress, rest: seq<string>, listing: seq<Agent>, userId: string, p: string,
                                       a: Agent)
    requires p in rest && Distinct(rest) && p !in g.unlinked && p in g.device && a.id !in g.claimed && a in listing
    requires a.name == g.device[p].name && forall b :: b in listing && (b.name == a.name || b.id == a.id) ==> b == a
    requires forall q :: q in rest && q in g.device && g.device[q].name == a.name ==> q == p
    ensures var r := LinkAllByName(g, rest, listing, userId);
            Link(p, a.id, SyncState(a.id, Some(userId), a.name, map[])) in r.linked && p !in r.unlinked
    decreases |rest|
  {
    hide MatchName;
    var q, h := rest[0], LinkByName(g, rest[0], listing, userId);
    FirstApart(rest);
    if q == p {
      MatchIs(listing, g.claimed, a);
      LinksStay(h, rest[1..], listing, userId);
    } else {
      NameIsFound(h, rest[1..], listing, userId, p, a);
    }
  }

  /** A profile whose name no agent has stays over. */
  lemma {:induction false} NameIsMissed(g: Progress, rest: seq<string>, listing: seq<Agent>, userId: string, p: string)
    requires p in g.unlinked || p in rest
    requires p in g.device ==> forall a :: a in listing ==> a.name != g.device[p].name
    ensures p in LinkAllByName(g, rest, listing, userId).unlinked
    decreases |rest|
  {
    hide MatchName;
    if rest != [] {
      var h := LinkByName(g, rest[0], listing, userId);
      assert p in g.unlinked ==> p in h.unlinked;
      assert p == rest[0] ==> h.unlinked == g.unlinked + [p];
      NameIsMissed(h, rest[1..], listing, userId, p);
    }
  }

  lemma {:induction false} LinksStay(g: Progress, rest: seq<string>, listing: seq<Agent>, userId: string)
    ensures var r := LinkAllByName(g, rest, listing, userId);
            (forall l :: l in g.linked ==> l in r.linked) &&
            forall q :: q in r.unlinked ==> q in g.unlinked || q in rest
    decreases |rest|
  {
    hide MatchName;
    if rest != [] {
      var h := LinkByName(g, rest[0], listing, userId);
      LinksStay(h, rest[1..], listing, userId);
      forall l | l in g.linked ensures l in h.linked {
        var i :| 0 <= i < |g.linked| && g.linked[i] == l;
        assert h.linked[i] == l;
      }
      assert forall q :: q in h.unlinked ==> q in g.unlinked || q == rest[0];
      assert rest[0] in rest && forall q :: q in rest[1..] ==> q in rest;
    }
  }

  /** After the first loop an agent is claimed only by a link that leads to it. */
  lemma ClaimsAreLinks(device: Device, cloud: Cloud, profiles: seq<string>, listing: seq<Agent>, userId: string,
                       id: string)
    requires Listed(device, cloud, profiles, listing) && NoSharing(device, userId) &&
             forall q :: !LinksTo(device, q, id, userId)
    ensures id !in ClassifyAll(Progress(device, cloud, {}, [], []), profiles, userId).claimed
  {
    hide ClassifyAll, IsForeign, LinksTo, NoSharing, Listed;
    var start := Progress(device, cloud, {}, [], []);
    assert Distinct(profiles) && forall p :: p in profiles ==> p in device by {
      ListedProfiles(device, cloud, profiles, listing);
    }
    assert Classified(start, {}, userId);
    ClassifyRun(start, profiles, {}, userId);
    var c := ClassifyAll(start, profiles, userId);
    forall i | 0 <= i < |c.linked| ensures c.linked[i].agent != id {
      assert LinkOk(c.device, c.cloud, c.linked[i], userId);
      assert c.linked[i].profile in Profiles(c.linked);
    }
  }

  /**
   * The linking loops of a later pass, on any current listing: a profile without a state is joined to the agent nobody
   * links to, if that alone has the profile's name; if no agent has it, the profile is left over and backed up.
   */
  lemma LinkedByName(device: Device, cloud: Cloud, profiles: seq<string>, listing: seq<Agent>, userId: string,
                     p: string,
                     id: string)
    requires Listed(device, cloud, profiles, listing) && NoSharing(device, userId)
    requires p in device && device[p].state.None? && id in cloud && forall q :: !LinksTo(device, q, id, userId)
    requires IsAlone(device, cloud, p, id, device[p].name)
    ensures var g := Linked(device, cloud, profiles, listing, userId);
            if cloud[id].name == device[p].name
            then Link(p, id, SyncState(id, Some(userId), device[p].name, map[])) in g.linked && p !in g.unlinked
            else p in g.unlinked
  {
    hide ClassifyAll, LinkAllByName, IsForeign, LinksTo, NoSharing, Listed;
    var start := Progress(device, cloud, {}, [], []);
    var c := ClassifyAll(start, profiles, userId);
    ListedProfiles(device, cloud, profiles, listing);
    ClaimsAreLinks(device, cloud, profiles, listing, userId, id);
    ClassifyKeepsNames(start, profiles, userId);
    ClassifyRun(start, profiles, {}, userId) by { assert Classified(start, {}, userId); }
    ClassifyLeaves(start, profiles, userId, p);
    var g := c.(unlinked := []);
    if cloud[id].name == device[p].name {
      forall q | q in c.unlinked && q in g.device && g.device[q].name == cloud[id].name ensures q == p {
        ClassifyLeaves(start, profiles, userId, q);
      }
      NameIsFound(g, c.unlinked, listing, userId, p, cloud[id]);
    } else {
      NameIsMissed(g, c.unlinked, listing, userId, p);
    }
  }

  /**
   * Recovery through the name. A profile whose creation took effect without an answer, and whose name no other agent
   * and no other left-over profile has, is joined to that agent by the next pass, so that no second agent is made, if
   * and only if its name has at most eighty characters; otherwise it is left over and backed up once more.
   */
  lemma LostBackupIsFoundIff(device: Device, cloud: Cloud, profiles: seq<string>, listing: seq<Agent>, env: Env,
                             p: string, id: string, profiles2: seq<string>, listing2: seq<Agent>)
    requires Sound(device, cloud, profiles, listing, env) && NoSharing(device, env.userId)
    requires p in Linked(device, cloud, profiles, listing, env.userId).unlinked && PostOf(env, p) == PostLost(Some(id))
    requires var r := RunPass(device, cloud, profiles, listing, env);
             Listed(r.device, r.cloud, profiles2, listing2) && p in device &&
             IsAlone(r.device, r.cloud, p, id, device[p].name)
    ensures var r := RunPass(device, cloud, profiles, listing, env);
            var g := Linked(r.device, r.cloud, profiles2, listing2, env.userId);
            if |device[p].name| <= 80
            then Link(p, id, SyncState(id, Some(env.userId), device[p].name, map[])) in g.linked && p !in g.unlinked
            else p in g.unlinked
  {
    hide Linked, RunPass, Sound, NoSharing, Listed, LinksTo, IsAlone, ForeignUntouched, Owns;
    var r := RunPass(device, cloud, profiles, listing, env);
    assert PostMakes(env, p, id);
    NamesAfterPass(device, cloud, profiles, listing, env);
    NobodyKnows(device, cloud, profiles, listing, env, p, id);
    EveryPassKeepsLinksApart(device, cloud, profiles, listing, env);
    CutIsPrefix(device[p].name);
    LinkedByName(r.device, r.cloud, profiles2, listing2, env.userId, p, id);
  }
}
