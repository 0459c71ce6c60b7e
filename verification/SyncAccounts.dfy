/** Several accounts on one device: whatever the order of passes and edits, links stay apart for each of them. */
module SyncAccounts {
  import opened Text
  import opened Sync
  import opened SyncPass
  import opened SyncLinks

  /** A pass leaves a state as it was, clears it, or makes it this account's. */
  predicate StateMoves(before: Option<Local>, after: Local, userId: string) {
    after.state.None? || after.state.value.accountId == Some(userId) ||
    (before.Some? && before.value.state == after.state)
  }

  function At(device: Device, q: string): Option<Local> {
    if q in device then Some(device[q]) else None
  }

  ghost predicate OnlyMine(before: Device, after: Device, userId: string) {
    forall q :: q in after ==> StateMoves(At(before, q), after[q], userId)
  }

  lemma OnlyMineTwice(a: Device, b: Device, c: Device, userId: string)
    requires OnlyMine(a, b, userId) && OnlyMine(b, c, userId)
    ensures OnlyMine(a, c, userId)
  {
    forall q | q in c ensures StateMoves(At(a, q), c[q], userId) {
      assert StateMoves(At(b, q), c[q], userId);
      assert q in b ==> StateMoves(At(a, q), b[q], userId);
    }
  }

  lemma {:induction false} ClassifyIsMine(g: Progress, profiles: seq<string>, userId: string)
    ensures OnlyMine(g.device, ClassifyAll(g, profiles, userId).device, userId)
    decreases |profiles|
  {
    hide IsForeign;
    if profiles != [] {
      var h := Classify(g, profiles[0], userId);
      ClassifyIsMine(h, profiles[1..], userId);
      OnlyMineTwice(g.device, h.device, ClassifyAll(h, profiles[1..], userId).device, userId);
    }
  }

  lemma {:induction false} NamingIsSilent(g: Progress, profiles: seq<string>, listing: seq<Agent>, userId: string)
    ensures LinkAllByName(g, profiles, listing, userId).device == g.device
    decreases |profiles|
  {
    hide MatchName;
    if profiles != [] { NamingIsSilent(LinkByName(g, profiles[0], listing, userId), profiles[1..], listing, userId); }
  }

  lemma {:induction false} ReconcileIsMine(g: Progress, links: seq<Link>, env: Env)
    ensures OnlyMine(g.device, ReconcileAll(g, links, env).device, env.userId)
    decreases |links|
  {
    hide Reconcile;
    if links != [] {
      var l, h := links[0], ReconcileLink(g, links[0], env);
      if l.profile in g.device && l.agent in g.cloud {
        ReconcileShape(Pair(g.device[l.profile], g.cloud[l.agent]), l.state, env.userId, TimesOf(env, l.profile),
          PatchOf(env, l.agent));
      }
      assert OnlyMine(g.device, h.device, env.userId);
      ReconcileIsMine(h, links[1..], env);
      OnlyMineTwice(g.device, h.device, ReconcileAll(h, links[1..], env).device, env.userId);
    }
  }

  lemma {:induction false} BackupIsMine(g: Progress, profiles: seq<string>, env: Env)
    ensures OnlyMine(g.device, CreateAllRemote(g, profiles, env).device, env.userId)
    decreases |profiles|
  {
    hide CreatedBase, NewAgent;
    if profiles != [] {
      var h := CreateRemote(g, profiles[0], env);
      BackupIsMine(h, profiles[1..], env);
      OnlyMineTwice(g.device, h.device, CreateAllRemote(h, profiles[1..], env).device, env.userId);
    }
  }

  lemma {:induction false} PullingIsMine(g: Progress, listing: seq<Agent>, env: Env)
    ensures OnlyMine(g.device, CreateAllLocal(g, listing, env).device, env.userId)
    decreases |listing|
  {
    hide ApplyPulls;
    if listing != [] {
      var h := CreateLocal(g, listing[0], env);
      PullingIsMine(h, listing[1..], env);
      OnlyMineTwice(g.device, h.device, CreateAllLocal(h, listing[1..], env).device, env.userId);
    }
  }

  /** No pass writes a state in another account's name, or a state without an owner. */
  lemma PassIsMine(device: Device, cloud: Cloud, profiles: seq<string>, listing: seq<Agent>, env: Env)
    ensures OnlyMine(device, RunPass(device, cloud, profiles, listing, env).device, env.userId)
  {
    hide OnlyMine;
    var c := ClassifyAll(Progress(device, cloud, {}, [], []), profiles, env.userId);
    ClassifyIsMine(Progress(device, cloud, {}, [], []), profiles, env.userId);
    NamingIsSilent(c.(unlinked := []), c.unlinked, listing, env.userId);
    var g := Linked(device, cloud, profiles, listing, env.userId);
    var h := ReconcileAll(g, g.linked, env);
    var k := CreateAllRemote(h, h.unlinked, env);
    ReconcileIsMine(g, g.linked, env);
    BackupIsMine(h, h.unlinked, env);
    PullingIsMine(k, listing, env);
    OnlyMineTwice(device, g.device, h.device, env.userId);
    OnlyMineTwice(device, h.device, k.device, env.userId);
    OnlyMineTwice(device, k.device, CreateAllLocal(k, listing, env).device, env.userId);
  }

  /** So the links another account may act on can only become fewer. */
  lemma OthersLoseOnly(before: Device, after: Device, userId: string, other: string)
    requires OnlyMine(before, after, userId) && other != userId && userId != ""
    ensures forall q, x :: LinksTo(after, q, x, other) ==> LinksTo(before, q, x, other)
  {
    forall q, x | LinksTo(after, q, x, other) ensures LinksTo(before, q, x, other) {
      assert StateMoves(At(before, q), after[q], userId);
    }
  }

  // ---------------------------------------------------------------- runs

  /** The device, and the agents each account keeps in the cloud. */
  datatype World = World(device: Device, clouds: map<string, Cloud>)

  datatype Event =
    | PassBy(profiles: seq<string>, listing: seq<Agent>, env: Env)
    | EditProfile(profile: string, name: string, values: Values)
    | DeleteProfile(doomed: string)
    | EditCloud(owner: string, agents: Cloud)

  function CloudOf(w: World, userId: string): Cloud {
    if userId in w.clouds then w.clouds[userId] else map[]
  }

  function Step(w: World, e: Event): World {
    match e
    case PassBy(profiles, listing, env) =>
      var r := RunPass(w.device, CloudOf(w, env.userId), profiles, listing, env);
      World(r.device, w.clouds[env.userId := r.cloud])
    case EditProfile(q, name, values) =>
      if q in w.device then w.(device := w.device[q := w.device[q].(name := name, values := values)]) else w
    case DeleteProfile(q) => w.(device := w.device - {q})
    case EditCloud(owner, agents) => w.(clouds := w.clouds[owner := agents])
  }

  /** Each pass is given complete listings and new identifiers by the world it runs in. */
  ghost predicate Fair(w: World, events: seq<Event>)
    decreases |events|
  {
    events == [] ||
    ((events[0].PassBy? ==>
        events[0].env.userId != "" &&
        Sound(w.device, CloudOf(w, events[0].env.userId), events[0].profiles, events[0].listing, events[0].env)) &&
     Fair(Step(w, events[0]), events[1..]))
  }

  function Run(w: World, events: seq<Event>): World
    decreases |events|
  {
    if events == [] then w else Run(Step(w, events[0]), events[1..])
  }

  ghost predicate Apart(device: Device) {
    forall userId :: userId != "" ==> NoSharing(device, userId)
  }

  lemma PassKeepsApart(device: Device, cloud: Cloud, profiles: seq<string>, listing: seq<Agent>, env: Env)
    requires Apart(device) && env.userId != "" && Sound(device, cloud, profiles, listing, env)
    ensures Apart(RunPass(device, cloud, profiles, listing, env).device)
  {
    hide RunPass, OnlyMine, Sound, LinksTo;
    var r := RunPass(device, cloud, profiles, listing, env);
    EveryPassKeepsLinksApart(device, cloud, profiles, listing, env);
    PassIsMine(device, cloud, profiles, listing, env);
    forall other | other != "" ensures NoSharing(r.device, other) {
      assert NoSharing(device, other);
      if other != env.userId { OthersLoseOnly(device, r.device, env.userId, other); }
    }
  }

  lemma StepKeepsApart(w: World, e: Event)
    requires Apart(w.device) && Fair(w, [e])
    ensures Apart(Step(w, e).device)
  {
    hide RunPass, Sound;
    if e.PassBy? {
      PassKeepsApart(w.device, CloudOf(w, e.env.userId), e.profiles, e.listing, e.env);
    } else {
      var after := Step(w, e).device;
      forall userId | userId != "" ensures NoSharing(after, userId) {
        assert NoSharing(w.device, userId);
        forall q, x | LinksTo(after, q, x, userId) ensures LinksTo(w.device, q, x, userId) {}
      }
    }
  }

  /**
   * Over every run of passes under any accounts, edits on both sides and deletions, links stay apart for every
   * account.
   */
  lemma {:induction false} RunsKeepLinksApart(w: World, events: seq<Event>)
    requires Apart(w.device) && Fair(w, events)
    ensures Apart(Run(w, events).device)
    decreases |events|
  {
    hide Step, Apart, Sound;
    if events != [] {
      assert Fair(w, [events[0]]) by { assert [events[0]][1..] == []; }
      StepKeepsApart(w, events[0]);
      RunsKeepLinksApart(Step(w, events[0]), events[1..]);
    }
  }
}
