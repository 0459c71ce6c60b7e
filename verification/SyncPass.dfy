/** One whole sync pass: linking by id and by name, reconciling, and creating on both sides. */
module SyncPass {
  import opened Text
  import opened Sync

  const MAX_NAME_CHARS := 80

  type Device = map<string, Local>

  type Cloud = map<string, Agent>

  /** A profile linked to an agent in this pass, and the state it is reconciled from. */
  datatype Link = Link(profile: string, agent: string, state: SyncState)

  datatype PostOutcome = Created(id: string) | PostRefused | PostLost(made: Option<string>)

  /** A new profile directory, with the values the command line tool gives it. */
  datatype NewProfile = NewProfile(id: string, values: Values)

  /** Everything a pass cannot decide: who is signed in, file times, and what requests come back with. */
  datatype Env = Env(
    userId: string,
    times: map<string, Times>,
    patches: map<string, Outcome>,
    posts: map<string, PostOutcome>,
    profiles: map<string, NewProfile>)

  function TimesOf(env: Env, profile: string): Times {
    if profile in env.times then env.times[profile] else Times(map[], 0)
  }

  function PatchOf(env: Env, agent: string): Outcome {
    if agent in env.patches then env.patches[agent] else Refused
  }

  function PostOf(env: Env, profile: string): PostOutcome {
    if profile in env.posts then env.posts[profile] else PostRefused
  }

  /** Where the pass stands: both sides, the claimed agents, the links, and the profiles left over. */
  datatype Progress = Progress(device: Device, cloud: Cloud, claimed: set<string>, linked: seq<Link>,
                               unlinked: seq<string>)

  /** A link of another account, to be left alone. */
  predicate IsForeign(s: SyncState, userId: string) {
    s.accountId.Some? && s.accountId.value != "" && s.accountId.value != userId
  }

  function WithState(l: Local, s: Option<SyncState>): Local {
    l.(state := s)
  }

  /** One turn of the first loop: link by stored id, unlink, skip, or leave for later. */
  function Classify(g: Progress, profile: string, userId: string): Progress
  {
    if profile !in g.device || g.device[profile].state.None? then g.(unlinked := g.unlinked + [profile])
    else
      var local := g.device[profile];
      var s := local.state.value;
      if IsForeign(s, userId) then g
      else if s.agentId in g.cloud then
        g.(claimed := g.claimed + {s.agentId}, linked := g.linked + [Link(profile, s.agentId, s)])
      else if s.accountId == Some(userId) then g.(device := g.device[profile := WithState(local, None)])
      else g
  }

  function ClassifyAll(g: Progress, profiles: seq<string>, userId: string): Progress
    decreases |profiles|
  {
    if profiles == [] then g else ClassifyAll(Classify(g, profiles[0], userId), profiles[1..], userId)
  }

  /** The first unclaimed agent of a name. */
  function MatchName(listing: seq<Agent>, claimed: set<string>, name: string): (r: Option<Agent>)
    ensures r.Some? ==> r.value in listing && r.value.id !in claimed && r.value.name == name
  {
    if listing == [] then None
    else if listing[0].id !in claimed && listing[0].name == name then Some(listing[0])
    else MatchName(listing[1..], claimed, name)
  }

  /** One turn of the second loop: link a never-synced profile by name; otherwise it stays over. */
  function LinkByName(g: Progress, profile: string, listing: seq<Agent>, userId: string): Progress
  {
    var m := if profile in g.device then MatchName(listing, g.claimed, g.device[profile].name) else None;
    if m.None? then g.(unlinked := g.unlinked + [profile])
    else
      var id := m.value.id;
      g.(claimed := g.claimed + {id},
         linked := g.linked + [Link(profile, id, SyncState(id, Some(userId), m.value.name, map[]))])
  }

  function LinkAllByName(g: Progress, profiles: seq<string>, listing: seq<Agent>, userId: string): Progress
    decreases |profiles|
  {
    if profiles == [] then
      g else LinkAllByName(LinkByName(g, profiles[0], listing, userId), profiles[1..], listing, userId)
  }

  /** One turn of the reconciliation loop. */
  function ReconcileLink(g: Progress, link: Link, env: Env): Progress
  {
    if link.profile !in g.device || link.agent !in g.cloud then g
    else
      var after := Reconcile(Pair(g.device[link.profile], g.cloud[link.agent]), link.state, env.userId,
                             TimesOf(env, link.profile), PatchOf(env, link.agent));
      g.(device := g.device[link.profile := after.local], cloud := g.cloud[link.agent := after.agent])
  }

  function ReconcileAll(g: Progress, links: seq<Link>, env: Env): Progress
    decreases |links|
  {
    if links == [] then g else ReconcileAll(ReconcileLink(g, links[0], env), links[1..], env)
  }

  /** The base after creating an agent: every part that was sent. */
  function CreatedBase(parts: seq<Part>, next: map<Part, PartValue>, v: Values): map<Part, PartValue>
    decreases |parts|
  {
    if parts == [] then next
    else CreatedBase(parts[1..], if IsPartSkipped(parts[0], v) then next else next[parts[0] := PartOf(v, parts[0])], v)
  }

  /** The agent the backend makes of a creation body. */
  function NewAgent(id: string, l: Local): Agent {
    ApplyBody(Agent(id, if |l.name| > MAX_NAME_CHARS then l.name[..MAX_NAME_CHARS] else l.name, "", None, None, "", ""),
              BuildBody(EMPTY_BODY, PARTS, LocalParts(l.values)))
  }

  /** One turn of the backup loop: create a cloud agent for a profile that is still over. */
  function CreateRemote(g: Progress, profile: string, env: Env): Progress
  {
    if profile !in g.device then g
    else
      var local := g.device[profile];
      match PostOf(env, profile)
      case PostRefused => g
      case PostLost(None) => g
      case PostLost(Some(id)) => g.(cloud := g.cloud[id := NewAgent(id, local)])
      case Created(id) =>
        var agent := NewAgent(id, local);
        var state := SyncState(id, Some(env.userId), agent.name, CreatedBase(PARTS, map[], LocalParts(local.values)));
        g.(cloud := g.cloud[id := agent], device := g.device[profile := WithState(local, Some(state))])
  }

  function CreateAllRemote(g: Progress, profiles: seq<string>, env: Env): Progress
    decreases |profiles|
  {
    if profiles == [] then g else CreateAllRemote(CreateRemote(g, profiles[0], env), profiles[1..], env)
  }

  /** `partHashes` as a base. */
  function FullBase(v: Values): map<Part, PartValue> {
    map[Color := PartOf(v, Color), Soul := PartOf(v, Soul), Memory := PartOf(v, Memory), Config := PartOf(v, Config)]
  }

  /** One turn of the last loop: create a profile for an agent nobody claimed. */
  function CreateLocal(g: Progress, agent: Agent, env: Env): Progress {
    if agent.id in g.claimed || agent.id !in env.profiles then g
    else
      var made := env.profiles[agent.id];
      var remote := RemoteParts(agent);
      var state := SyncState(agent.id, Some(env.userId), agent.name, FullBase(remote));
      g.(device := g.device[made.id := Local(agent.name, ApplyPulls(made.values, PARTS, remote), Some(state))])
  }

  function CreateAllLocal(g: Progress, listing: seq<Agent>, env: Env): Progress
    decreases |listing|
  {
    if listing == [] then g else CreateAllLocal(CreateLocal(g, listing[0], env), listing[1..], env)
  }

  // ---------------------------------------------------------------- the pass

  /** The pass after its linking loops. */
  function Linked(device: Device, cloud: Cloud, profiles: seq<string>, listing: seq<Agent>, userId: string): Progress {
    var g := ClassifyAll(Progress(device, cloud, {}, [], []), profiles, userId);
    LinkAllByName(g.(unlinked := []), g.unlinked, listing, userId)
  }

  /** `runSyncPass` for a signed-in user, once the listing of agents has arrived. */
  function RunPass(device: Device, cloud: Cloud, profiles: seq<string>, listing: seq<Agent>, env: Env): Progress {
    var g := Linked(device, cloud, profiles, listing, env.userId);
    var h := ReconcileAll(g, g.linked, env);
    CreateAllLocal(CreateAllRemote(h, h.unlinked, env), listing, env)
  }
}
