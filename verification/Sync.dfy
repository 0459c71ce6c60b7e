/**
 * Cloud agent sync: the three-way decision per part, the push body, and the reconciliation of one
 * linked pair. Hashes are modelled as injective, so a base holds the value itself.
 */
module Sync {
  import opened Text

  datatype Part = Color | Soul | Memory | Config

  const PARTS: seq<Part> := [Color, Soul, Memory, Config]

  const MAX_SOUL_CHARS := 20000
  const MAX_MEMORY_CHARS := 40000

  /** The values of the four synced parts. */
  datatype Values = Values(color: string, soul: string, memory: string, model: string, provider: string)

  /** What is hashed for one part. */
  datatype PartValue = PText(text: string) | PConfig(model: string, provider: string)

  function PartOf(v: Values, p: Part): PartValue {
    match p
    case Color => PText(v.color)
    case Soul => PText(v.soul)
    case Memory => PText(v.memory)
    case Config => PConfig(v.model, v.provider)
  }

  datatype SyncState = SyncState(agentId: string, accountId: Option<string>, remoteName: string,
                                 base: map<Part, PartValue>)

  /** A profile on the device. */
  datatype Local = Local(name: string, values: Values, state: Option<SyncState>)

  /** A cloud agent as the backend serializes it. */
  datatype Agent = Agent(id: string, name: string, color: string, systemPrompt: Option<string>,
                         memory: Option<string>, model: string, provider: string)

  function OrAuto(provider: string): string {
    if provider == "" then "auto" else provider
  }

  /** `localPartValues` */
  function LocalParts(v: Values): Values {
    v.(provider := OrAuto(v.provider))
  }

  /** `remotePartValues` */
  function RemoteParts(a: Agent): Values {
    Values(a.color, if a.systemPrompt.Some? then a.systemPrompt.value else "",
           if a.memory.Some? then a.memory.value else "", a.model, OrAuto(a.provider))
  }

  datatype Action = Stay | Push | Pull

  /** `decidePartAction` */
  function Decide(base: Option<PartValue>, local: PartValue, remote: PartValue, localMs: int, remoteMs: int): Action {
    if local == remote then Stay
    else if base == Some(local) then Pull
    else if base == Some(remote) then Push
    else if localMs > remoteMs then Push else Pull
  }

  /** File times per part, and the cloud's update time, as a pass reads them. */
  datatype Times = Times(local: map<Part, int>, remote: int)

  function MsOf(t: Times, p: Part): int {
    if p in t.local then t.local[p] else 0
  }

  // ---------------------------------------------------------------- pushing

  /** The JSON body: an absent field is not sent. */
  datatype Body = Body(color: Option<string>, systemPrompt: Option<Option<string>>,
                       memory: Option<Option<string>>, config: Option<(string, string)>)

  const EMPTY_BODY := Body(None, None, None, None)

  function OrNull(s: string): Option<string> {
    if s == "" then None else Some(s)
  }

  /** One turn of the loop of `buildPushBody`: the body, or the part reported as skipped. */
  function AddPart(b: Body, p: Part, v: Values): Body {
    match p
    case Color => b.(color := Some(v.color))
    case Soul => if |v.soul| > MAX_SOUL_CHARS then b else b.(systemPrompt := Some(OrNull(v.soul)))
    case Memory => if |v.memory| > MAX_MEMORY_CHARS then b else b.(memory := Some(OrNull(v.memory)))
    case Config => if v.model == "" then b else b.(config := Some((v.model, OrAuto(v.provider))))
  }

  function BuildBody(b: Body, parts: seq<Part>, v: Values): Body
    decreases |parts|
  {
    if parts == [] then b else BuildBody(AddPart(b, parts[0], v), parts[1..], v)
  }

  /** `isPartSkipped` */
  predicate IsPartSkipped(p: Part, v: Values) {
    match p
    case Color => false
    case Soul => |v.soul| > MAX_SOUL_CHARS
    case Memory => |v.memory| > MAX_MEMORY_CHARS
    case Config => v.model == ""
  }

  predicate HasPart(b: Body, p: Part) {
    match p
    case Color => b.color.Some?
    case Soul => b.systemPrompt.Some?
    case Memory => b.memory.Some?
    case Config => b.config.Some?
  }

  /** The backend stores the fields it is sent. */
  function ApplyBody(a: Agent, b: Body): Agent {
    a.(color := if b.color.Some? then b.color.value else a.color,
       systemPrompt := if b.systemPrompt.Some? then b.systemPrompt.value else a.systemPrompt,
       memory := if b.memory.Some? then b.memory.value else a.memory,
       model := if b.config.Some? then b.config.value.0 else a.model,
       provider := if b.config.Some? then b.config.value.1 else a.provider)
  }

  /** What becomes of a request: done, refused, or its answer lost with or without effect. */
  datatype Outcome = Done | Refused | Lost(applied: bool)

  // ---------------------------------------------------------------- pulling

  predicate IsHex(c: char) {
    '0' <= c <= '9' || 'a' <= c <= 'f' || 'A' <= c <= 'F'
  }

  /** The colours `setProfileColor` accepts. */
  predicate IsColor(s: string) {
    |s| == 7 && s[0] == '#' && forall i :: 1 <= i < 7 ==> IsHex(s[i])
  }

  /** Whether a pull of this part writes anything. */
  predicate Sticks(p: Part, remote: Values) {
    match p
    case Color => IsColor(remote.color)
    case Soul => true
    case Memory => true
    case Config => remote.model != ""
  }

  /** `applyPull` */
  function ApplyPull(v: Values, p: Part, remote: Values): Values {
    if !Sticks(p, remote) then v
    else
      match p
      case Color => v.(color := remote.color)
      case Soul => v.(soul := remote.soul)
      case Memory => v.(memory := remote.memory)
      case Config => v.(provider := OrAuto(remote.provider), model := remote.model)
  }

  function ApplyPulls(v: Values, parts: seq<Part>, remote: Values): Values
    decreases |parts|
  {
    if parts == [] then v else ApplyPulls(ApplyPull(v, parts[0], remote), parts[1..], remote)
  }

  // ---------------------------------------------------------------- one linked pair

  function BaseOf(base: map<Part, PartValue>, p: Part): Option<PartValue> {
    if p in base then Some(base[p]) else None
  }

  function ActionOf(p: Part, local: Values, remote: Values, base: map<Part, PartValue>, t: Times): Action {
    Decide(BaseOf(base, p), PartOf(local, p), PartOf(remote, p), MsOf(t, p), t.remote)
  }

  /** The parts of a list with a given action, in order. */
  function Choose(parts: seq<Part>, action: Action, local: Values, remote: Values, base: map<Part, PartValue>,
                  t: Times): (r: seq<Part>)
    ensures forall p :: p in r <==> p in parts && ActionOf(p, local, remote, base, t) == action
  {
    if parts == [] then []
    else
      (if ActionOf(parts[0], local, remote, base, t) == action then [parts[0]] else []) +
      Choose(parts[1..], action, local, remote, base, t)
  }

  /** The base of one part after a pass in which the request, if any, was answered. */
  function BasePart(p: Part, local: Values, remote: Values, base: map<Part, PartValue>, t: Times,
                    pushedOk: bool): Option<PartValue> {
    match ActionOf(p, local, remote, base, t)
    case Pull => Some(PartOf(remote, p))
    case Push => if pushedOk && !IsPartSkipped(p, local) then Some(PartOf(local, p)) else BaseOf(base, p)
    case Stay => Some(PartOf(local, p))
  }

  function NextBase(parts: seq<Part>, next: map<Part, PartValue>, local: Values, remote: Values,
                    base: map<Part, PartValue>, t: Times, pushedOk: bool): map<Part, PartValue>
    decreases |parts|
  {
    if parts == [] then next
    else
      var b := BasePart(parts[0], local, remote, base, t, pushedOk);
      NextBase(parts[1..], if b.Some? then next[parts[0] := b.value] else next, local, remote, base, t, pushedOk)
  }

  datatype Pair = Pair(local: Local, agent: Agent)

  /** One turn of the reconciliation loop of `runSyncPass`; a lost answer aborts the turn. */
  function Reconcile(pair: Pair, state: SyncState, userId: string, t: Times, outcome: Outcome): Pair {
    var local, remote := LocalParts(pair.local.values), RemoteParts(pair.agent);
    var toPush := Choose(PARTS, Push, local, remote, state.base, t);
    var toPull := Choose(PARTS, Pull, local, remote, state.base, t);
    var body := BuildBody(EMPTY_BODY, toPush, local);
    var sent := body != EMPTY_BODY;
    if sent && outcome.Lost? then pair.(agent := if outcome.applied then ApplyBody(pair.agent, body) else pair.agent)
    else
      var pushedOk := !sent || outcome.Done?;
      var values := ApplyPulls(pair.local.values, toPull, remote);
      var base := NextBase(PARTS, state.base, local, remote, state.base, t, pushedOk);
      Pair(pair.local.(values := values, state := Some(SyncState(pair.agent.id, Some(userId), pair.agent.name, base))),
           if sent && outcome.Done? then ApplyBody(pair.agent, body) else pair.agent)
  }
}
