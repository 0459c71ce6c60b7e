/** What one reconciliation does to each part, and what follows for runs of passes and edits. */
module SyncParts {
  import opened Text
  import opened Sync

  // ---------------------------------------------------------------- bodies

  lemma {:induction false} BodyParts(b: Body, parts: seq<Part>, v: Values, p: Part)
    ensures HasPart(BuildBody(b, parts, v), p) <==> HasPart(b, p) || (p in parts && !IsPartSkipped(p, v))
    decreases |parts|
  {
    if parts != [] {
      BodyParts(AddPart(b, parts[0], v), parts[1..], v, p);
    }
  }

  /** A part of the push set is missing from the body exactly when it counts as skipped. */
  lemma AbsentIffSkipped(parts: seq<Part>, v: Values, p: Part)
    requires p in parts
    ensures !HasPart(BuildBody(EMPTY_BODY, parts, v), p) <==> IsPartSkipped(p, v)
  {
    BodyParts(EMPTY_BODY, parts, v, p);
  }

  /** The body carries the local value of each part it has. */
  predicate Carries(b: Body, v: Values) {
    (b.color.Some? ==> b.color.value == v.color) &&
    (b.systemPrompt.Some? ==> b.systemPrompt.value == OrNull(v.soul)) &&
    (b.memory.Some? ==> b.memory.value == OrNull(v.memory)) &&
    (b.config.Some? ==> b.config.value == (v.model, OrAuto(v.provider)))
  }

  lemma {:induction false} BodyCarries(b: Body, parts: seq<Part>, v: Values)
    requires Carries(b, v)
    ensures Carries(BuildBody(b, parts, v), v)
    decreases |parts|
  {
    if parts != [] { BodyCarries(AddPart(b, parts[0], v), parts[1..], v); }
  }

  /**
   * Reading an agent back after a push gives the local value of every part that was pushed and not
   * skipped, and its own old value of every other part.
   */
  lemma ReadUndoesPush(a: Agent, parts: seq<Part>, v: Values, p: Part)
    requires v.provider != ""
    ensures PartOf(RemoteParts(ApplyBody(a, BuildBody(EMPTY_BODY, parts, v))), p) ==
            if p in parts && !IsPartSkipped(p, v) then PartOf(v, p) else PartOf(RemoteParts(a), p)
  {
    hide BuildBody;
    BodyParts(EMPTY_BODY, parts, v, p);
    BodyCarries(EMPTY_BODY, parts, v);
  }

  lemma {:induction false} PullParts(v: Values, parts: seq<Part>, remote: Values, p: Part)
    requires remote.provider != ""
    ensures PartOf(LocalParts(ApplyPulls(v, parts, remote)), p) ==
            if p in parts && Sticks(p, remote) then PartOf(remote, p) else PartOf(LocalParts(v), p)
    decreases |parts|
  {
    hide IsColor;
    if parts != [] {
      PullParts(ApplyPull(v, parts[0], remote), parts[1..], remote, p);
    }
  }

  lemma {:induction false} BaseParts(parts: seq<Part>, next: map<Part, PartValue>, local: Values, remote: Values,
                                     base: map<Part, PartValue>, t: Times, pushedOk: bool, p: Part)
    ensures BaseOf(NextBase(parts, next, local, remote, base, t, pushedOk), p) ==
            var b := BasePart(p, local, remote, base, t, pushedOk);
            if p in parts && b.Some? then b else BaseOf(next, p)
    decreases |parts|
  {
    hide BasePart;
    if parts != [] {
      var b := BasePart(parts[0], local, remote, base, t, pushedOk);
      BaseParts(parts[1..], if b.Some? then next[parts[0] := b.value] else next, local, remote, base, t, pushedOk, p);
    }
  }

  // ---------------------------------------------------------------- one part of one pass

  /** The three values a pass compares for one part. */
  datatype Triple = Triple(local: PartValue, remote: PartValue, base: Option<PartValue>)

  function View(pair: Pair, base: map<Part, PartValue>, p: Part): Triple {
    Triple(PartOf(LocalParts(pair.local.values), p), PartOf(RemoteParts(pair.agent), p), BaseOf(base, p))
  }

  /** The three-way rule for one part, given what became of the pair's request. */
  function Moved(x: Triple, action: Action, skipped: bool, sticks: bool, sent: bool, outcome: Outcome): Triple {
    if sent && outcome.Lost? then (if outcome.applied && action == Push && !skipped then x.(remote := x.local) else x)
    else
      match action
      case Stay => x.(base := Some(x.local))
      case Push => if skipped || outcome != Done then x else x.(remote := x.local, base := Some(x.local))
      case Pull => Triple(if sticks then x.remote else x.local, x.remote, Some(x.remote))
  }

  /** Whether the pass sends a request for this pair at all. */
  predicate Sends(pair: Pair, state: SyncState, t: Times) {
    BuildBody(EMPTY_BODY, Choose(PARTS, Push, LocalParts(pair.local.values), RemoteParts(pair.agent), state.base, t),
              LocalParts(pair.local.values)) != EMPTY_BODY
  }

  function BaseAfter(pair: Pair, state: SyncState): map<Part, PartValue> {
    if pair.local.state.Some? then pair.local.state.value.base else state.base
  }

  lemma EveryPart(p: Part)
    ensures p in PARTS
  {
    assert PARTS[0] == Color && PARTS[1] == Soul && PARTS[2] == Memory && PARTS[3] == Config;
  }

  lemma EmptyBodyHasNothing(b: Body)
    ensures b == EMPTY_BODY <==> forall p :: !HasPart(b, p)
  {
    if b != EMPTY_BODY {
      assert HasPart(b, Color) || HasPart(b, Soul) || HasPart(b, Memory) || HasPart(b, Config);
    }
  }

  /**
   * The reconciliation of a pair moves every part by the three-way rule, on its own values: the
   * parts share nothing but the fate of the one request.
   */
  lemma ReconcileMovesEachPart(pair: Pair, state: SyncState, userId: string, t: Times, outcome: Outcome, p: Part)
    requires pair.local.state.Some? ==> pair.local.state.value.base == state.base
    ensures var local, remote := LocalParts(pair.local.values), RemoteParts(pair.agent);
            var after := Reconcile(pair, state, userId, t, outcome);
            View(after, BaseAfter(after, state), p) ==
            Moved(View(pair, state.base, p), ActionOf(p, local, remote, state.base, t),
                  IsPartSkipped(p, local), Sticks(p, remote), Sends(pair, state, t), outcome)
  {
    hide BuildBody, Choose, NextBase, ApplyPulls, ApplyBody, Decide, IsColor, PartOf, Sticks, IsPartSkipped;
    var local, remote := LocalParts(pair.local.values), RemoteParts(pair.agent);
    var toPush := Choose(PARTS, Push, local, remote, state.base, t);
    var toPull := Choose(PARTS, Pull, local, remote, state.base, t);
    var body := BuildBody(EMPTY_BODY, toPush, local);
    EveryPart(p);
    ReadUndoesPush(pair.agent, toPush, local, p);
    PullParts(pair.local.values, toPull, remote, p);
    BaseParts(PARTS, state.base, local, remote, state.base, t, body == EMPTY_BODY || outcome.Done?, p);
    if body == EMPTY_BODY && p in toPush {
      AbsentIffSkipped(toPush, local, p);
      assert !HasPart(body, p);
    }
  }
}
