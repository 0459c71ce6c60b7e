/** The rules of a sync pass, told part by part: what is sent, what a conflict does, whose links are whose. */
module SyncRules {
  import opened Text
  import opened Sync
  import opened SyncParts
  import opened SyncPass
  import opened SyncLinks

  // ---------------------------------------------------------------- what is sent and what is written

  /** A push leaves out a prompt or a memory that is too long, and a configuration without a model. */
  lemma WhatIsSent(v: Values, p: Part)
    ensures HasPart(BuildBody(EMPTY_BODY, PARTS, v), p) <==>
            match p
            case Color => true
            case Soul => |v.soul| <= 20000
            case Memory => |v.memory| <= 40000
            case Config => v.model != ""
  {
    hide BuildBody, HasPart;
    EveryPart(p);
    AbsentIffSkipped(PARTS, v, p);
  }

  /** A colour is a hash sign and six hexadecimal digits. */
  predicate IsHexColor(s: string) {
    |s| == 7 && s[0] == '#' && forall i :: 1 <= i < 7 ==> s[i] in "0123456789abcdefABCDEF"
  }

  lemma HexIff(c: char)
    ensures IsHex(c) <==> c in "0123456789abcdefABCDEF"
  {
    var digits := "0123456789abcdefABCDEF";
    if '0' <= c <= '9' {
      assert digits[(c - '0') as int] == c;
    } else if 'a' <= c <= 'f' {
      assert digits[10 + (c - 'a') as int] == c;
    } else if 'A' <= c <= 'F' {
      assert digits[16 + (c - 'A') as int] == c;
    }
  }

  /** What a pull leaves on the device: the cloud's value, unless it is a colour or a model that is none. */
  lemma WhatIsWritten(v: Values, p: Part, remote: Values)
    requires remote.provider != ""
    ensures PartOf(LocalParts(ApplyPull(v, p, remote)), p) ==
            if (p.Color? && !IsHexColor(remote.color)) || (p.Config? && remote.model == "") then
              PartOf(LocalParts(v), p)
            else PartOf(remote, p)
    ensures forall q :: q != p ==> PartOf(ApplyPull(v, p, remote), q) == PartOf(v, q)
  {
    forall i | 0 <= i < |remote.color| ensures IsHex(remote.color[i]) <==> remote.color[i] in "0123456789abcdefABCDEF" {
      HexIff(remote.color[i]);
    }
    assert IsColor(remote.color) <==> IsHexColor(remote.color);
  }

  /** No provider is the provider `auto`, on the device and in the cloud. */
  lemma NoProviderIsAuto(v: Values, a: Agent)
    ensures PartOf(LocalParts(v.(provider := "")), Config) == PartOf(LocalParts(v.(provider := "auto")), Config)
    ensures PartOf(RemoteParts(a.(provider := "")), Config) == PartOf(RemoteParts(a.(provider := "auto")), Config)
    ensures v.provider !in {"", "auto"} ==> PartOf(LocalParts(v), Config) == PConfig(v.model, v.provider)
  {
  }

  // ---------------------------------------------------------------- conflicts

  /**
   * A part that moved on both sides goes to the side that moved later, and to the cloud when neither did; a part
   * without a time on the device counts as never moved there. One that moved on one side follows that side.
   */
  lemma ConflictGoesToLater(p: Part, local: Values, remote: Values, base: map<Part, PartValue>, t: Times)
    ensures var l, r, action := PartOf(local, p), PartOf(remote, p), ActionOf(p, local, remote, base, t);
            if l == r then action == Stay
            else if p in base && base[p] == l then action == Pull
            else if p in base && base[p] == r then action == Push
            else if p in t.local then action == (if t.local[p] > t.remote then Push else Pull)
            else action == (if 0 > t.remote then Push else Pull)
  {
  }

  // ---------------------------------------------------------------- accounts

  /** A profile linked under another account comes out of a pass as it went in. */
  lemma OtherAccountsStay(device: Device, cloud: Cloud, profiles: seq<string>, listing: seq<Agent>, env: Env,
                          profile: string)
    requires Sound(device, cloud, profiles, listing, env) && NoSharing(device, env.userId)
    requires profile in device && device[profile].state.Some? && device[profile].state.value.accountId.Some?
    requires device[profile].state.value.accountId.value !in {"", env.userId}
    ensures var r := RunPass(device, cloud, profiles, listing, env);
            profile in r.device && r.device[profile] == device[profile]
  {
    hide RunPass, Sound, NoSharing;
    EveryPassKeepsLinksApart(device, cloud, profiles, listing, env);
  }

  predicate IsLinkedTo(links: seq<Link>, profile: string, agent: string) {
    exists i :: 0 <= i < |links| && links[i].profile == profile && links[i].agent == agent
  }

  lemma LinkStays(a: seq<Link>, b: seq<Link>, profile: string, agent: string)
    requires IsLinkedTo(a, profile, agent) && a <= b
    ensures IsLinkedTo(b, profile, agent)
  {
    var i :| 0 <= i < |a| && a[i].profile == profile && a[i].agent == agent;
    assert b[i] == a[i];
  }

  lemma {:induction false} ClassifyTakes(g: Progress, profiles: seq<string>, userId: string, profile: string)
    requires profile in g.device && g.device[profile].state.Some?
    requires var s := g.device[profile].state.value;
             s.agentId in g.cloud && (s.accountId.None? || s.accountId.value in {"", userId})
    ensures var s, r := g.device[profile].state.value, ClassifyAll(g, profiles, userId);
            g.linked <= r.linked && (profile in profiles ==> IsLinkedTo(r.linked, profile, s.agentId))
    decreases |profiles|
  {
    hide IsLinkedTo;
    if profiles != [] {
      var s, h := g.device[profile].state.value, Classify(g, profiles[0], userId);
      assert profile in h.device && h.device[profile] == g.device[profile] && h.cloud == g.cloud &&
             g.linked <= h.linked;
      ClassifyTakes(h, profiles[1..], userId, profile);
      var r := ClassifyAll(g, profiles, userId);
      assert profile in profiles ==> profile == profiles[0] || profile in profiles[1..];
      if profile == profiles[0] {
        LinkIsNew(g.linked, Link(profile, s.agentId, s));
        assert h.linked == g.linked + [Link(profile, s.agentId, s)];
        LinkStays(h.linked, r.linked, profile, s.agentId);
      }
    }
  }

  lemma LinkIsNew(links: seq<Link>, link: Link)
    ensures IsLinkedTo(links + [link], link.profile, link.agent)
  {
    assert (links + [link])[|links|] == link;
  }

  lemma {:induction false} NamingKeepsLinks(g: Progress, profiles: seq<string>, listing: seq<Agent>, userId: string)
    ensures g.linked <= LinkAllByName(g, profiles, listing, userId).linked
    decreases |profiles|
  {
    hide MatchName;
    if profiles != [] { NamingKeepsLinks(LinkByName(g, profiles[0], listing, userId), profiles[1..], listing, userId); }
  }

  /** A link to a living agent is taken up if it is the account's own, or was stored without an account. */
  lemma OwnAndUnownedLinksAreTaken(device: Device, cloud: Cloud, profiles: seq<string>, listing: seq<Agent>,
                                   userId: string, profile: string)
    requires profile in profiles && profile in device && device[profile].state.Some?
    requires var s := device[profile].state.value;
             s.agentId in cloud && (s.accountId.None? || s.accountId.value in {"", userId})
    ensures IsLinkedTo(Linked(device, cloud, profiles, listing, userId).linked, profile,
              device[profile].state.value.agentId)
  {
    hide IsLinkedTo;
    var start := Progress(device, cloud, {}, [], []);
    var g := ClassifyAll(start, profiles, userId);
    ClassifyTakes(start, profiles, userId, profile);
    NamingKeepsLinks(g.(unlinked := []), g.unlinked, listing, userId);
    LinkStays(g.linked, Linked(device, cloud, profiles, listing, userId).linked, profile,
      device[profile].state.value.agentId);
  }
}
