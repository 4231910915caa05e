/** The authorization policy of src/styrened/models/rbac.py: a roster of
    identities, a list of blocked prefixes and a cache of allow lists. */
module Rbac {
  import opened Hex
  import opened Prelude

  datatype Role = Blocked | Nobody | Peer | Monitor | Operator | Admin

  const PEER_CAPS := {"chat.send", "chat.receive", "page.browse", "rpc.ping", "rpc.status", "datalink.ping",
                      "datalink.meta", "datalink.info", "datalink.status", "relay.request", "relay.list",
                      "relay.teardown", "relay.accept"}
  const MONITOR_CAPS := {"rpc.inbox_read", "web.read", "datalink.establish", "datalink.speedtest"}
  const OPERATOR_CAPS := {"rpc.config_update", "terminal.restricted", "web.write", "relay.request_permanent",
                          "relay.accept_permanent", "relay.prioritize", "relay.bridge"}
  const ADMIN_CAPS := {"rpc.exec", "rpc.reboot", "rpc.self_update", "terminal.full", "adapter.provision",
                       "relay.admin"}
  /** Grants that no role carries. */
  const ORTHOGONAL_CAPS := {"relay.reject", "vpn.handshake"}

  /** `Capability.ALL`. */
  const ALL_CAPS := PEER_CAPS + MONITOR_CAPS + OPERATOR_CAPS + ADMIN_CAPS + ORTHOGONAL_CAPS

  function RoleCaps(role: Role): set<string> {
    match role
    case Blocked | Nobody => {}
    case Peer => PEER_CAPS
    case Monitor => PEER_CAPS + MONITOR_CAPS
    case Operator => PEER_CAPS + MONITOR_CAPS + OPERATOR_CAPS
    case Admin => PEER_CAPS + MONITOR_CAPS + OPERATOR_CAPS + ADMIN_CAPS
  }

  datatype RosterEntry = RosterEntry(identityHash: string, role: Role, labelText: string, grants: set<string>) {
    function EffectiveCapabilities(): set<string> {
      RoleCaps(role) + grants
    }
  }

  // ----------------------------------------------------------------- decisions

  /** What a policy decides by; two policies with the same rules are equal. */
  datatype Rules = Rules(defaultRole: Role, roster: map<string, RosterEntry>, blocked: seq<string>)

  predicate Matches(identity: string, prefix: string) {
    prefix <= identity || identity <= prefix
  }

  predicate PrefixBlocked(blocked: seq<string>, identity: string) {
    exists i :: 0 <= i < |blocked| && Matches(identity, blocked[i])
  }

  function ResolveRole(p: Rules, identity: string): Role {
    if PrefixBlocked(p.blocked, identity) then Blocked
    else if identity in p.roster then p.roster[identity].role
    else p.defaultRole
  }

  predicate HasCapability(p: Rules, identity: string, cap: string) {
    var role := ResolveRole(p, identity);
    role != Blocked && (cap in RoleCaps(role) || (identity in p.roster && cap in p.roster[identity].grants))
  }

  // ----------------------------------------------------------------- hierarchy

  /** The level of a role in the hierarchy. */
  function Level(role: Role): nat {
    match role
    case Blocked => 0
    case Nobody => 1
    case Peer => 10
    case Monitor => 20
    case Operator => 30
    case Admin => 40
  }

  /** The least level that has a capability; those that have to be granted, and
      texts that name no capability, have none. */
  function LevelNeeded(cap: string): (r: Option<nat>)
    ensures r.Some? ==> r.value <= Level(Admin)
  {
    if cap in ["chat.send", "chat.receive", "page.browse", "rpc.ping", "rpc.status", "datalink.ping", "datalink.meta",
               "datalink.info", "datalink.status", "relay.request", "relay.list", "relay.teardown", "relay.accept"]
    then Some(10)
    else if cap in ["rpc.inbox_read", "web.read", "datalink.establish", "datalink.speedtest"] then Some(20)
    else if cap in ["rpc.config_update", "terminal.restricted", "web.write", "relay.request_permanent",
                    "relay.accept_permanent", "relay.prioritize", "relay.bridge"] then Some(30)
    else if cap in ["rpc.exec", "rpc.reboot", "rpc.self_update", "terminal.full", "relay.admin", "adapter.provision"]
    then Some(40)
    else None
  }

  predicate Reaches(role: Role, cap: string) {
    LevelNeeded(cap).Some? && LevelNeeded(cap).value <= Level(role)
  }

  /** Roles are cumulative: one has the capabilities its level reaches. */
  lemma RolesAreLevels(role: Role, cap: string)
    ensures cap in RoleCaps(role) <==> Reaches(role, cap)
  {
  }

  /** The capabilities there are: those some level reaches, and two that always
      have to be granted. */
  lemma CapabilitiesAre(cap: string)
    ensures cap in ALL_CAPS <==> LevelNeeded(cap).Some? || cap in ["relay.reject", "vpn.handshake"]
  {
    assert ALL_CAPS == RoleCaps(Admin) + ORTHOGONAL_CAPS;
    RolesAreLevels(Admin, cap);
    hide LevelNeeded, PEER_CAPS, MONITOR_CAPS, OPERATOR_CAPS, ADMIN_CAPS, RoleCaps, ALL_CAPS;
  }

  /** Who is listed: the decision without prefixes, by the entry alone. */
  lemma ListedIff(e: RosterEntry, cap: string)
    ensures Listed(e, cap) <==> e.role != Blocked && (Reaches(e.role, cap) || cap in e.grants)
  {
    RolesAreLevels(e.role, cap);
    hide RoleCaps, Reaches;
  }

  /** The whole decision: no blocked prefix may extend the identity or be
      extended by it, the role must not be Blocked, and its level must reach
      the capability unless the identity's entry grants it. */
  lemma DecisionIff(p: Rules, identity: string, cap: string)
    ensures var role := if identity in p.roster then p.roster[identity].role else p.defaultRole;
            HasCapability(p, identity, cap) <==>
              && (forall prefix :: prefix in p.blocked ==> !(prefix <= identity) && !(identity <= prefix))
              && role != Blocked
              && (Reaches(role, cap) || (identity in p.roster && cap in p.roster[identity].grants))
  {
    hide RoleCaps, Reaches, LevelNeeded;
    RolesAreLevels(if identity in p.roster then p.roster[identity].role else p.defaultRole, cap);
    if PrefixBlocked(p.blocked, identity) {
      var i :| 0 <= i < |p.blocked| && Matches(identity, p.blocked[i]);
      assert p.blocked[i] in p.blocked;
    }
  }

  /** Running commands takes an administrator or a grant, and joining the VPN a
      grant whatever the role. */
  lemma ExecAndVpn(p: Rules, identity: string)
    requires identity !in p.roster || p.roster[identity].grants == {}
    ensures HasCapability(p, identity, "rpc.exec") ==>
              (if identity in p.roster then p.roster[identity].role else p.defaultRole) == Admin
    ensures !HasCapability(p, identity, "vpn.handshake")
  {
    DecisionIff(p, identity, "rpc.exec");
    DecisionIff(p, identity, "vpn.handshake");
    hide HasCapability;
    assert LevelNeeded("rpc.exec") == Some(40) && LevelNeeded("vpn.handshake") == None;
  }

  // --------------------------------------------------------------- allow lists

  predicate Listed(e: RosterEntry, cap: string) {
    e.role != Blocked && cap in e.EffectiveCapabilities()
  }

  /** The list `get_allow_list` computes from a roster in insertion order;
      none when some listed hash is not hexadecimal. */
  function AllowList(roster: seq<RosterEntry>, cap: string): Option<seq<Bytes>> {
    if roster == [] then Some([])
    else
      var last := roster[|roster| - 1];
      match AllowList(roster[..|roster| - 1], cap)
      case None => None
      case Some(init) =>
        if !Listed(last, cap) then Some(init)
        else match FromHex(last.identityHash)
             case None => None
             case Some(h) => Some(init + [h])
  }

  // ------------------------------------------------------------- policy object

  predicate Distinct(roster: seq<RosterEntry>) {
    forall i, j :: 0 <= i < j < |roster| ==> roster[i].identityHash != roster[j].identityHash
  }

  predicate Holds(roster: seq<RosterEntry>, identity: string) {
    exists i :: 0 <= i < |roster| && roster[i].identityHash == identity
  }

  /** The roster as a lookup table. */
  function Table(roster: seq<RosterEntry>): (t: map<string, RosterEntry>)
    ensures forall k :: k in t <==> Holds(roster, k)
    ensures forall k :: k in t ==> t[k] in roster && t[k].identityHash == k
  {
    if roster == [] then map[]
    else
      var last := roster[|roster| - 1];
      var t := Table(roster[..|roster| - 1]);
      var r := t[last.identityHash := last];
      assert forall k :: k in r <==> Holds(roster, k) by {
        forall k ensures k in r <==> Holds(roster, k) {
          if Holds(roster[..|roster| - 1], k) {
            var i :| 0 <= i < |roster| - 1 && roster[..|roster| - 1][i].identityHash == k;
            assert roster[i].identityHash == k;
          }
          if k == last.identityHash {
            assert roster[|roster| - 1].identityHash == k;
          }
          if Holds(roster, k) && k != last.identityHash {
            var i :| 0 <= i < |roster| && roster[i].identityHash == k;
            assert roster[..|roster| - 1][i].identityHash == k;
          }
        }
      }
      r
  }

  /** Assigning a dict key: in place when present, at the end when new. */
  function Put(roster: seq<RosterEntry>, e: RosterEntry): (r: seq<RosterEntry>) {
    if roster == [] then [e]
    else if roster[0].identityHash == e.identityHash then [e] + roster[1..]
    else [roster[0]] + Put(roster[1..], e)
  }

  function Drop(roster: seq<RosterEntry>, identity: string): seq<RosterEntry> {
    if roster == [] then []
    else if roster[0].identityHash == identity then roster[1..]
    else [roster[0]] + Drop(roster[1..], identity)
  }

  /** `list.remove`: the first occurrence goes. */
  function RemoveFirst(xs: seq<string>, x: string): seq<string> {
    if xs == [] then [] else if xs[0] == x then xs[1..] else [xs[0]] + RemoveFirst(xs[1..], x)
  }

  lemma {:induction false} PutHolds(roster: seq<RosterEntry>, e: RosterEntry, k: string)
    ensures Holds(Put(roster, e), k) <==> k == e.identityHash || Holds(roster, k)
  {
    if roster == [] {
      assert Put(roster, e)[0] == e;
    } else {
      var r := Put(roster, e);
      HoldsHead(roster, k);
      HoldsHead(r, k);
      if roster[0].identityHash != e.identityHash {
        PutHolds(roster[1..], e, k);
      }
    }
  }

  lemma HoldsHead(roster: seq<RosterEntry>, k: string)
    requires roster != []
    ensures Holds(roster, k) <==> roster[0].identityHash == k || Holds(roster[1..], k)
  {
    if Holds(roster, k) && roster[0].identityHash != k {
      var i :| 0 <= i < |roster| && roster[i].identityHash == k;
      assert roster[1..][i - 1].identityHash == k;
    }
    if Holds(roster[1..], k) {
      var i :| 0 <= i < |roster[1..]| && roster[1..][i].identityHash == k;
      assert roster[i + 1].identityHash == k;
    }
  }

  lemma DistinctHead(roster: seq<RosterEntry>)
    requires roster != []
    ensures Distinct(roster) <==> Distinct(roster[1..]) && !Holds(roster[1..], roster[0].identityHash)
  {
    var rest := roster[1..];
    if Distinct(roster) {
      forall i, j | 0 <= i < j < |rest| ensures rest[i].identityHash != rest[j].identityHash {
        assert roster[i + 1].identityHash != roster[j + 1].identityHash;
      }
      forall i | 0 <= i < |rest| ensures rest[i].identityHash != roster[0].identityHash {
        assert roster[0].identityHash != roster[i + 1].identityHash;
      }
    } else {
      var i, j :| 0 <= i < j < |roster| && roster[i].identityHash == roster[j].identityHash;
      assert roster[j] == rest[j - 1];
      if i > 0 {
        assert rest[i - 1].identityHash == rest[j - 1].identityHash;
      }
    }
  }

  lemma {:induction false} PutDistinct(roster: seq<RosterEntry>, e: RosterEntry)
    requires Distinct(roster)
    ensures Distinct(Put(roster, e))
  {
    if roster != [] {
      DistinctHead(roster);
      DistinctHead(Put(roster, e));
      if roster[0].identityHash != e.identityHash {
        PutDistinct(roster[1..], e);
        PutHolds(roster[1..], e, roster[0].identityHash);
      }
    }
  }

  lemma {:induction false} DropHolds(roster: seq<RosterEntry>, identity: string, k: string)
    requires Distinct(roster)
    ensures Holds(Drop(roster, identity), k) <==> k != identity && Holds(roster, k)
    ensures Distinct(Drop(roster, identity))
  {
    if roster != [] {
      var r := Drop(roster, identity);
      DistinctHead(roster);
      HoldsHead(roster, k);
      DropHolds(roster[1..], identity, k);
      DropHolds(roster[1..], identity, roster[0].identityHash);
      if roster[0].identityHash != identity {
        HoldsHead(r, k);
        DistinctHead(r);
      }
    }
  }

  /** In a roster without repeats the table gives each entry back. */
  lemma TableEntry(roster: seq<RosterEntry>, e: RosterEntry)
    requires Distinct(roster) && e in roster
    ensures e.identityHash in Table(roster) && Table(roster)[e.identityHash] == e
  {
    var i :| 0 <= i < |roster| && roster[i] == e;
    assert Holds(roster, e.identityHash);
    var found := Table(roster)[e.identityHash];
    var j :| 0 <= j < |roster| && roster[j] == found;
    assert roster[i].identityHash == roster[j].identityHash;
  }

  lemma {:induction false} PutMembers(roster: seq<RosterEntry>, e: RosterEntry, x: RosterEntry)
    ensures e in Put(roster, e)
    ensures x.identityHash != e.identityHash ==> (x in roster <==> x in Put(roster, e))
  {
    if roster != [] {
      assert roster == [roster[0]] + roster[1..];
      PutMembers(roster[1..], e, x);
    }
  }

  lemma {:induction false} DropMembers(roster: seq<RosterEntry>, identity: string, x: RosterEntry)
    requires x.identityHash != identity
    ensures x in roster <==> x in Drop(roster, identity)
  {
    if roster != [] {
      assert roster == [roster[0]] + roster[1..];
      DropMembers(roster[1..], identity, x);
    }
  }

  /** Adding an entry changes the table at its own hash only. */
  lemma TableOfPut(roster: seq<RosterEntry>, e: RosterEntry)
    requires Distinct(roster)
    ensures Distinct(Put(roster, e))
    ensures Table(Put(roster, e)) == Table(roster)[e.identityHash := e]
  {
    hide *;
    var r := Put(roster, e);
    var t, u := Table(roster), Table(r);
    PutDistinct(roster, e);
    forall k ensures k in u <==> k == e.identityHash || k in t {
      PutHolds(roster, e, k);
    }
    PutMembers(roster, e, e);
    TableEntry(r, e);
    forall k | k in t && k != e.identityHash ensures u[k] == t[k] {
      PutMembers(roster, e, t[k]);
      TableEntry(r, t[k]);
    }
  }

  lemma TableOfDrop(roster: seq<RosterEntry>, identity: string)
    requires Distinct(roster)
    ensures Distinct(Drop(roster, identity))
    ensures Table(Drop(roster, identity)) == Table(roster) - {identity}
  {
    hide *;
    var r := Drop(roster, identity);
    var t, u := Table(roster), Table(r);
    DropHolds(roster, identity, identity);
    forall k ensures k in u <==> k in t - {identity} {
      DropHolds(roster, identity, k);
    }
    forall k | k in u ensures u[k] == t[k] {
      DropMembers(roster, identity, t[k]);
      TableEntry(r, t[k]);
    }
  }
}
