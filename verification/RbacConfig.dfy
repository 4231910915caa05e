/** The `rbac` section of a configuration file: two parsers
    (`RBACPolicy.from_dict` and `_parse_rbac`) and one printer (`to_dict`). */
module RbacConfig {
  import opened Prelude
  import opened Strings
  import opened Values
  import opened Rbac

  type Section = map<string, Tree>

  function RoleName(role: Role): string {
    match role
    case Blocked => "BLOCKED"
    case Nobody => "NONE"
    case Peer => "PEER"
    case Monitor => "MONITOR"
    case Operator => "OPERATOR"
    case Admin => "ADMIN"
  }

  /** `Role[name]`. */
  function RoleOf(name: string): (r: Option<Role>)
    ensures forall role :: RoleName(role) == name <==> r == Some(role)
  {
    if name == "BLOCKED" then Some(Blocked)
    else if name == "NONE" then Some(Nobody)
    else if name == "PEER" then Some(Peer)
    else if name == "MONITOR" then Some(Monitor)
    else if name == "OPERATOR" then Some(Operator)
    else if name == "ADMIN" then Some(Admin)
    else None
  }

  // ------------------------------------------------------------------- parsing

  function GrantsOf(host: Host, xs: seq<Tree>): set<string> {
    set x | x in xs && Strip(Text(host, x)) in ALL_CAPS :: Strip(Text(host, x))
  }

  /** One roster item: skipped when it names no identity or an unknown role. */
  function ParseEntry(host: Host, t: Tree): Result<Option<RosterEntry>, Fault> {
    if !t.Dict? then Err(AttributeError)
    else
      var identity := Canon(Text(host, Get(t.m, "identity", Str(""))));
      var role := RoleOf(Upper(Text(host, Get(t.m, "role", Str("peer")))));
      if identity == "" || role.None? then Ok(None)
      else
        var labelText := Text(host, Get(t.m, "label", Str("")));
        match Elements(host, Get(t.m, "grants", List([])))
        case Err(f) => Err(f)
        case Ok(xs) => Ok(Some(RosterEntry(identity, role.value, labelText, GrantsOf(host, xs))))
  }

  /** The roster a list of items builds; a later item replaces an earlier one. */
  function RosterOf(host: Host, xs: seq<Tree>): Result<map<string, RosterEntry>, Fault> {
    if xs == [] then Ok(map[])
    else
      match RosterOf(host, xs[..|xs| - 1])
      case Err(f) => Err(f)
      case Ok(roster) =>
        match ParseEntry(host, xs[|xs| - 1])
        case Err(f) => Err(f)
        case Ok(None) => Ok(roster)
        case Ok(Some(e)) => Ok(roster[e.identityHash := e])
  }

  function BlockedOf(host: Host, xs: seq<Tree>): seq<string> {
    if xs == [] then []
    else (if Truthy(xs[0]) then [Canon(Text(host, xs[0]))] else []) + BlockedOf(host, xs[1..])
  }

  function DefaultRoleOf(host: Host, section: Section): Role {
    var role := RoleOf(Upper(Text(host, Get(section, "default_role", Str("peer")))));
    if role.Some? then role.value else Peer
  }

  /** What both parsers make of a mapping. */
  function ParseSection(host: Host, section: Section): Result<Rules, Fault> {
    match Elements(host, Get(section, "roster", List([])))
    case Err(f) => Err(f)
    case Ok(items) =>
      match RosterOf(host, items)
      case Err(f) => Err(f)
      case Ok(roster) =>
        match Elements(host, Get(section, "blocked", List([])))
        case Err(f) => Err(f)
        case Ok(prefixes) => Ok(Rules(DefaultRoleOf(host, section), roster, BlockedOf(host, prefixes)))
  }

  const DEFAULT_RULES := Rules(Peer, map[], [])

  function FromDictResult(host: Host, data: Tree): Result<Rules, Fault> {
    if !Truthy(data) then Ok(DEFAULT_RULES)
    else if !data.Dict? then Err(AttributeError)
    else ParseSection(host, data.m)
  }

  function ParseRbacResult(host: Host, config: Section): Result<Rules, Fault> {
    var data := Get(config, "rbac", Dict(map[]));
    if !data.Dict? then Err(AttributeError) else ParseSection(host, data.m)
  }

  lemma {:induction false} RosterFails(host: Host, xs: seq<Tree>, i: nat)
    requires i < |xs|
    ensures RosterOf(host, xs[..i]).Ok? && ParseEntry(host, xs[i]).Err? ==>
              RosterOf(host, xs) == Err(ParseEntry(host, xs[i]).error)
    decreases |xs|
  {
    if i < |xs| - 1 {
      assert xs[..|xs| - 1][..i] == xs[..i];
      RosterFails(host, xs[..|xs| - 1], i);
    }
  }

  lemma {:induction false} BlockedOfSnoc(host: Host, xs: seq<Tree>, x: Tree)
    ensures BlockedOf(host, xs + [x])
            == BlockedOf(host, xs) + if Truthy(x) then [Canon(Text(host, x))] else []
  {
    hide Text, Canon, Truthy;
    if xs == [] {
      assert BlockedOf(host, []) == [] && [x][1..] == [];
    } else {
      assert (xs + [x])[1..] == xs[1..] + [x];
      BlockedOfSnoc(host, xs[1..], x);
    }
  }

  method ParseBlocked(host: Host, xs: seq<Tree>) returns (blocked: seq<string>)
    ensures blocked == BlockedOf(host, xs)
  {
    blocked := [];
    var i := 0;
    while i < |xs|
      invariant 0 <= i <= |xs|
      invariant blocked == BlockedOf(host, xs[..i])
    {
      BlockedOfSnoc(host, xs[..i], xs[i]);
      assert xs[..i + 1] == xs[..i] + [xs[i]];
      if Truthy(xs[i]) {
        blocked := blocked + [Canon(Text(host, xs[i]))];
      }
      i := i + 1;
    }
    assert xs[..i] == xs;
  }

  /** `_parse_rbac`: grants are collected one by one. */
  method ParseRbac(host: Host, config: Section) returns (r: Result<Rules, Fault>)
    ensures r == ParseRbacResult(host, config)
  {
    hide Canon, Strip, Text, Upper, RoleOf, ALL_CAPS, Elements, BlockedOf, DefaultRoleOf, GrantsOf;
    var data := Get(config, "rbac", Dict(map[]));
    if !data.Dict? {
      return Err(AttributeError);
    }
    var items := Elements(host, Get(data.m, "roster", List([])));
    if items.Err? {
      return Err(items.error);
    }
    var roster: map<string, RosterEntry> := map[];
    var i := 0;
    while i < |items.value|
      invariant 0 <= i <= |items.value|
      invariant RosterOf(host, items.value[..i]) == Ok(roster)
    {
      var item := items.value[i];
      assert items.value[..i + 1][..i] == items.value[..i];
      i := i + 1;
      if !item.Dict? {
        RosterFails(host, items.value, i - 1);
        return Err(AttributeError);
      }
      var identity := Canon(Text(host, Get(item.m, "identity", Str(""))));
      if identity == "" {
        continue;
      }
      var role := RoleOf(Upper(Text(host, Get(item.m, "role", Str("peer")))));
      if role.None? {
        continue;
      }
      var raw := Elements(host, Get(item.m, "grants", List([])));
      if raw.Err? {
        RosterFails(host, items.value, i - 1);
        return Err(raw.error);
      }
      var grants := CollectGrants(host, raw.value);
      var labelText := Text(host, Get(item.m, "label", Str("")));
      roster := roster[identity := RosterEntry(identity, role.value, labelText, grants)];
    }
    assert items.value[..i] == items.value;
    var prefixes := Elements(host, Get(data.m, "blocked", List([])));
    if prefixes.Err? {
      return Err(prefixes.error);
    }
    var blocked := ParseBlocked(host, prefixes.value);
    return Ok(Rules(DefaultRoleOf(host, data.m), roster, blocked));
  }

  lemma GrantsOfSnoc(host: Host, xs: seq<Tree>, x: Tree)
    ensures GrantsOf(host, xs + [x])
            == GrantsOf(host, xs) + if Strip(Text(host, x)) in ALL_CAPS then {Strip(Text(host, x))} else {}
  {
    hide Strip, Text, ALL_CAPS;
    var all := xs + [x];
    forall y | y in xs ensures y in all {
    }
    assert all[|xs|] == x;
  }

  method CollectGrants(host: Host, raw: seq<Tree>) returns (grants: set<string>)
    ensures grants == GrantsOf(host, raw)
  {
    hide Strip, Text, ALL_CAPS, GrantsOf;
    grants := {};
    var j := 0;
    NoGrants(host);
    assert raw[..0] == [];
    while j < |raw|
      invariant 0 <= j <= |raw|
      invariant grants == GrantsOf(host, raw[..j])
    {
      var g := Strip(Text(host, raw[j]));
      GrantsOfSnoc(host, raw[..j], raw[j]);
      assert raw[..j + 1] == raw[..j] + [raw[j]];
      if g in ALL_CAPS {
        grants := grants + {g};
      }
      j := j + 1;
    }
    assert raw[..j] == raw;
  }

  /** `RBACPolicy.from_dict`. */
  method FromDict(host: Host, data: Tree) returns (r: Result<Rules, Fault>)
    ensures r == FromDictResult(host, data)
  {
    hide Canon, Strip, Text, Upper, RoleOf, ALL_CAPS, Elements, BlockedOf, DefaultRoleOf;
    if !Truthy(data) {
      return Ok(DEFAULT_RULES);
    }
    if !data.Dict? {
      return Err(AttributeError);
    }
    var items := Elements(host, Get(data.m, "roster", List([])));
    if items.Err? {
      return Err(items.error);
    }
    var roster: map<string, RosterEntry> := map[];
    var i := 0;
    while i < |items.value|
      invariant 0 <= i <= |items.value|
      invariant RosterOf(host, items.value[..i]) == Ok(roster)
    {
      var item := items.value[i];
      assert items.value[..i + 1][..i] == items.value[..i];
      i := i + 1;
      if !item.Dict? {
        RosterFails(host, items.value, i - 1);
        return Err(AttributeError);
      }
      var identity := Canon(Text(host, Get(item.m, "identity", Str(""))));
      if identity == "" {
        continue;
      }
      var role := RoleOf(Upper(Text(host, Get(item.m, "role", Str("peer")))));
      if role.None? {
        continue;
      }
      var raw := Elements(host, Get(item.m, "grants", List([])));
      if raw.Err? {
        RosterFails(host, items.value, i - 1);
        return Err(raw.error);
      }
      var grants := set g | g in raw.value && Strip(Text(host, g)) in ALL_CAPS :: Strip(Text(host, g));
      var labelText := Text(host, Get(item.m, "label", Str("")));
      roster := roster[identity := RosterEntry(identity, role.value, labelText, grants)];
    }
    assert items.value[..i] == items.value;
    var prefixes := Elements(host, Get(data.m, "blocked", List([])));
    if prefixes.Err? {
      return Err(prefixes.error);
    }
    var blocked := ParseBlocked(host, prefixes.value);
    return Ok(Rules(DefaultRoleOf(host, data.m), roster, blocked));
  }

  /** The two parsers agree on every configuration but those whose `rbac` key
      holds an empty value that is not a mapping (`rbac: null`, `rbac: []`):
      `from_dict` then gives the default policy, `_parse_rbac` raises. */
  lemma ParsersAgreeIff(host: Host, config: Section)
    ensures var data := Get(config, "rbac", Dict(map[]));
            && (FromDictResult(host, data) == ParseRbacResult(host, config) <==> Truthy(data) || data.Dict?)
            && (!Truthy(data) && !data.Dict? ==>
                  && FromDictResult(host, data) == Ok(DEFAULT_RULES)
                  && ParseRbacResult(host, config) == Err(AttributeError))
  {
    hide ParseSection;
    EmptySectionIsDefault(host);
  }

  lemma EmptySectionIsDefault(host: Host)
    ensures ParseSection(host, map[]) == Ok(DEFAULT_RULES)
  {
    hide Upper, RoleOf;
    PeerByDefault();
    assert RosterOf(host, []) == Ok(map[]);
    assert BlockedOf(host, []) == [];
  }

  lemma PeerByDefault()
    ensures RoleOf(Upper("peer")) == Some(Peer)
  {
    assert Upper("peer") == "PEER";
    assert RoleName(Peer) == "PEER";
  }

  // ------------------------------------------------------------------ printing

  function SaveEntry(e: RosterEntry): Section {
    map["identity" := Str(e.identityHash), "role" := Str(Lower(RoleName(e.role)))]
    + (if e.labelText != "" then map["label" := Str(e.labelText)] else map[])
    + (if e.grants != {} then map["grants" := List(Strs(Sorted(e.grants)))] else map[])
  }

  function SaveRoster(roster: map<string, RosterEntry>, keys: seq<string>): (xs: seq<Tree>)
    requires forall k :: k in keys ==> k in roster
    ensures |xs| == |keys| && forall i :: 0 <= i < |keys| ==> xs[i] == Dict(SaveEntry(roster[keys[i]]))
  {
    seq(|keys|, i requires 0 <= i < |keys| => Dict(SaveEntry(roster[keys[i]])))
  }

  /** Entries are filed under their own hash, as every mutator and parser does. */
  predicate WellKeyed(p: Rules) {
    forall k :: k in p.roster ==> p.roster[k].identityHash == k
  }

  /** The `rbac` part of `to_dict`, roster in ascending order of hash. */
  function Save(p: Rules): Section {
    map["default_role" := Str(Lower(RoleName(p.defaultRole))),
        "roster" := List(SaveRoster(p.roster, Sorted(p.roster.Keys))),
        "blocked" := List(Strs(p.blocked))]
  }

  method RosterToList(roster: map<string, RosterEntry>) returns (out: seq<Tree>)
    ensures out == SaveRoster(roster, Sorted(roster.Keys))
  {
    hide SaveEntry;
    var keys := Sorted(roster.Keys);
    out := [];
    var i := 0;
    while i < |keys|
      invariant 0 <= i <= |keys|
      invariant |out| == i && forall j :: 0 <= j < i ==> out[j] == Dict(SaveEntry(roster[keys[j]]))
    {
      var d := EntryToDict(roster[keys[i]]);
      out := out + [Dict(d)];
      i := i + 1;
    }
  }

  method EntryToDict(e: RosterEntry) returns (d: Section)
    ensures d == SaveEntry(e)
  {
    hide Lower, RoleName, Sorted, Strs;
    d := map["identity" := Str(e.identityHash), "role" := Str(Lower(RoleName(e.role)))];
    if e.labelText != "" {
      d := d["label" := Str(e.labelText)];
    }
    if e.grants != {} {
      d := d["grants" := List(Strs(Sorted(e.grants)))];
    }
  }

  // ---------------------------------------------------------------- round trip

  function NormalGrants(grants: set<string>): set<string> {
    set g | g in grants && Strip(g) in ALL_CAPS :: Strip(g)
  }

  function NormalEntry(e: RosterEntry): RosterEntry {
    RosterEntry(Canon(e.identityHash), e.role, e.labelText, NormalGrants(e.grants))
  }

  /** Entries re-filed under the canonical form of their hash, in file order. */
  function NormalRoster(roster: map<string, RosterEntry>, keys: seq<string>): map<string, RosterEntry>
    requires forall k :: k in keys ==> k in roster
    decreases |keys|
  {
    if keys == [] then map[]
    else
      var init := NormalRoster(roster, keys[..|keys| - 1]);
      var e := NormalEntry(roster[keys[|keys| - 1]]);
      if e.identityHash == "" then init else init[e.identityHash := e]
  }

  function NormalBlocked(blocked: seq<string>): seq<string> {
    if blocked == [] then []
    else (if blocked[0] != "" then [Canon(blocked[0])] else []) + NormalBlocked(blocked[1..])
  }

  /** What is left of a policy after it was saved and loaded. */
  function Normalise(p: Rules): Rules {
    Rules(p.defaultRole, NormalRoster(p.roster, Sorted(p.roster.Keys)), NormalBlocked(p.blocked))
  }

  lemma UpperOfLower(s: string)
    requires forall i :: 0 <= i < |s| ==> 'A' <= s[i] <= 'Z'
    ensures Upper(Lower(s)) == s
  {
  }

  lemma RoleSurvives(role: Role)
    ensures RoleOf(Upper(Lower(RoleName(role)))) == Some(role)
  {
    UpperOfLower(RoleName(role));
  }

  lemma GrantsSurvive(host: Host, grants: set<string>)
    ensures GrantsOf(host, Strs(Sorted(grants))) == NormalGrants(grants)
  {
    hide Strip, Sorted;
    var xs := Strs(Sorted(grants));
    forall x | x in xs ensures x.Str? && x.s in grants {
      var i :| 0 <= i < |xs| && xs[i] == x;
      assert Sorted(grants)[i] in Sorted(grants);
    }
    forall g | g in grants ensures Str(g) in xs {
      var i :| 0 <= i < |Sorted(grants)| && Sorted(grants)[i] == g;
      assert xs[i] == Str(g);
    }
    forall g | g in GrantsOf(host, xs) ensures g in NormalGrants(grants) {
      var x :| x in xs && Strip(Text(host, x)) == g && g in ALL_CAPS;
      assert Text(host, x) == x.s;
    }
    forall g | g in NormalGrants(grants) ensures g in GrantsOf(host, xs) {
      var y :| y in grants && Strip(y) == g && g in ALL_CAPS;
      assert Text(host, Str(y)) == y;
    }
  }

  lemma EntrySurvives(host: Host, e: RosterEntry)
    ensures ParseEntry(host, Dict(SaveEntry(e)))
            == Ok(if Canon(e.identityHash) == "" then None else Some(NormalEntry(e)))
  {
    hide Sorted, Canon, Upper, Lower, RoleOf, GrantsOf, NormalGrants, Strip;
    RoleSurvives(e.role);
    GrantsSurvive(host, e.grants);
    if e.grants == {} {
      NoGrants(host);
    }
  }

  lemma NoGrants(host: Host)
    ensures GrantsOf(host, []) == {} == NormalGrants({})
  {
  }

  lemma {:induction false} RosterSurvives(host: Host, roster: map<string, RosterEntry>, keys: seq<string>)
    requires forall k :: k in keys ==> k in roster
    ensures RosterOf(host, SaveRoster(roster, keys)) == Ok(NormalRoster(roster, keys))
    decreases |keys|
  {
    hide ParseEntry, SaveEntry, NormalEntry, Canon;
    if keys == [] {
      assert SaveRoster(roster, keys) == [];
    } else {
      var init, last := keys[..|keys| - 1], keys[|keys| - 1];
      var xs := SaveRoster(roster, keys);
      RosterSurvives(host, roster, init);
      EntrySurvives(host, roster[last]);
      assert xs[..|xs| - 1] == SaveRoster(roster, init);
      assert xs[|xs| - 1] == Dict(SaveEntry(roster[last]));
      EntryHash(roster[last]);
    }
  }

  lemma EntryHash(e: RosterEntry)
    ensures NormalEntry(e).identityHash == Canon(e.identityHash)
  {
  }

  lemma {:induction false} BlockedSurvives(host: Host, blocked: seq<string>)
    ensures BlockedOf(host, Strs(blocked)) == NormalBlocked(blocked)
  {
    if blocked != [] {
      assert Strs(blocked)[1..] == Strs(blocked[1..]);
      BlockedSurvives(host, blocked[1..]);
    }
  }

  /** Saving and loading a policy always succeeds and gives its normal form. */
  lemma LoadOfSaved(host: Host, p: Rules)
    ensures ParseSection(host, Save(p)) == Ok(Normalise(p))
    ensures FromDictResult(host, Dict(Save(p))) == Ok(Normalise(p))
    ensures ParseRbacResult(host, map["rbac" := Dict(Save(p))]) == Ok(Normalise(p))
  {
    hide RosterOf, BlockedOf, Sorted, SaveRoster, NormalRoster, NormalBlocked, RoleOf;
    RosterSurvives(host, p.roster, Sorted(p.roster.Keys));
    BlockedSurvives(host, p.blocked);
    RoleSurvives(p.defaultRole);
  }

  predicate NormalForm(p: Rules) {
    && (forall k :: k in p.roster ==> Canonical(k) && k != "" && p.roster[k].grants <= ALL_CAPS)
    && (forall b :: b in p.blocked ==> Canonical(b) && b != "")
  }

  lemma PeerCapIsTrimmed(g: string)
    requires g in PEER_CAPS
    ensures Trimmed(g)
  {
  }

  lemma OtherCapIsTrimmed(g: string)
    requires g in MONITOR_CAPS + OPERATOR_CAPS + ADMIN_CAPS + ORTHOGONAL_CAPS
    ensures Trimmed(g)
  {
  }

  lemma CapabilitiesAreTrimmed()
    ensures forall g :: g in ALL_CAPS ==> Trimmed(g)
  {
    forall g | g in ALL_CAPS ensures Trimmed(g) {
      hide Trimmed;
      if g in PEER_CAPS {
        PeerCapIsTrimmed(g);
      } else {
        OtherCapIsTrimmed(g);
      }
    }
  }

  lemma GrantsFixpoint(grants: set<string>)
    ensures NormalGrants(grants) <= ALL_CAPS
    ensures NormalGrants(grants) == grants <==> grants <= ALL_CAPS
  {
    CapabilitiesAreTrimmed();
    if grants <= ALL_CAPS {
      forall g | g in grants ensures Strip(g) == g && g in NormalGrants(grants) {
        StripFixpoint(g);
      }
      assert NormalGrants(grants) <= grants;
    }
  }

  predicate NormalTable(roster: map<string, RosterEntry>) {
    forall k :: k in roster ==> Canonical(k) && k != "" && roster[k].identityHash == k && roster[k].grants <= ALL_CAPS
  }

  lemma {:induction false} NormalRosterIsNormal(roster: map<string, RosterEntry>, keys: seq<string>)
    requires forall k :: k in keys ==> k in roster
    ensures NormalTable(NormalRoster(roster, keys))
    decreases |keys|
  {
    hide Strip, ALL_CAPS, Canonical, Canon, NormalGrants;
    if keys != [] {
      NormalRosterIsNormal(roster, keys[..|keys| - 1]);
      var e := roster[keys[|keys| - 1]];
      CanonFixpoint(e.identityHash);
      GrantsFixpoint(e.grants);
    }
  }

  lemma {:induction false} NormalRosterKept(roster: map<string, RosterEntry>, keys: seq<string>)
    requires NormalTable(roster) && forall k :: k in keys ==> k in roster
    ensures var r := NormalRoster(roster, keys);
            forall k :: (k in r <==> k in keys) && (k in r ==> r[k] == roster[k])
    decreases |keys|
  {
    hide Canon, Canonical, NormalGrants, ALL_CAPS;
    if keys != [] {
      var init, last := keys[..|keys| - 1], keys[|keys| - 1];
      assert keys == init + [last];
      NormalRosterKept(roster, init);
      CanonFixpoint(last);
      GrantsFixpoint(roster[last].grants);
      assert NormalEntry(roster[last]) == roster[last];
    }
  }

  lemma {:induction false} BlockedFixpoint(blocked: seq<string>)
    ensures |NormalBlocked(blocked)| <= |blocked|
    ensures NormalBlocked(blocked) == blocked <==> forall b :: b in blocked ==> Canonical(b) && b != ""
  {
    if blocked != [] {
      hide Canon, Canonical;
      var head, rest := blocked[0], blocked[1..];
      assert blocked == [head] + rest;
      BlockedFixpoint(rest);
      CanonFixpoint(head);
      if head != "" {
        assert NormalBlocked(blocked) == [Canon(head)] + NormalBlocked(rest);
        assert NormalBlocked(blocked)[1..] == NormalBlocked(rest);
      }
    }
  }

  /** Saving and loading gives the same policy back exactly when its hashes
      and prefixes are non-empty, lower-case and stripped, its grants are
      known capabilities and its entries are filed under their own hashes. */
  lemma RoundTripIffNormal(host: Host, p: Rules)
    ensures ParseSection(host, Save(p)) == Ok(p) <==> NormalForm(p) && WellKeyed(p)
  {
    hide Canon, Canonical, NormalRoster, NormalBlocked, ParseSection, Save, ALL_CAPS, Sorted;
    LoadOfSaved(host, p);
    var keys := Sorted(p.roster.Keys);
    NormalRosterIsNormal(p.roster, keys);
    BlockedFixpoint(p.blocked);
    if NormalForm(p) && WellKeyed(p) {
      NormalRosterKept(p.roster, keys);
      assert NormalRoster(p.roster, keys) == p.roster;
    }
  }

  predicate OnlySpace(s: string) {
    forall i :: 0 <= i < |s| ==> IsSpace(s[i])
  }

  lemma BlankCanon(s: string)
    ensures Canon(s) == "" <==> OnlySpace(s)
  {
    CanonEmpty(s);
  }

  lemma {:induction false} BlockedEmpty(blocked: seq<string>)
    ensures forall b :: b in NormalBlocked(blocked) ==> Canonical(b)
    ensures "" in NormalBlocked(blocked) <==> exists b :: b in blocked && b != "" && OnlySpace(b)
  {
    hide Canon, Canonical, OnlySpace;
    if blocked != [] {
      var head, rest := blocked[0], blocked[1..];
      assert blocked == [head] + rest;
      BlockedEmpty(rest);
      CanonFixpoint(head);
      BlankCanon(head);
      var tail := NormalBlocked(rest);
      assert NormalBlocked(blocked) == if head != "" then [Canon(head)] + tail else tail;
    }
  }

  /** A second save and load changes nothing exactly when no prefix was made
      of whitespace only: such a prefix is first loaded as the empty prefix,
      which blocks everyone, and then dropped. */
  lemma SecondPassIff(p: Rules)
    ensures WellKeyed(Normalise(p))
    ensures Normalise(Normalise(p)) == Normalise(p) <==> forall b :: b in p.blocked && b != "" ==> !OnlySpace(b)
  {
    hide Canon, Canonical, NormalRoster, NormalBlocked, ALL_CAPS, Sorted, OnlySpace;
    var n := Normalise(p);
    NormalRosterIsNormal(p.roster, Sorted(p.roster.Keys));
    NormalRosterKept(n.roster, Sorted(n.roster.Keys));
    assert NormalRoster(n.roster, Sorted(n.roster.Keys)) == n.roster;
    BlockedFixpoint(n.blocked);
    BlockedEmpty(p.blocked);
  }

  /** The whitespace prefix: blocks nobody in particular as written, everybody
      after one save and load, nobody after two. */
  lemma WhitespacePrefixFlips(identity: string)
    ensures var p := Rules(Peer, map[], [" "]);
            && Normalise(p) == Rules(Peer, map[], [""])
            && ResolveRole(Normalise(p), identity) == Blocked
            && Normalise(Normalise(p)) == DEFAULT_RULES
            && ResolveRole(Normalise(Normalise(p)), identity) == Peer
  {
    hide Canon, Sorted, NormalRoster, ALL_CAPS;
    CanonEmpty(" ");
    assert [" "][1..] == [] && [""][1..] == [] && NormalBlocked([]) == [];
    assert NormalBlocked([" "]) == [Canon(" ")] == [""];
    assert NormalBlocked([""]) == [];
    EmptyRoster();
    EmptyPrefixBlocks(identity);
  }

  lemma EmptyRoster()
    ensures var none: map<string, RosterEntry> := map[]; NormalRoster(none, Sorted(none.Keys)) == none
  {
    var none: map<string, RosterEntry> := map[];
    assert none.Keys == {};
  }

  /** The empty prefix matches everybody. */
  lemma EmptyPrefixBlocks(identity: string)
    ensures PrefixBlocked([""], identity)
  {
    assert Matches(identity, [""][0]);
  }
}
