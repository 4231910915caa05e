/** What the values of a configuration file come to: for every file that loads,
    which switches are on and which numbers are set. The words and numbers are
    written out here, apart from the functions that read them. */
module ConfigMeaning {
  import opened Prelude
  import opened Sections
  import opened Strings
  import opened Values
  import opened CoreConfig
  import opened ConfigLoad
  import Rbac
  import RbacConfig
  import Svc = ServiceConfig

  // --------------------------------------------------------------------- values

  /** The values that count as false. */
  const FALSE_VALUES: seq<Tree> := [Null, Bool(false), Int(0), Real(0.0), Str(""), List([]), Dict(map[])]

  lemma TruthyIff(t: Tree)
    ensures Truthy(t) <==> t !in FALSE_VALUES
  {
  }

  /** What a switch set to a value is: text turns it on when it is one of four
      words in any case, anything else when it counts as true. */
  predicate SwitchIs(t: Tree, on: bool) {
    if t.Str? then on <==> Lower(t.s) == "true" || Lower(t.s) == "yes" || Lower(t.s) == "1" || Lower(t.s) == "on"
    else on <==> t !in FALSE_VALUES
  }

  /** What a number set to a value is, where it is one: a fraction is cut. */
  predicate NumberIs(host: Host, t: Tree, n: int) {
    match t
    case Int(i) => n == i
    case Bool(b) => n == if b then 1 else 0
    case Real(r) => if r >= 0.0 then n as real <= r < n as real + 1.0 else n as real - 1.0 < r <= n as real
    case Str(s) => host.intOf(s) == Some(n)
    case _ => false
  }

  /** What `float()` makes of a value. */
  predicate RealIs(host: Host, t: Tree, x: real) {
    match t
    case Int(i) => x == i as real
    case Bool(b) => x == if b then 1.0 else 0.0
    case Real(r) => x == r
    case Str(s) => host.realOf(s) == Some(x)
    case _ => false
  }

  lemma SwitchReads(t: Tree)
    ensures SwitchIs(t, ParseBool(t))
  {
    TruthyIff(t);
  }

  /** A value is read as the number it is; text that is none is a ValueError,
      a value without a number a TypeError. */
  lemma NumberReads(host: Host, t: Tree)
    ensures var r := ParseInt(host, t);
            && (r.Ok? ==> NumberIs(host, t, r.value))
            && (r.Err? <==> (t.Str? && host.intOf(t.s).None?) || t.Null? || t.List? || t.Dict?)
            && (r.Err? ==> r.error == if t.Str? then ValueError else TypeError)
    ensures var r := ParseReal(host, t);
            && (r.Ok? ==> RealIs(host, t, r.value))
            && (r.Err? <==> (t.Str? && host.realOf(t.s).None?) || t.Null? || t.List? || t.Dict?)
            && (r.Err? ==> r.error == if t.Str? then ValueError else TypeError)
  {
  }

  /** What `str()` and iteration make of the values that have a text or items of
      their own. Other values cannot be iterated. */
  lemma TextAndItems(host: Host, t: Tree, i: nat)
    ensures t.Str? ==> Text(host, t) == t.s
    ensures Text(host, Null) == "None" && Text(host, Bool(true)) == "True" && Text(host, Bool(false)) == "False"
    ensures t.Int? || t.Real? || t.List? || t.Dict? ==> Text(host, t) == host.repr(t)
    ensures t.List? ==> Elements(host, t) == Ok(t.xs)
    ensures t.Str? ==> Elements(host, t).Ok? && |Elements(host, t).value| == |t.s|
                       && (i < |t.s| ==> Elements(host, t).value[i] == Str([t.s[i]]))
    ensures t.Dict? ==> Elements(host, t).Ok? && |Elements(host, t).value| == |host.keyOrder(t.m)|
                        && (i < |host.keyOrder(t.m)| ==> Elements(host, t).value[i] == Str(host.keyOrder(t.m)[i]))
    ensures t.Null? || t.Bool? || t.Int? || t.Real? ==> Elements(host, t) == Err(TypeError)
  {
  }

  /** Paths: a leading `~` is the home directory, `~user` that user's, and an
      unknown user is an error. */
  lemma HomeIsExpanded(host: Host, user: string, rest: string)
    requires '/' !in user && (rest == "" || rest[0] == '/')
    ensures ExpandUser(host, "~" + user + rest)
            == if user == "" then Ok(host.home + rest)
               else if host.userHome(user).None? then Err(RuntimeError)
               else Ok(host.userHome(user).value + rest)
    ensures user != "" && user[0] != '~' ==> ExpandUser(host, user + rest) == Ok(user + rest)
  {
    var s := "~" + user + rest;
    SlashAfter("~" + user, rest);
    assert s[..|user| + 1] == "~" + user && s[1..|user| + 1] == user && s[|user| + 1..] == rest;
  }

  lemma {:induction false} SlashAfter(head: string, rest: string)
    requires '/' !in head && (rest == "" || rest[0] == '/')
    ensures FirstSlash(head + rest) == |head|
  {
    if head == "" {
      assert head + rest == rest;
    } else {
      assert (head + rest)[1..] == head[1..] + rest;
      SlashAfter(head[1..], rest);
    }
  }

  // --------------------------------------------------------------- enumerations

  /** A value names a member exactly when it is what printing the member gives.
      Other values name none, or the member that is the fallback. */
  lemma NamesArePrinted(t: Tree, s: string)
    ensures forall p :: ProfileOf(t) == Some(p) <==> t == Str(ProfileValue(p))
    ensures forall m :: ModeOf(t) == Some(m) <==> t == Str(ModeValue(m))
    ensures forall a :: AccessOf(s) == Some(a) <==> s == AccessValue(a)
    ensures forall m :: Svc.ReplyOf(t) == Some(m) <==> t == Str(Svc.ReplyValue(m))
    ensures forall m :: m != Svc.Disabled ==> (Svc.DaemonOf(t) == m <==> t == Str(Svc.DaemonValue(m)))
    ensures forall f :: f != Svc.Balanced ==> (Svc.TierOf(s) == f <==> s == Svc.TierValue(f))
  {
  }

  // ------------------------------------------------------------------- the policy

  /** The text under a key, or the text the code assumes where there is none. */
  predicate Says(host: Host, m: Section, key: string, default: string, text: string) {
    text == if key in m then Text(host, m[key]) else default
  }

  /** A default role is the one named, in any case, and any other text, or no
      text, leaves peers. */
  lemma DefaultRoleIs(host: Host, m: Section, text: string, role: Rbac.Role)
    requires Says(host, m, "default_role", "peer", text)
    ensures RbacConfig.DefaultRoleOf(host, m) == role <==>
              || Upper(text) == RbacConfig.RoleName(role)
              || (role == Rbac.Peer && forall other :: Upper(text) != RbacConfig.RoleName(other))
  {
    hide Upper;
    PeerIsAssumed();
  }

  lemma PeerIsAssumed()
    ensures Upper("peer") == "PEER" == RbacConfig.RoleName(Rbac.Peer)
  {
    assert Upper("peer") == "PEER";
  }

  /** A roster item gives an entry exactly when it names an identity and one of
      the roles, a peer if it names none. Its grants are those of the listed
      texts that, stripped, are capabilities. */
  lemma ItemIs(host: Host, m: Section, identity: string, role: string, labelText: string, xs: seq<Tree>,
               e: Rbac.RosterEntry)
    requires Says(host, m, "identity", "", identity) && Says(host, m, "role", "peer", role)
    requires Says(host, m, "label", "", labelText)
    requires if "grants" in m then Elements(host, m["grants"]) == Ok(xs) else xs == []
    ensures RbacConfig.ParseEntry(host, Dict(m)) == Ok(Some(e)) <==>
              && e.identityHash == Strip(Lower(identity)) != ""
              && Upper(role) == RbacConfig.RoleName(e.role)
              && e.labelText == labelText
              && (forall g :: g in e.grants <==> g in Rbac.ALL_CAPS && exists x :: x in xs && Strip(Text(host, x)) == g)
    ensures RbacConfig.ParseEntry(host, Dict(m)).Ok?
    ensures RbacConfig.ParseEntry(host, Dict(m)) == Ok(None) <==>
              Strip(Lower(identity)) == "" || forall other :: Upper(role) != RbacConfig.RoleName(other)
  {
    hide Upper, Lower, Strip, Rbac.ALL_CAPS;
    var none: seq<Tree> := [];
    assert Elements(host, List([])) == Ok(none);
    var grants := RbacConfig.GrantsOf(host, xs);
    if forall g :: g in e.grants <==> g in Rbac.ALL_CAPS && exists x :: x in xs && Strip(Text(host, x)) == g {
      assert e.grants == grants;
    }
  }

  /** An item that is no mapping has no `get`, and grants that cannot be iterated
      are a TypeError, unless the item is skipped before. */
  lemma ItemFails(host: Host, t: Tree)
    ensures !t.Dict? ==> RbacConfig.ParseEntry(host, t) == Err(AttributeError)
    ensures t.Dict? && RbacConfig.ParseEntry(host, t).Err? ==>
              && RbacConfig.ParseEntry(host, t).error == TypeError
              && "grants" in t.m && (t.m["grants"].Null? || t.m["grants"].Bool? || t.m["grants"].Int?
                                     || t.m["grants"].Real?)
  {
    hide Canon, Upper, RbacConfig.RoleOf, RbacConfig.GrantsOf, Text;
  }

  // ------------------------------------------------------------------- the file

  /** A key of a section: its value if it is there, otherwise the default. */
  predicate SwitchAt(m: Section, key: string, default: bool, on: bool) {
    if key in m then SwitchIs(m[key], on) else on == default
  }

  predicate NumberAt(host: Host, m: Section, key: string, default: int, n: int) {
    if key in m then NumberIs(host, m[key], n) else n == default
  }

  /** A key that counts only when its value is true. */
  predicate Given(m: Section, key: string) {
    key in m && m[key] !in FALSE_VALUES
  }

  predicate GivenText(host: Host, m: Section, key: string, default: string, text: string) {
    text == if Given(m, key) then Text(host, m[key]) else default
  }

  /** A path is expanded; without one there is none. */
  predicate GivenPath(host: Host, m: Section, key: string, path: Option<string>) {
    if Given(m, key) then path.Some? && ExpandUser(host, Text(host, m[key])) == Ok(path.value) else path == None
  }

  predicate Reads(m: Section, key: string, word: string) {
    key in m && m[key] == Str(word)
  }

  lemma GivenReads(host: Host, m: Section, key: string)
    ensures Given(m, key) <==> TextAt(host, m, key).Some?
    ensures Given(m, key) ==> TextAt(host, m, key).value == Text(host, m[key])
    ensures PathAt(host, m, key).Ok? ==> GivenPath(host, m, key, PathAt(host, m, key).value)
  {
    hide ExpandUser, Text;
    if key in m {
      TruthyIff(m[key]);
    }
  }

  lemma SwitchKey(m: Section, key: string, default: bool)
    ensures SwitchAt(m, key, default, BoolAt(m, key, default))
    ensures SwitchAt(m, key, default, ParseBool(Get(m, key, Bool(default))))
  {
    if key in m {
      SwitchReads(m[key]);
    }
  }

  lemma NumberKey(host: Host, m: Section, key: string, default: int)
    ensures IntAt(host, m, key, default).Ok? ==> NumberAt(host, m, key, default, IntAt(host, m, key, default).value)
    ensures var r := ParseInt(host, Get(m, key, Int(default)));
            r.Ok? ==> NumberAt(host, m, key, default, r.value)
  {
    if key in m {
      NumberReads(host, m[key]);
    }
  }

  lemma AllSwitches(m: Section)
    ensures forall key, d {:trigger BoolAt(m, key, d)} :: SwitchAt(m, key, d, BoolAt(m, key, d))
    ensures forall key, d {:trigger Get(m, key, Bool(d))} :: SwitchAt(m, key, d, ParseBool(Get(m, key, Bool(d))))
  {
    hide SwitchAt, BoolAt, ParseBool, Get;
    forall key, d
      ensures SwitchAt(m, key, d, BoolAt(m, key, d)) && SwitchAt(m, key, d, ParseBool(Get(m, key, Bool(d))))
    {
      SwitchKey(m, key, d);
    }
  }

  lemma AllNumbers(host: Host, m: Section)
    ensures forall key, d {:trigger IntAt(host, m, key, d)} :: IntAt(host, m, key, d).Ok? ==>
              NumberAt(host, m, key, d, IntAt(host, m, key, d).value)
    ensures forall key, d {:trigger Get(m, key, Int(d))} :: ParseInt(host, Get(m, key, Int(d))).Ok? ==>
              NumberAt(host, m, key, d, ParseInt(host, Get(m, key, Int(d))).value)
  {
    hide NumberAt, IntAt, ParseInt, Get;
    forall key, d
      ensures IntAt(host, m, key, d).Ok? ==> NumberAt(host, m, key, d, IntAt(host, m, key, d).value)
      ensures ParseInt(host, Get(m, key, Int(d))).Ok? ==>
                NumberAt(host, m, key, d, ParseInt(host, Get(m, key, Int(d))).value)
    {
      NumberKey(host, m, key, d);
    }
  }

  lemma AllTexts(host: Host, m: Section)
    ensures forall key, d {:trigger Get(m, key, Str(d))} :: Says(host, m, key, d, Text(host, Get(m, key, Str(d))))
  {
  }

  /** The part of the file that a section is read from. */
  function Part(data: Section, key: string): Section {
    if key in data && data[key].Dict? then data[key].m else map[]
  }

  // Section by section: the switches and numbers that reading it sets.

  predicate RpcMeans(m: Section, base: Rpc, r: Rpc) {
    && SwitchAt(m, "enabled", base.enabled, r.enabled)
    && SwitchAt(m, "relay_mode", base.relayMode, r.relayMode)
    && SwitchAt(m, "allow_command_execution", base.allowCommandExecution, r.allowCommandExecution)
  }

  predicate ReticulumMeans(host: Host, m: Section, base: Reticulum, r: Reticulum) {
    && SwitchAt(m, "auto_initialize", base.autoInitialize, r.autoInitialize)
    && SwitchAt(m, "hub_enabled", base.hubEnabled, r.hubEnabled)
    && NumberAt(host, m, "announce_interval", base.announceInterval, r.announceInterval)
    && NumberAt(host, m, "hub_announce_interval", base.hubAnnounceInterval, r.hubAnnounceInterval)
    && (if "enable_transport" !in m then r.enableTransport == base.enableTransport
        else r.enableTransport.Some? && SwitchIs(m["enable_transport"], r.enableTransport.value))
    && r.mode == (if Reads(m, "mode", "standalone") then Standalone
                  else if Reads(m, "mode", "hub") then HubMode
                  else if Reads(m, "mode", "peer") then PeerMode else base.mode)
    && r.hubAddress == (if Given(m, "hub_address") && |Text(host, m["hub_address"])| == 32
                        then Some(Text(host, m["hub_address"])) else base.hubAddress)
    && GivenPath(host, m, "operator_identity_path", r.operatorIdentityPath)
    && OverrideMeans(host, m, r.configPathOverride)
    && InterfacesMean(host, m, base.interfaces, r.interfaces)
  }

  /** Null, blank text, "null" in any case and values that are not text all mean
      no override. */
  predicate OverrideMeans(host: Host, m: Section, path: Option<string>) {
    if "config_path_override" in m && m["config_path_override"].Str?
       && Strip(m["config_path_override"].s) != "" && Lower(Strip(m["config_path_override"].s)) != "null"
    then path.Some? && ExpandUser(host, m["config_path_override"].s) == Ok(path.value)
    else path == None
  }

  predicate InterfacesMean(host: Host, m: Section, base: Interfaces, r: Interfaces) {
    var i := Part(m, "interfaces");
    && SwitchAt(i, "auto", base.auto, r.auto)
    && (if "server" in i && i["server"].Dict? then
          && SwitchAt(i["server"].m, "enabled", false, r.server.enabled)
          && NumberAt(host, i["server"].m, "port", 4242, r.server.port)
          && Says(host, i["server"].m, "listen_ip", "0.0.0.0", r.server.listenIp)
        else r.server == base.server)
  }

  ghost predicate DiscoveryMeans(host: Host, m: Section, base: Discovery, r: Discovery) {
    && SwitchAt(m, "enabled", base.enabled, r.enabled)
    && SwitchAt(m, "auto_announce", base.autoAnnounce, r.autoAnnounce)
    && SwitchAt(m, "info_respond", base.infoRespond, r.infoRespond)
    && r.accessMode == (if "access_mode" in m && Lower(Text(host, m["access_mode"])) == "open" then Open
                        else if "access_mode" in m && Lower(Text(host, m["access_mode"])) == "allowlist" then Allowlist
                        else base.accessMode)
    && (forall p :: p in r.allowedPeers <==>
          if "allowed_peers" in m && m["allowed_peers"].List?
          then exists x :: x in m["allowed_peers"].xs && x !in FALSE_VALUES && Lower(Text(host, x)) == p
          else p in base.allowedPeers)
    && r.operatorLabel == (if "operator_label" in m then Strip(Text(host, m["operator_label"]))
                           else base.operatorLabel)
  }

  /** Short names of the pattern are 3 to 20 lower-case letters, digits and inner
      hyphens; one newline may follow. */
  ghost predicate IsShortName(s: string) {
    exists name, tail :: s == name + tail && (tail == "" || tail == "\n") && 3 <= |name| <= 20
                         && (forall i :: 0 <= i < |name| ==> name[i] in NAME_CHARS)
                         && name[0] != '-' && name[|name| - 1] != '-'
  }

  ghost predicate IdentityMeans(host: Host, m: Section, base: Identity, r: Identity) {
    && GivenText(host, m, "display_name", base.displayName, r.displayName)
    && GivenText(host, m, "icon", base.icon, r.icon)
    && GivenText(host, m, "web_url", base.webUrl, r.webUrl)
    && r.shortName == (if Given(m, "short_name") && IsShortName(Text(host, m["short_name"]))
                       then Some(Text(host, m["short_name"])) else base.shortName)
    && r.provider == (if Given(m, "provider") && Lower(Text(host, m["provider"])) == "file" then "file"
                      else if Given(m, "provider") && Lower(Text(host, m["provider"])) == "yubikey" then "yubikey"
                      else base.provider)
    && (if "yubikey" in m && m["yubikey"].Dict? then YubiKeyMeans(host, m["yubikey"].m, r.yubikey)
        else r.yubikey == base.yubikey)
  }

  predicate YubiKeyMeans(host: Host, m: Section, y: YubiKey) {
    && Says(host, m, "credential_id", "", y.credentialId)
    && Says(host, m, "rp_id", "styrene.mesh", y.rpId)
    && SwitchAt(m, "require_touch", false, y.requireTouch)
  }

  /** Hours outside 0 to 23 count for nothing. */
  ghost predicate HourMeans(host: Host, m: Section, key: string, hour: Option<int>) {
    if key in m && m[key] != Null then
      if hour.Some? then NumberIs(host, m[key], hour.value) && 0 <= hour.value <= 23
      else forall n :: NumberIs(host, m[key], n) ==> !(0 <= n <= 23)
    else hour == None
  }

  ghost predicate NotificationsMean(host: Host, m: Section, r: Notifications) {
    && SwitchAt(m, "enabled", true, r.enabled)
    && HourMeans(host, m, "quiet_hours_start", r.quietStart)
    && HourMeans(host, m, "quiet_hours_end", r.quietEnd)
  }

  predicate LimitsMean(host: Host, m: Section, base: Limits, r: Limits) {
    && NumberAt(host, m, "propagation_limit", base.propagation, r.propagation)
    && NumberAt(host, m, "sync_limit", base.sync, r.sync)
    && NumberAt(host, m, "delivery_limit", base.delivery, r.delivery)
  }

  predicate CostsMean(host: Host, m: Section, base: Costs, r: Costs) {
    && NumberAt(host, m, "propagation_cost", base.propagation, r.propagation)
    && NumberAt(host, m, "propagation_cost_flexibility", base.flexibility, r.flexibility)
    && NumberAt(host, m, "peering_cost", base.peering, r.peering)
    && NumberAt(host, m, "max_peering_cost", base.maxPeering, r.maxPeering)
  }

  predicate LxmfMeans(host: Host, m: Section, base: Lxmf, r: Lxmf) {
    && SwitchAt(m, "autopeer", base.autopeer, r.autopeer)
    && SwitchAt(m, "from_static_only", base.fromStaticOnly, r.fromStaticOnly)
    && NumberAt(host, m, "autopeer_maxdepth", base.autopeerMaxdepth, r.autopeerMaxdepth)
    && NumberAt(host, m, "max_peers", base.maxPeers, r.maxPeers)
    && LimitsMean(host, m, base.limits, r.limits) && CostsMean(host, m, base.costs, r.costs)
    && (if "propagation_node" in m && m["propagation_node"].Dict? then
          && SwitchAt(m["propagation_node"].m, "enabled", false, r.nodeEnabled)
          && r.nodeName == Get(m["propagation_node"].m, "name", Null)
        else r.nodeEnabled == base.nodeEnabled && r.nodeName == base.nodeName)
    && r.destination == (if "propagation_destination" in m && m["propagation_destination"].Str?
                            && |m["propagation_destination"].s| == 32
                         then Some(m["propagation_destination"].s) else base.destination)
    && r.staticPeers == (if "static_peers" in m && m["static_peers"].List? then StaticPeersOf(m["static_peers"].xs)
                         else base.staticPeers)
  }

  predicate ChatbotMeans(host: Host, m: Section, base: Svc.Chatbot, r: Svc.Chatbot) {
    && Says(host, m, "endpoint", "http://localhost:11434/v1", r.endpoint)
    && Says(host, m, "model", "llama3", r.model)
    && Says(host, m, "api_key", "", r.apiKey)
    && Says(host, m, "system_prompt", base.systemPrompt, r.systemPrompt)
    && NumberAt(host, m, "max_tokens", 256, r.maxTokens)
    && NumberAt(host, m, "max_context_messages", 10, r.maxContextMessages)
    && (if "temperature" in m then RealIs(host, m["temperature"], r.temperature) else r.temperature == 0.7)
  }

  predicate ChatMeans(host: Host, m: Section, base: Svc.Chat, r: Svc.Chat) {
    && SwitchAt(m, "enabled", base.enabled, r.enabled)
    && SwitchAt(m, "persist_messages", base.persist, r.persist)
    && NumberAt(host, m, "auto_reply_cooldown", base.cooldown, r.cooldown)
    && r.mode == (if Reads(m, "auto_reply_mode", "disabled") then Svc.NoReply
                  else if Reads(m, "auto_reply_mode", "template") then Svc.Template
                  else if Reads(m, "auto_reply_mode", "chatbot") then Svc.WithChatbot else base.mode)
    && Says(host, m, "auto_reply_message", base.message, r.message)
    && (if "chatbot" in m && m["chatbot"].Dict? then ChatbotMeans(host, m["chatbot"].m, base.chatbot, r.chatbot)
        else r.chatbot == base.chatbot)
  }

  predicate ApiMeans(host: Host, m: Section, base: Svc.Api, r: Svc.Api) {
    && SwitchAt(m, "enabled", base.enabled, r.enabled)
    && SwitchAt(m, "public_mode", base.publicMode, r.publicMode)
    && SwitchAt(Part(m, "metrics"), "enabled", base.metrics, r.metrics)
    && NumberAt(host, m, "port", base.port, r.port)
    && Says(host, m, "host", base.host, r.host)
  }

  predicate AuthMeans(host: Host, m: Section, base: Svc.Auth, r: Svc.Auth) {
    && SwitchAt(m, "enabled", base.enabled, r.enabled)
    && SwitchAt(m, "exempt_localhost", base.exemptLocalhost, r.exemptLocalhost)
    && NumberAt(host, m, "session_ttl", base.sessionTtl, r.sessionTtl)
  }

  predicate IpcMeans(host: Host, m: Section, base: Svc.Ipc, r: Svc.Ipc) {
    && SwitchAt(m, "enabled", base.enabled, r.enabled)
    && NumberAt(host, m, "socket_mode", base.socketMode, r.socketMode)
    && (base.socketPath == None ==> GivenPath(host, m, "socket_path", r.socketPath))
  }

  ghost predicate TerminalMeans(host: Host, m: Section, base: Svc.Terminal, r: Svc.Terminal) {
    && SwitchAt(m, "enabled", base.enabled, r.enabled)
    && NumberAt(host, m, "session_idle_timeout", base.idleTimeout, r.idleTimeout)
    && NumberAt(host, m, "max_sessions_per_identity", base.maxPerIdentity, r.maxPerIdentity)
    && NumberAt(host, m, "max_total_sessions", base.maxTotal, r.maxTotal)
    && NumberAt(host, m, "rate_limit_requests", base.rateLimit, r.rateLimit)
    && r.defaultShell == (if Given(m, "default_shell") then Some(Text(host, m["default_shell"])) else base.defaultShell)
    && (forall p :: p in r.allowedShells <==>
          if "allowed_shells" in m && m["allowed_shells"].List? then Str(p) in m["allowed_shells"].xs && "/" <= p
          else p in base.allowedShells)
  }

  predicate PageServerMeans(host: Host, m: Section, base: Svc.PageServer, r: Svc.PageServer) {
    && SwitchAt(m, "enabled", base.enabled, r.enabled)
    && SwitchAt(m, "demo", base.demo, r.demo)
    && r.nodeName == (if Given(m, "node_name") then Some(Text(host, m["node_name"])) else base.nodeName)
    && (base.pagesDir == None ==> GivenPath(host, m, "pages_dir", r.pagesDir))
  }

  ghost predicate PqcMeans(host: Host, m: Section, base: Svc.Pqc, r: Svc.Pqc) {
    && SwitchAt(m, "enabled", base.enabled, r.enabled)
    && SwitchAt(m, "require_pqc_for_rpc", base.requireForRpc, r.requireForRpc)
    && SwitchAt(m, "auto_initiate", base.autoInitiate, r.autoInitiate)
    && (if "rekey_interval_hours" !in m then r.rekeyHours == base.rekeyHours
        else NumberIs(host, m["rekey_interval_hours"], r.rekeyHours)
             || (r.rekeyHours == 24 && forall n :: !NumberIs(host, m["rekey_interval_hours"], n)))
  }

  predicate MeshVpnMeans(host: Host, m: Section, base: Svc.MeshVpn, r: Svc.MeshVpn) {
    && SwitchAt(m, "enable", base.enable, r.enable)
    && SwitchAt(m, "gateway", base.gateway, r.gateway)
    && NumberAt(host, m, "listen_port", base.listenPort, r.listenPort)
    && Says(host, m, "subnet_prefix", base.subnetPrefix, r.subnetPrefix)
    && Says(host, m, "endpoint", base.endpoint, r.endpoint)
  }

  predicate RelayMeans(host: Host, m: Section, base: Svc.Relay, r: Svc.Relay) {
    && SwitchAt(m, "enabled", base.enabled, r.enabled)
    && SwitchAt(m, "allow_permanent", base.allowPermanent, r.allowPermanent)
    && NumberAt(host, m, "max_sessions", base.maxSessions, r.maxSessions)
    && NumberAt(host, m, "max_per_identity", base.maxPerIdentity, r.maxPerIdentity)
    && NumberAt(host, m, "max_bytes_per_session", base.maxBytes, r.maxBytes)
    && NumberAt(host, m, "idle_timeout", base.idleTimeout, r.idleTimeout)
  }

  predicate YggdrasilMeans(host: Host, m: Section, base: Svc.Yggdrasil, r: Svc.Yggdrasil) {
    && SwitchAt(m, "multicast", base.multicast, r.multicast)
    && SwitchAt(m, "bootstrap_from_rns", base.bootstrapFromRns, r.bootstrapFromRns)
    && NumberAt(host, m, "listen_port", base.listenPort, r.listenPort)
    && Says(host, m, "binary_path", base.binaryPath, r.binaryPath)
    && Says(host, m, "admin_socket", base.adminSocket, r.adminSocket)
    && r.mode == ModeMeant(m, base.mode) && r.peerDiscovery == base.peerDiscovery
    && (if "initial_peers" in m && m["initial_peers"].List?
        then |r.initialPeers| == |m["initial_peers"].xs|
             && forall i :: 0 <= i < |r.initialPeers| ==> r.initialPeers[i] == Text(host, m["initial_peers"].xs[i])
        else r.initialPeers == [])
  }

  /** The mode of a daemon: any other value disables it. */
  function ModeMeant(m: Section, base: Svc.DaemonMode): Svc.DaemonMode {
    if "mode" !in m then base
    else if Reads(m, "mode", "adopt") then Svc.Adopt
    else if Reads(m, "mode", "managed") then Svc.Managed
    else Svc.Disabled
  }

  predicate I2pMeans(host: Host, m: Section, base: Svc.I2p, r: Svc.I2p) {
    && r.mode == ModeMeant(m, base.mode)
    && Says(host, m, "http_proxy_host", base.proxyHost, r.proxyHost)
    && Says(host, m, "b32_address", base.b32Address, r.b32Address)
    && NumberAt(host, m, "http_proxy_port", base.proxyPort, r.proxyPort)
    && NumberAt(host, m, "managed_http_proxy_port", base.managedProxyPort, r.managedProxyPort)
    && NumberAt(host, m, "managed_i2pcontrol_port", base.managedControlPort, r.managedControlPort)
    && NumberAt(host, m, "cache_ttl", base.cacheTtl, r.cacheTtl)
    && (if "fetch_timeout" in m then RealIs(host, m["fetch_timeout"], r.fetchTimeout)
        else r.fetchTimeout == base.fetchTimeout)
  }

  predicate GroupThreadsMean(host: Host, m: Section, base: Svc.GroupThreads, r: Svc.GroupThreads) {
    && SwitchAt(m, "enabled", base.enabled, r.enabled)
    && SwitchAt(m, "bounded_retention", base.boundedRetention, r.boundedRetention)
    && SwitchAt(m, "auto_media_fetch", base.autoMediaFetch, r.autoMediaFetch)
    && SwitchAt(m, "metadata_first_sync", base.metadataFirstSync, r.metadataFirstSync)
    && SwitchAt(m, "background_catchup", base.backgroundCatchup, r.backgroundCatchup)
    && SwitchAt(m, "first_run_auto_tier", base.firstRunAutoTier, r.firstRunAutoTier)
    && r.tier == (if "feature_tier" !in m then base.tier
                  else if Lower(Text(host, m["feature_tier"])) == "minimal" then Svc.Minimal
                  else if Lower(Text(host, m["feature_tier"])) == "full" then Svc.Full
                  else Svc.Balanced)
  }

  lemma RpcReads(m: Section, base: Rpc)
    ensures RpcMeans(m, base, LoadRpc(m, base))
  {
    hide SwitchAt, BoolAt;
    AllSwitches(m);
  }

  lemma DiscoveryReads(host: Host, m: Section, base: Discovery)
    ensures DiscoveryMeans(host, m, base, LoadDiscovery(host, m, base))
  {
    hide SwitchAt, BoolAt, Lower, Text, Strip, Truthy;
    AllSwitches(m);
    forall t {
      TruthyIff(t);
    }
    hide FALSE_VALUES;
  }

  const NAME_CHARS := LOWER_LETTERS + DIGITS + "-"

  lemma NameChars(c: char)
    ensures c in NAME_CHARS <==> NameChar(c) || c == '-'
  {
    LowerLetters(c);
    Digits(c);
    hide LOWER_LETTERS, DIGITS;
  }

  lemma PlainNames(s: string)
    ensures PlainShortName(s) <==>
              3 <= |s| <= 20 && (forall i :: 0 <= i < |s| ==> s[i] in NAME_CHARS) && s[0] != '-' && s[|s| - 1] != '-'
  {
    hide NameChar, NAME_CHARS;
    forall i | 0 <= i < |s| ensures s[i] in NAME_CHARS <==> NameChar(s[i]) || s[i] == '-' {
      NameChars(s[i]);
    }
    DashIsNoNameChar();
  }

  lemma DashIsNoNameChar()
    ensures !NameChar('-')
  {
  }

  lemma ShortNames(s: string)
    ensures IsShortName(s) <==> ValidShortName(s)
  {
    hide PlainShortName, NAME_CHARS;
    PlainNames(s);
    if s != "" {
      PlainNames(s[..|s| - 1]);
    }
    if PlainShortName(s) {
      assert s == s + "";
    } else if ValidShortName(s) {
      assert s == s[..|s| - 1] + "\n";
    }
    if IsShortName(s) {
      var name, tail :| s == name + tail && (tail == "" || tail == "\n") && 3 <= |name| <= 20
                        && (forall i :: 0 <= i < |name| ==> name[i] in NAME_CHARS)
                        && name[0] != '-' && name[|name| - 1] != '-';
      PlainNames(name);
      assert tail == "" ==> s == name;
      assert tail == "\n" ==> s[..|s| - 1] == name;
    }
  }

  lemma IdentityReads(host: Host, m: Section, base: Identity)
    ensures IdentityMeans(host, m, base, LoadIdentity(host, m, base))
  {
    hide Lower, Text, FALSE_VALUES, TextAt, IsShortName, ValidShortName, LoadYubiKey, YubiKeyMeans;
    GivenReads(host, m, "display_name");
    GivenReads(host, m, "icon");
    GivenReads(host, m, "web_url");
    GivenReads(host, m, "short_name");
    GivenReads(host, m, "provider");
    if "short_name" in m {
      ShortNames(Text(host, m["short_name"]));
    }
    if "yubikey" in m && m["yubikey"].Dict? {
      YubiKeyReads(host, m["yubikey"].m);
    }
  }

  lemma YubiKeyReads(host: Host, m: Section)
    ensures YubiKeyMeans(host, m, LoadYubiKey(host, m))
  {
    hide SwitchAt, ParseBool;
    SwitchKey(m, "require_touch", false);
  }

  lemma HourReads(host: Host, m: Section, key: string)
    ensures HourAt(host, m, key).Ok? ==> HourMeans(host, m, key, HourAt(host, m, key).value)
  {
    hide NumberIs, ParseInt;
    if key in m && ParseInt(host, m[key]).Ok? {
      NumberReads(host, m[key]);
      forall n | NumberIs(host, m[key], n) ensures n == ParseInt(host, m[key]).value {
        OneNumber(host, m[key], n, ParseInt(host, m[key]).value);
      }
    }
  }

  /** A value is one number at most. */
  lemma OneNumber(host: Host, t: Tree, a: int, b: int)
    requires NumberIs(host, t, a) && NumberIs(host, t, b)
    ensures a == b
  {
  }

  lemma NotificationsRead(host: Host, m: Section)
    ensures LoadNotifications(host, m).Ok? ==> NotificationsMean(host, m, LoadNotifications(host, m).value)
  {
    hide SwitchAt, BoolAt, HourAt, HourMeans;
    AllSwitches(m);
    HourReads(host, m, "quiet_hours_start");
    HourReads(host, m, "quiet_hours_end");
  }

  lemma InterfacesRead(host: Host, m: Section, base: Interfaces)
    ensures InterfacesAt(host, m, base).Ok? ==>
              InterfacesMean(host, m, base, InterfacesAt(host, m, base).value)
  {
    hide SwitchAt, BoolAt, NumberAt, ParseBool, ParseInt, LoadPeers, WithHubs, Text, Says, Get;
    var i := Part(m, "interfaces");
    AllSwitches(i);
    NothingSet("auto", base.auto);
    if "server" in i && i["server"].Dict? {
      AllSwitches(i["server"].m);
      AllNumbers(host, i["server"].m);
      AllTexts(host, i["server"].m);
    }
  }

  /** Nothing is set in a part that is not there. */
  lemma NothingSet(key: string, default: bool)
    ensures SwitchAt(map[], key, default, default)
  {
  }

  lemma OverrideReads(host: Host, m: Section)
    ensures OverrideAt(host, m).Ok? ==> OverrideMeans(host, m, OverrideAt(host, m).value)
  {
    hide ExpandUser, Strip, Lower;
  }

  lemma ReticulumReads(host: Host, m: Section, base: Reticulum)
    ensures LoadReticulum(host, m, base).Ok? ==> ReticulumMeans(host, m, base, LoadReticulum(host, m, base).value)
  {
    hide SwitchAt, SwitchIs, NumberAt, BoolAt, IntAt, ParseBool, PathAt, OverrideAt, InterfacesAt, TextAt, Text,
         Given, GivenPath, InterfacesMean, OverrideMeans;
    AllSwitches(m);
    AllNumbers(host, m);
    GivenReads(host, m, "hub_address");
    GivenReads(host, m, "operator_identity_path");
    OverrideReads(host, m);
    InterfacesRead(host, m, base.interfaces);
    if "enable_transport" in m {
      SwitchReads(m["enable_transport"]);
    }
  }

  lemma LimitsRead(host: Host, m: Section, limits: Limits, costs: Costs)
    ensures LoadLimits(host, m, limits).Ok? ==> LimitsMean(host, m, limits, LoadLimits(host, m, limits).value)
    ensures LoadCosts(host, m, costs).Ok? ==> CostsMean(host, m, costs, LoadCosts(host, m, costs).value)
  {
    hide NumberAt, IntAt;
    AllNumbers(host, m);
  }

  lemma LxmfReads(host: Host, m: Section, base: Lxmf)
    ensures LoadLxmf(host, m, base).Ok? ==> LxmfMeans(host, m, base, LoadLxmf(host, m, base).value)
  {
    hide SwitchAt, NumberAt, BoolAt, IntAt, Get, ParseBool, StaticPeersOf, LoadLimits, LoadCosts, LimitsMean, CostsMean;
    LimitsRead(host, m, base.limits, base.costs);
    AllSwitches(m);
    AllNumbers(host, m);
    if "propagation_node" in m && m["propagation_node"].Dict? {
      AllSwitches(m["propagation_node"].m);
    }
  }

  lemma ChatbotReads(host: Host, m: Section, base: Svc.Chatbot)
    ensures Svc.LoadChatbot(host, m, base).Ok? ==> ChatbotMeans(host, m, base, Svc.LoadChatbot(host, m, base).value)
  {
    hide NumberAt, ParseInt, RealIs, ParseReal, Says, Text;
    AllNumbers(host, m);
    AllTexts(host, m);
    if "temperature" in m {
      NumberReads(host, m["temperature"]);
    }
    SevenTenths(host);
  }

  lemma SevenTenths(host: Host)
    ensures ParseReal(host, Real(0.7)) == Ok(0.7) && ParseReal(host, Real(45.0)) == Ok(45.0)
  {
  }

  lemma ChatReads(host: Host, m: Section, base: Svc.Chat)
    ensures Svc.LoadChat(host, m, base).Ok? ==> ChatMeans(host, m, base, Svc.LoadChat(host, m, base).value)
  {
    hide SwitchAt, NumberAt, BoolAt, IntAt, Text, Svc.LoadChatbot, ChatbotMeans;
    AllSwitches(m);
    AllNumbers(host, m);
    if "chatbot" in m && m["chatbot"].Dict? {
      ChatbotReads(host, m["chatbot"].m, base.chatbot);
    }
  }

  lemma ApiReads(host: Host, m: Section, base: Svc.Api)
    ensures Svc.LoadApi(host, m, base).Ok? ==> ApiMeans(host, m, base, Svc.LoadApi(host, m, base).value)
  {
    hide SwitchAt, NumberAt, BoolAt, IntAt, Text, Svc.LoadAuth;
    AllSwitches(m);
    AllNumbers(host, m);
    AllSwitches(Part(m, "metrics"));
    NothingSet("enabled", base.metrics);
  }

  lemma IpcReads(host: Host, m: Section, base: Svc.Ipc)
    ensures Svc.LoadIpc(host, m, base).Ok? ==> IpcMeans(host, m, base, Svc.LoadIpc(host, m, base).value)
  {
    hide SwitchAt, NumberAt, BoolAt, IntAt, PathAt, GivenPath;
    AllSwitches(m);
    AllNumbers(host, m);
    GivenReads(host, m, "socket_path");
  }

  lemma TerminalReads(host: Host, m: Section, base: Svc.Terminal)
    ensures Svc.LoadTerminal(host, m, base).Ok? ==>
              TerminalMeans(host, m, base, Svc.LoadTerminal(host, m, base).value)
  {
    hide SwitchAt, NumberAt, BoolAt, IntAt, TextAt, Given, Text;
    AllSwitches(m);
    AllNumbers(host, m);
    GivenReads(host, m, "default_shell");
  }

  lemma PageServerReads(host: Host, m: Section, base: Svc.PageServer)
    ensures Svc.LoadPageServer(host, m, base).Ok? ==>
              PageServerMeans(host, m, base, Svc.LoadPageServer(host, m, base).value)
  {
    hide SwitchAt, BoolAt, PathAt, GivenPath, TextAt, Given, Text;
    AllSwitches(m);
    GivenReads(host, m, "pages_dir");
    GivenReads(host, m, "node_name");
  }

  // These sections start from the class defaults, which no profile changes.

  lemma PqcReads(host: Host, m: Section, base: Svc.Pqc)
    requires base == Svc.Pqc(true, 24, false, true)
    ensures PqcMeans(host, m, base, Svc.LoadPqc(host, m))
  {
    hide SwitchAt, NumberIs, ParseBool;
    AllSwitches(m);
    if "rekey_interval_hours" in m {
      var t := m["rekey_interval_hours"];
      NumberReads(host, t);
      NoNumberIs(host, t);
    }
  }

  /** What cannot be read is no number. */
  lemma NoNumberIs(host: Host, t: Tree)
    ensures ParseInt(host, t).Err? ==> forall n :: !NumberIs(host, t, n)
  {
  }

  lemma MeshVpnReads(host: Host, m: Section, base: Svc.MeshVpn)
    requires base == Svc.MeshVpn(false, 51820, "fd73:7479:7265:6e65", false, "", "lazy")
    ensures Svc.LoadMeshVpn(host, m).Ok? ==> MeshVpnMeans(host, m, base, Svc.LoadMeshVpn(host, m).value)
  {
    hide SwitchAt, NumberAt, ParseBool, ParseInt, Get, Text, Says;
    AllSwitches(m);
    AllNumbers(host, m);
    AllTexts(host, m);
  }

  lemma RelayReads(host: Host, m: Section, base: Svc.Relay)
    requires base == Svc.Relay(false, 16, 2, 52428800, 900, false, [])
    ensures Svc.LoadRelay(host, m).Ok? ==> RelayMeans(host, m, base, Svc.LoadRelay(host, m).value)
  {
    hide SwitchAt, NumberAt, ParseBool, ParseInt, Get, Elements;
    AllSwitches(m);
    AllNumbers(host, m);
  }

  lemma YggdrasilReads(host: Host, m: Section, base: Svc.Yggdrasil)
    requires base == Svc.Yggdrasil(Svc.Disabled, "yggdrasil", 9002, "", true, false, Svc.Lazy, [])
    ensures Svc.LoadYggdrasil(host, m).Ok? ==> YggdrasilMeans(host, m, base, Svc.LoadYggdrasil(host, m).value)
  {
    hide SwitchAt, NumberAt, ParseBool, ParseInt, Text, Says, Svc.DaemonOf, ModeMeant;
    AllSwitches(m);
    AllNumbers(host, m);
    AllTexts(host, m);
    DaemonModeReads(m);
  }

  lemma TimeoutReads(host: Host, m: Section)
    ensures var r := ParseReal(host, Get(m, "fetch_timeout", Real(45.0)));
            r.Ok? ==> if "fetch_timeout" in m then RealIs(host, m["fetch_timeout"], r.value) else r.value == 45.0
  {
    hide RealIs, ParseReal;
    if "fetch_timeout" in m {
      NumberReads(host, m["fetch_timeout"]);
    }
    SevenTenths(host);
  }

  lemma DaemonModeReads(m: Section)
    ensures Svc.DaemonOf(Get(m, "mode", Str("disabled"))) == ModeMeant(m, Svc.Disabled)
  {
  }

  lemma I2pReads(host: Host, m: Section, base: Svc.I2p)
    requires base == Svc.I2p(Svc.Disabled, "127.0.0.1", 4444, 4445, 7651, "", 3600, 45.0)
    ensures Svc.LoadI2p(host, m).Ok? ==> I2pMeans(host, m, base, Svc.LoadI2p(host, m).value)
  {
    hide NumberAt, ParseInt, ParseReal, RealIs, Text, Says, Get, Svc.DaemonOf, ModeMeant;
    AllNumbers(host, m);
    AllTexts(host, m);
    TimeoutReads(host, m);
    DaemonModeReads(m);
  }

  lemma GroupThreadsRead(host: Host, m: Section, base: Svc.GroupThreads)
    requires base == Svc.GroupThreads(true, Svc.Balanced, false, true, false, true, true)
    ensures GroupThreadsMean(host, m, base, Svc.LoadGroupThreads(host, m))
  {
    hide SwitchAt, ParseBool, Lower;
    AllSwitches(m);
    BalancedIsAssumed();
  }

  lemma BalancedIsAssumed()
    ensures Lower("balanced") == "balanced"
  {
    LowerFixpoint("balanced");
  }

  lemma AuthReads(host: Host, m: Section, base: Svc.Api)
    requires base.auth == Svc.Auth(false, true, 86400)
    ensures Svc.LoadApi(host, m, base).Ok? ==> AuthMeans(host, Part(m, "auth"), base.auth,
              Svc.LoadApi(host, m, base).value.auth)
  {
    hide SwitchAt, NumberAt, Get, BoolAt, IntAt, ParseBool, ParseInt, Text;
    AllSwitches(Part(m, "auth"));
    AllNumbers(host, Part(m, "auth"));
    if SectionAt(m, "auth").None? {
      NothingSet("enabled", false);
      NothingSet("exempt_localhost", true);
      NoNumber(host, "session_ttl", 86400);
    }
  }

  lemma NoNumber(host: Host, key: string, default: int)
    ensures NumberAt(host, map[], key, default, default)
  {
  }

  // ------------------------------------------------------------- the whole file

  ghost predicate CoreMeans(host: Host, data: Section, base: CoreConfig, c: CoreConfig) {
    && RpcMeans(Part(data, "rpc"), base.rpc, c.rpc)
    && ReticulumMeans(host, Part(data, "reticulum"), base.reticulum, c.reticulum)
    && DiscoveryMeans(host, Part(data, "discovery"), base.discovery, c.discovery)
    && IdentityMeans(host, Part(data, "identity"), base.identity, c.identity)
    && LxmfMeans(host, Part(data, "lxmf"), base.lxmf, c.lxmf)
  }

  ghost predicate ServicesMean(host: Host, data: Section, base: Svc.Services, s: Svc.Services) {
    && LocalServicesMean(host, data, base, s)
    && LinkServicesMean(host, data, base, s) && MeshServicesMean(host, data, base, s)
  }

  ghost predicate LocalServicesMean(host: Host, data: Section, base: Svc.Services, s: Svc.Services) {
    && ChatMeans(host, Part(data, "chat"), base.chat, s.chat)
    && ApiMeans(host, Part(data, "api"), base.api, s.api)
    && AuthMeans(host, Part(Part(data, "api"), "auth"), base.api.auth, s.api.auth)
    && IpcMeans(host, Part(data, "ipc"), base.ipc, s.ipc)
    && TerminalMeans(host, Part(data, "terminal"), base.terminal, s.terminal)
    && PageServerMeans(host, Part(data, "page_server"), base.pageServer, s.pageServer)
  }

  ghost predicate LinkServicesMean(host: Host, data: Section, base: Svc.Services, s: Svc.Services) {
    && PqcMeans(host, Part(data, "pqc"), base.pqc, s.pqc)
    && MeshVpnMeans(host, Part(data, "mesh_vpn"), base.meshVpn, s.meshVpn)
    && RelayMeans(host, Part(data, "relay"), base.relay, s.relay)
  }

  ghost predicate MeshServicesMean(host: Host, data: Section, base: Svc.Services, s: Svc.Services) {
    && YggdrasilMeans(host, Part(data, "yggdrasil"), base.yggdrasil, s.yggdrasil)
    && I2pMeans(host, Part(data, "i2p"), base.i2p, s.i2p)
    && GroupThreadsMean(host, Part(data, "group_threads"), base.groupThreads, s.groupThreads)
  }

  lemma CoreReads(host: Host, data: Section, base: CoreConfig)
    requires base.reticulum.configPathOverride == base.reticulum.operatorIdentityPath == None
    ensures LoadSections(host, data, base).Ok? ==> CoreMeans(host, data, base, LoadSections(host, data, base).value)
  {
    hide RpcMeans, ReticulumMeans, DiscoveryMeans, LxmfMeans, LoadRpc, LoadReticulum, LoadDiscovery, LoadLxmf,
         ChatAt, ApiAt, NotificationsAt, LaterServices, RbacConfig.ParseRbacResult, IdentityMeans, LoadIdentity;
    IdentityReads(host, Part(data, "identity"), base.identity);
    RpcReads(Part(data, "rpc"), base.rpc);
    ReticulumReads(host, Part(data, "reticulum"), base.reticulum);
    DiscoveryReads(host, Part(data, "discovery"), base.discovery);
    LxmfReads(host, Part(data, "lxmf"), base.lxmf);
    CoreDefaults(host, base);
  }

  /** Nothing that is set nowhere changes. */
  lemma CoreDefaults(host: Host, base: CoreConfig)
    requires base.reticulum.configPathOverride == base.reticulum.operatorIdentityPath == None
    ensures RpcMeans(map[], base.rpc, base.rpc) && DiscoveryMeans(host, map[], base.discovery, base.discovery)
    ensures ReticulumMeans(host, map[], base.reticulum, base.reticulum)
    ensures LxmfMeans(host, map[], base.lxmf, base.lxmf)
    ensures IdentityMeans(host, map[], base.identity, base.identity)
  {
  }

  /** What the class defaults are where the loader writes them out again. */
  predicate ClassDefaults(s: Svc.Services) {
    && s.api.auth == Svc.Auth(false, true, 86400)
    && s.ipc.socketPath == s.pageServer.pagesDir == None
    && s.pqc == Svc.Pqc(true, 24, false, true)
    && s.meshVpn == Svc.MeshVpn(false, 51820, "fd73:7479:7265:6e65", false, "", "lazy")
    && s.relay == Svc.Relay(false, 16, 2, 52428800, 900, false, [])
    && s.yggdrasil == Svc.Yggdrasil(Svc.Disabled, "yggdrasil", 9002, "", true, false, Svc.Lazy, [])
    && s.i2p == Svc.I2p(Svc.Disabled, "127.0.0.1", 4444, 4445, 7651, "", 3600, 45.0)
    && s.groupThreads == Svc.GroupThreads(true, Svc.Balanced, false, true, false, true, true)
  }

  lemma LocalServicesRead(host: Host, data: Section, base: Svc.Services)
    requires ClassDefaults(base)
    ensures var chat, api := ChatAt(host, data, base.chat), ApiAt(host, data, base.api);
            chat.Ok? && api.Ok? ==>
              var r := LaterServices(host, data, base.(chat := chat.value, api := api.value));
              r.Ok? ==> LocalServicesMean(host, data, base, r.value)
  {
    hide ChatMeans, ApiMeans, AuthMeans, IpcMeans, TerminalMeans, PageServerMeans, PqcMeans, MeshVpnMeans, RelayMeans,
         YggdrasilMeans, I2pMeans, GroupThreadsMean, Svc.LoadChat, Svc.LoadApi, Svc.LoadIpc, Svc.LoadTerminal,
         Svc.LoadPageServer, Svc.LoadPqc, Svc.LoadMeshVpn, Svc.LoadRelay, Svc.LoadYggdrasil, Svc.LoadI2p,
         Svc.LoadGroupThreads;
    ChatReads(host, Part(data, "chat"), base.chat);
    ApiReads(host, Part(data, "api"), base.api);
    AuthReads(host, Part(data, "api"), base.api);
    IpcReads(host, Part(data, "ipc"), base.ipc);
    TerminalReads(host, Part(data, "terminal"), base.terminal);
    PageServerReads(host, Part(data, "page_server"), base.pageServer);
    LocalDefaults(host, base);
  }

  lemma LinkServicesRead(host: Host, data: Section, base: Svc.Services)
    requires ClassDefaults(base)
    ensures var chat, api := ChatAt(host, data, base.chat), ApiAt(host, data, base.api);
            chat.Ok? && api.Ok? ==>
              var r := LaterServices(host, data, base.(chat := chat.value, api := api.value));
              r.Ok? ==> LinkServicesMean(host, data, base, r.value)
  {
    hide ChatMeans, ApiMeans, AuthMeans, IpcMeans, TerminalMeans, PageServerMeans, PqcMeans, MeshVpnMeans, RelayMeans,
         YggdrasilMeans, I2pMeans, GroupThreadsMean, Svc.LoadChat, Svc.LoadApi, Svc.LoadIpc, Svc.LoadTerminal,
         Svc.LoadPageServer, Svc.LoadPqc, Svc.LoadMeshVpn, Svc.LoadRelay, Svc.LoadYggdrasil, Svc.LoadI2p,
         Svc.LoadGroupThreads, ChatAt, ApiAt;
    PqcReads(host, Part(data, "pqc"), base.pqc);
    MeshVpnReads(host, Part(data, "mesh_vpn"), base.meshVpn);
    RelayReads(host, Part(data, "relay"), base.relay);
    MeshDefaults(host, base);
  }

  lemma MeshServicesRead(host: Host, data: Section, base: Svc.Services)
    requires ClassDefaults(base)
    ensures var chat, api := ChatAt(host, data, base.chat), ApiAt(host, data, base.api);
            chat.Ok? && api.Ok? ==>
              var r := LaterServices(host, data, base.(chat := chat.value, api := api.value));
              r.Ok? ==> MeshServicesMean(host, data, base, r.value)
  {
    hide ChatMeans, ApiMeans, AuthMeans, IpcMeans, TerminalMeans, PageServerMeans, PqcMeans, MeshVpnMeans, RelayMeans,
         YggdrasilMeans, I2pMeans, GroupThreadsMean, Svc.LoadChat, Svc.LoadApi, Svc.LoadIpc, Svc.LoadTerminal,
         Svc.LoadPageServer, Svc.LoadPqc, Svc.LoadMeshVpn, Svc.LoadRelay, Svc.LoadYggdrasil, Svc.LoadI2p,
         Svc.LoadGroupThreads, ChatAt, ApiAt;
    YggdrasilReads(host, Part(data, "yggdrasil"), base.yggdrasil);
    I2pReads(host, Part(data, "i2p"), base.i2p);
    GroupThreadsRead(host, Part(data, "group_threads"), base.groupThreads);
    MeshDefaults(host, base);
  }

  lemma LocalDefaults(host: Host, s: Svc.Services)
    requires s.ipc.socketPath == s.pageServer.pagesDir == None
    ensures ChatMeans(host, map[], s.chat, s.chat) && ApiMeans(host, map[], s.api, s.api)
    ensures AuthMeans(host, map[], s.api.auth, s.api.auth) && IpcMeans(host, map[], s.ipc, s.ipc)
    ensures TerminalMeans(host, map[], s.terminal, s.terminal)
    ensures PageServerMeans(host, map[], s.pageServer, s.pageServer)
  {
  }

  lemma MeshDefaults(host: Host, s: Svc.Services)
    requires s.yggdrasil.initialPeers == []
    ensures PqcMeans(host, map[], s.pqc, s.pqc) && MeshVpnMeans(host, map[], s.meshVpn, s.meshVpn)
    ensures RelayMeans(host, map[], s.relay, s.relay) && YggdrasilMeans(host, map[], s.yggdrasil, s.yggdrasil)
    ensures I2pMeans(host, map[], s.i2p, s.i2p) && GroupThreadsMean(host, map[], s.groupThreads, s.groupThreads)
  {
  }

  /** What a file means: the profile is the one named or, without a name, the
      operator's; every section means what its part of the file does, starting
      from the profile's defaults, and notifications from the class default. */
  ghost predicate IsMeant(host: Host, data: Section, c: CoreConfig) {
    var base := ProfileDefaults(host, c.profile);
    && "meshtastic" !in data && "mqtt" !in data
    && (forall p :: Reads(data, "profile", ProfileValue(p)) ==> c.profile == p)
    && (c.profile != OperatorProfile ==> Reads(data, "profile", ProfileValue(c.profile)))
    && CoreMeans(host, data, base, c)
    && ServicesMean(host, data, base.services, c.services)
    && (if "notifications" in data && data["notifications"].Dict?
        then NotificationsMean(host, data["notifications"].m, c.notifications)
        else c.notifications == base.notifications)
  }

  /** Every file that loads gives the configuration it means. */
  lemma FileMeans(host: Host, data: Section)
    ensures Load(host, Dict(data)).Ok? ==> IsMeant(host, data, Load(host, Dict(data)).value)
  {
    hide CoreMeans, LocalServicesMean, LinkServicesMean, MeshServicesMean, NotificationsMean, LoadNotifications;
    hide ReticulumAt, LxmfAt, ChatAt, ApiAt, LaterServices, RbacConfig.ParseRbacResult,
         IdentityAt, RpcAt, DiscoveryAt, Svc.DefaultServices, DefaultReticulum, DefaultLxmf;
    var base := ProfileDefaults(host, ProfileAt(data));
    ProfilesShare(host, ProfileAt(data));
    ServicesShare(host, ProfileAt(data));
    CoreReads(host, data, base);
    LocalServicesRead(host, data, base.services);
    LinkServicesRead(host, data, base.services);
    MeshServicesRead(host, data, base.services);
    if "notifications" in data && data["notifications"].Dict? {
      NotificationsRead(host, data["notifications"].m);
    }
  }

  /** Legacy bridge sections refuse the file and are named; a file that is no
      mapping gives the operator's defaults. */
  lemma RefusedFiles(host: Host, data: Section, file: Tree)
    ensures !file.Dict? ==> Load(host, file) == Ok(ProfileDefaults(host, OperatorProfile))
    ensures "meshtastic" in data || "mqtt" in data ==>
              Load(host, Dict(data)) == Err(PoisonPill(
                if "mqtt" !in data then ["meshtastic"]
                else if "meshtastic" !in data then ["mqtt"] else ["meshtastic", "mqtt"]))
  {
    hide ProfileDefaults, LoadSections;
    assert "mqtt" !in data && "meshtastic" in data ==> PoisonKeys(data) == ["meshtastic"];
    assert "mqtt" in data && "meshtastic" !in data ==> PoisonKeys(data) == ["mqtt"];
    assert "mqtt" in data && "meshtastic" in data ==> PoisonKeys(data) == ["meshtastic", "mqtt"];
  }

  // ---------------------------------------------------------------- lists of peers

  /** One more item: a mapping with a host is one more peer, anything else is
      skipped, and a port that is no number fails. */
  lemma PeersGrow(host: Host, xs: seq<Tree>, x: Tree)
    requires LoadPeers(host, xs).Ok?
    ensures var before, after := LoadPeers(host, xs).value, LoadPeers(host, xs + [x]);
            && (!x.Dict? || "host" !in x.m ==> after == Ok(before))
            && (x.Dict? && "host" in x.m ==>
                  && (after.Err? <==> ParseInt(host, Get(x.m, "port", Int(4242))).Err?)
                  && (after.Ok? ==>
                        && |after.value| == |before| + 1 && before <= after.value
                        && var p := after.value[|before|];
                           && Says(host, x.m, "host", "", p.host) && NumberAt(host, x.m, "port", 4242, p.port)
                           && p.name == Get(x.m, "name", Null) && SwitchAt(x.m, "enabled", true, p.enabled)))
  {
    hide SwitchAt, NumberAt, Get, ParseInt, ParseBool, Text;
    assert (xs + [x])[..|xs|] == xs && (xs + [x])[|xs|] == x;
    assert LoadPeers(host, xs).value + [] == LoadPeers(host, xs).value;
    if x.Dict? {
      AllSwitches(x.m);
      AllNumbers(host, x.m);
    }
  }

  /** Five hubs are well known, at endpoints of their own, and only the first is
      on. */
  lemma HubsAre(i: nat, j: nat)
    requires i < |WELL_KNOWN_HUBS| && j < |WELL_KNOWN_HUBS|
    ensures |WELL_KNOWN_HUBS| == 5 && (WELL_KNOWN_HUBS[i].enabled <==> i == 0)
    ensures WELL_KNOWN_HUBS[i].port == [4242, 4965, 4242, 9034, 4242][i]
    ensures WELL_KNOWN_HUBS[i].host == ["rns.styrene.io", "dublin.connect.reticulum.network",
                                        "reticulum.betweentheborders.com", "istanbul.reserve.network",
                                        "sydney.reticulum.au"][i]
    ensures i != j ==> !SameEndpoint(WELL_KNOWN_HUBS[i], WELL_KNOWN_HUBS[j])
  {
    assert "rns.styrene.io"[1] == 'n' && "reticulum.betweentheborders.com"[1] == 'e';
    assert "sydney.reticulum.au"[1] == 'y';
  }

  /** A well-known hub is appended exactly when no peer has its host and port. */
  lemma HubIsAppendedIff(peers: seq<Peer>, hub: Peer)
    ensures peers <= WithHubs(peers)
    ensures hub in WithHubs(peers)[|peers|..] <==>
              hub in WELL_KNOWN_HUBS
              && forall i :: 0 <= i < |peers| ==> peers[i].host != hub.host || peers[i].port != hub.port
  {
    hide WELL_KNOWN_HUBS;
    assert WithHubs(peers)[|peers|..] == Missing(WELL_KNOWN_HUBS, peers);
    MissingIff(WELL_KNOWN_HUBS, peers, hub);
  }

  lemma {:induction false} MissingIff(hubs: seq<Peer>, peers: seq<Peer>, hub: Peer)
    ensures hub in Missing(hubs, peers) <==>
              hub in hubs && forall i :: 0 <= i < |peers| ==> peers[i].host != hub.host || peers[i].port != hub.port
    decreases |hubs|
  {
    if hubs != [] {
      var init, last := hubs[..|hubs| - 1], hubs[|hubs| - 1];
      assert hubs == init + [last];
      MissingIff(init, peers, hub);
      forall i | 0 <= i < |peers| && peers[i].host == last.host && peers[i].port == last.port
        ensures Present(last, peers)
      {
        assert SameEndpoint(peers[i], last);
      }
    }
  }

  /** Of a list of static peers the texts of 32 characters are kept, in order. */
  lemma StaticPeersGrow(xs: seq<Tree>, x: Tree)
    ensures StaticPeersOf([]) == []
    ensures StaticPeersOf(xs + [x]) == StaticPeersOf(xs) + if x.Str? && |x.s| == 32 then [x.s] else []
  {
    assert (xs + [x])[..|xs|] == xs;
  }

  // --------------------------------------------------------------------- defaults

  /** What the three profiles differ in. */
  lemma ProfilesDiffer(host: Host, p: Profile)
    ensures var c, hub, operator := ProfileDefaults(host, p), p.HubProfile?, p.OperatorProfile?;
            && (c.rpc.allowCommandExecution <==> p.EndpointProfile?) && (c.rpc.relayMode <==> hub)
            && (c.services.terminal.enabled <==> p.EndpointProfile?) && (c.services.ipc.enabled <==> operator)
            && (c.services.api.enabled <==> hub) && (c.services.api.publicMode <==> hub)
            && (c.notifications.enabled <==> operator) && (c.lxmf.nodeEnabled <==> hub)
            && c.services.chat.mode == (if operator then Svc.NoReply else Svc.Template)
            && c.services.chat.cooldown == (if hub then 600 else 300)
            && c.reticulum.mode == (if hub then HubMode else Standalone)
            && c.reticulum.enableTransport == (if hub then Some(true) else None)
            && c.lxmf.destination == (if operator then Some("0db6cb465cb2bb3279f32e27ac7da24b") else None)
  {
  }

  /** What they share: everything else. */
  lemma ProfilesShare(host: Host, p: Profile)
    ensures var c := ProfileDefaults(host, p);
            && c.rpc.enabled && c.discovery == Discovery(true, true, Open, {}, false, "")
            && c.identity.displayName == "Anonymous Styrene" && c.identity.provider == "file"
            && c.identity.shortName == None && c.identity.webUrl == ""
            && c.identity.yubikey == YubiKey("", "styrene.mesh", false)
            && c.reticulum.autoInitialize && !c.reticulum.hubEnabled
            && c.reticulum.announceInterval == 3600 && c.reticulum.hubAnnounceInterval == 3600
            && c.reticulum.configPathOverride == c.reticulum.operatorIdentityPath == c.reticulum.hubAddress == None
            && c.reticulum.interfaces == Interfaces(false, Server(false, "0.0.0.0", 4242), WELL_KNOWN_HUBS)
            && c.notifications.quietStart == c.notifications.quietEnd == None
            && c.lxmf.nodeName == Null && c.lxmf.limits == Limits(256, 10240, 1000) && c.lxmf.autopeer
            && c.lxmf.autopeerMaxdepth == 4 && c.lxmf.maxPeers == 20 && c.lxmf.staticPeers == []
            && !c.lxmf.fromStaticOnly && c.lxmf.costs == Costs(16, 3, 18, 26)
            && c.rbac == Rbac.Rules(Rbac.Peer, map[], []) && !c.strictBinaryVerification && !c.boundarySink
  {
  }

  lemma ServicesShare(host: Host, p: Profile)
    ensures var s := ProfileDefaults(host, p).services;
            && s.chat.enabled && s.chat.persist && s.chat.message == host.autoReply
            && s.chat.chatbot == Svc.Chatbot("http://localhost:11434/v1", "llama3", "", host.systemPrompt, 256, 0.7, 10)
            && s.api.host == "0.0.0.0" && s.api.port == 8000 && !s.api.metrics
            && s.api.auth == Svc.Auth(false, true, 86400)
            && s.ipc.socketPath == None && s.ipc.socketMode == 0x1B0
            && s.terminal.defaultShell == None && s.terminal.allowedShells == {} && s.terminal.idleTimeout == 3600
            && s.terminal.maxPerIdentity == 3 && s.terminal.maxTotal == 10 && s.terminal.rateLimit == 10
            && s.pageServer == Svc.PageServer(false, None, None, false)
            && s.pqc == Svc.Pqc(true, 24, false, true)
            && s.meshVpn == Svc.MeshVpn(false, 51820, "fd73:7479:7265:6e65", false, "", "lazy")
            && s.relay == Svc.Relay(false, 16, 2, 52428800, 900, false, [])
            && s.yggdrasil == Svc.Yggdrasil(Svc.Disabled, "yggdrasil", 9002, "", true, false, Svc.Lazy, [])
            && s.i2p == Svc.I2p(Svc.Disabled, "127.0.0.1", 4444, 4445, 7651, "", 3600, 45.0)
            && s.groupThreads == Svc.GroupThreads(true, Svc.Balanced, false, true, false, true, true)
  {
  }
}
