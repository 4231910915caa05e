/** `load_core_config` of src/styrened/services/config.py: from the decoded
    file to the configuration record. */
module ConfigLoad {
  import opened Prelude
  import opened Sections
  import opened Strings
  import opened Values
  import opened CoreConfig
  import RbacConfig
  import Svc = ServiceConfig

  predicate MeansNoPath(s: string) {
    Strip(s) == "" || Lower(Strip(s)) == "null"
  }

  /** `config_path_override`: null, blank or "null" text, and values that are
      not text all mean no override. */
  function OverrideAt(host: Host, m: Section): Result<Option<string>, Fault> {
    if "config_path_override" !in m || !m["config_path_override"].Str? then Ok(None)
    else
      var s := m["config_path_override"].s;
      if MeansNoPath(s) then Ok(None)
      else var path :- ExpandUser(host, s); Ok(Some(path))
  }

  // ----------------------------------------------------------------- interfaces

  /** An item of the peers list: skipped unless it is a mapping with a host. */
  function LoadPeer(host: Host, t: Tree): Result<seq<Peer>, Fault> {
    if !t.Dict? || "host" !in t.m then Ok([])
    else
      var port :- ParseInt(host, Get(t.m, "port", Int(4242)));
      Ok([Peer(Text(host, t.m["host"]), port, Get(t.m, "name", Null), ParseBool(Get(t.m, "enabled", Bool(true))))])
  }

  function LoadPeers(host: Host, xs: seq<Tree>): Result<seq<Peer>, Fault> {
    if xs == [] then Ok([])
    else
      var init :- LoadPeers(host, xs[..|xs| - 1]);
      var last :- LoadPeer(host, xs[|xs| - 1]);
      Ok(init + last)
  }

  predicate SameEndpoint(a: Peer, b: Peer) {
    a.host == b.host && a.port == b.port
  }

  predicate Present(hub: Peer, peers: seq<Peer>) {
    exists i :: 0 <= i < |peers| && SameEndpoint(peers[i], hub)
  }

  function Missing(hubs: seq<Peer>, peers: seq<Peer>): seq<Peer> {
    if hubs == [] then []
    else
      var init, last := Missing(hubs[..|hubs| - 1], peers), hubs[|hubs| - 1];
      if Present(last, peers) then init else init + [last]
  }

  /** The peers after the hub merge. */
  function WithHubs(peers: seq<Peer>): seq<Peer> {
    peers + Missing(WELL_KNOWN_HUBS, peers)
  }

  lemma {:induction false} LoadPeersFails(host: Host, xs: seq<Tree>, i: nat)
    requires i < |xs| && LoadPeers(host, xs[..i]).Ok? && LoadPeer(host, xs[i]).Err?
    ensures LoadPeers(host, xs) == Err(LoadPeer(host, xs[i]).error)
    decreases |xs|
  {
    if i < |xs| - 1 {
      assert xs[..|xs| - 1][..i] == xs[..i];
      LoadPeersFails(host, xs[..|xs| - 1], i);
    }
  }

  method ReadPeers(host: Host, xs: seq<Tree>) returns (r: Result<seq<Peer>, Fault>)
    ensures r == LoadPeers(host, xs)
  {
    var peers: seq<Peer> := [];
    var i := 0;
    while i < |xs|
      invariant 0 <= i <= |xs|
      invariant LoadPeers(host, xs[..i]) == Ok(peers)
    {
      assert xs[..i + 1][..i] == xs[..i];
      var p := xs[i];
      if p.Dict? && "host" in p.m {
        var port := ParseInt(host, Get(p.m, "port", Int(4242)));
        if port.Err? {
          LoadPeersFails(host, xs, i);
          return Err(port.error);
        }
        peers := peers + [Peer(Text(host, p.m["host"]), port.value, Get(p.m, "name", Null),
                               ParseBool(Get(p.m, "enabled", Bool(true))))];
      } else {
        assert LoadPeer(host, p) == Ok([]) && peers + [] == peers;
      }
      i := i + 1;
    }
    assert xs[..i] == xs;
    return Ok(peers);
  }

  /** The well-known hub merge: endpoints are collected once, before the loop. */
  method MergeHubs(configured: seq<Peer>) returns (peers: seq<Peer>)
    ensures peers == WithHubs(configured)
  {
    peers := configured;
    var endpoints := set i | 0 <= i < |configured| :: (configured[i].host, configured[i].port);
    var i := 0;
    while i < |WELL_KNOWN_HUBS|
      invariant 0 <= i <= |WELL_KNOWN_HUBS|
      invariant peers == configured + Missing(WELL_KNOWN_HUBS[..i], configured)
    {
      var hub := WELL_KNOWN_HUBS[i];
      HubStep(WELL_KNOWN_HUBS, configured, i);
      assert Present(hub, configured) <==> (hub.host, hub.port) in endpoints;
      if (hub.host, hub.port) !in endpoints {
        peers := peers + [hub];
      }
      i := i + 1;
    }
    assert WELL_KNOWN_HUBS[..i] == WELL_KNOWN_HUBS;
  }

  lemma HubStep(hubs: seq<Peer>, peers: seq<Peer>, i: nat)
    requires i < |hubs|
    ensures Missing(hubs[..i + 1], peers)
            == Missing(hubs[..i], peers) + if Present(hubs[i], peers) then [] else [hubs[i]]
  {
    assert hubs[..i + 1][..i] == hubs[..i];
  }

  function LoadServer(host: Host, m: Section): Result<Server, Fault> {
    var port :- ParseInt(host, Get(m, "port", Int(4242)));
    Ok(Server(ParseBool(Get(m, "enabled", Bool(false))), Text(host, Get(m, "listen_ip", Str("0.0.0.0"))), port))
  }

  function LoadInterfaces(host: Host, m: Section, base: Interfaces): Result<Interfaces, Fault> {
    var server :- (match SectionAt(m, "server")
                   case None => Ok(base.server)
                   case Some(srv) => LoadServer(host, srv));
    var peers :- if "peers" in m && m["peers"].List? then LoadPeers(host, m["peers"].xs) else Ok(base.peers);
    Ok(Interfaces(BoolAt(m, "auto", base.auto), server, WithHubs(peers)))
  }

  function InterfacesAt(host: Host, m: Section, base: Interfaces): Result<Interfaces, Fault> {
    match SectionAt(m, "interfaces") case None => Ok(base) case Some(i) => LoadInterfaces(host, i, base)
  }

  function LoadReticulum(host: Host, m: Section, base: Reticulum): Result<Reticulum, Fault> {
    var announceInterval :- IntAt(host, m, "announce_interval", base.announceInterval);
    var hubAnnounceInterval :- IntAt(host, m, "hub_announce_interval", base.hubAnnounceInterval);
    var operatorPath :- PathAt(host, m, "operator_identity_path");
    var override :- OverrideAt(host, m);
    var interfaces :- InterfacesAt(host, m, base.interfaces);
    var mode := if "mode" in m then ModeOf(m["mode"]) else None;
    var address := TextAt(host, m, "hub_address");
    Ok(Reticulum(
         if mode.Some? then mode.value else base.mode, BoolAt(m, "auto_initialize", base.autoInitialize),
         announceInterval, BoolAt(m, "hub_enabled", base.hubEnabled), hubAnnounceInterval,
         if "enable_transport" in m then Some(ParseBool(m["enable_transport"])) else base.enableTransport,
         override, operatorPath,
         if address.Some? && |address.value| == 32 then address else base.hubAddress, interfaces))
  }

  // ------------------------------------------------------------- other sections

  predicate NameChar(c: char) {
    'a' <= c <= 'z' || '0' <= c <= '9'
  }

  /** `validate_short_name`: 3 to 20 lower-case letters, digits and inner
      hyphens. The pattern's `$` also lets one final newline through. */
  predicate ValidShortName(s: string) {
    PlainShortName(s) || (s != [] && s[|s| - 1] == '\n' && PlainShortName(s[..|s| - 1]))
  }

  predicate PlainShortName(s: string) {
    3 <= |s| <= 20 && NameChar(s[0]) && NameChar(s[|s| - 1])
    && forall i :: 0 <= i < |s| ==> NameChar(s[i]) || s[i] == '-'
  }

  function LoadYubiKey(host: Host, m: Section): YubiKey {
    YubiKey(Text(host, Get(m, "credential_id", Str(""))), Text(host, Get(m, "rp_id", Str("styrene.mesh"))),
            ParseBool(Get(m, "require_touch", Bool(false))))
  }

  function ProviderOr(text: Option<string>, old_: string): string {
    if text.Some? && Lower(text.value) in ["file", "yubikey"] then Lower(text.value) else old_
  }

  function LoadIdentity(host: Host, m: Section, base: Identity): Identity {
    var display, icon := TextAt(host, m, "display_name"), TextAt(host, m, "icon");
    var short, url := TextAt(host, m, "short_name"), TextAt(host, m, "web_url");
    Identity(if display.Some? then display.value else base.displayName, if icon.Some? then icon.value else base.icon,
             if short.Some? && ValidShortName(short.value) then short else base.shortName,
             ProviderOr(TextAt(host, m, "provider"), base.provider),
             match SectionAt(m, "yubikey") case None => base.yubikey case Some(yk) => LoadYubiKey(host, yk),
             if url.Some? then url.value else base.webUrl)
  }

  function LoadRpc(m: Section, base: Rpc): Rpc {
    Rpc(BoolAt(m, "enabled", base.enabled), BoolAt(m, "relay_mode", base.relayMode),
        BoolAt(m, "allow_command_execution", base.allowCommandExecution))
  }

  function AllowedOf(host: Host, xs: seq<Tree>): set<string> {
    set x | x in xs && Truthy(x) :: Lower(Text(host, x))
  }

  function LoadDiscovery(host: Host, m: Section, base: Discovery): Discovery {
    var access := if "access_mode" in m then AccessOf(Lower(Text(host, m["access_mode"]))) else None;
    Discovery(BoolAt(m, "enabled", base.enabled), BoolAt(m, "auto_announce", base.autoAnnounce),
              if access.Some? then access.value else base.accessMode,
              if "allowed_peers" in m && m["allowed_peers"].List? then AllowedOf(host, m["allowed_peers"].xs)
              else base.allowedPeers,
              BoolAt(m, "info_respond", base.infoRespond),
              if "operator_label" in m then Strip(Text(host, m["operator_label"])) else base.operatorLabel)
  }

  function HourAt(host: Host, m: Section, key: string): Result<Option<int>, Fault> {
    if key !in m || m[key] == Null then Ok(None)
    else
      var v :- ParseInt(host, m[key]);
      Ok(if 0 <= v <= 23 then Some(v) else None)
  }

  /** Notifications start from the class default, not from the profile. */
  function LoadNotifications(host: Host, m: Section): Result<Notifications, Fault> {
    var start :- HourAt(host, m, "quiet_hours_start");
    var end :- HourAt(host, m, "quiet_hours_end");
    Ok(Notifications(BoolAt(m, "enabled", true), start, end))
  }

  function StaticPeersOf(xs: seq<Tree>): seq<string> {
    if xs == [] then []
    else
      var init, last := StaticPeersOf(xs[..|xs| - 1]), xs[|xs| - 1];
      if last.Str? && |last.s| == 32 then init + [last.s] else init
  }

  method ReadStaticPeers(xs: seq<Tree>) returns (peers: seq<string>)
    ensures peers == StaticPeersOf(xs)
  {
    peers := [];
    var i := 0;
    while i < |xs|
      invariant 0 <= i <= |xs|
      invariant peers == StaticPeersOf(xs[..i])
    {
      assert xs[..i + 1][..i] == xs[..i];
      if xs[i].Str? && |xs[i].s| == 32 {
        peers := peers + [xs[i].s];
      }
      i := i + 1;
    }
    assert xs[..i] == xs;
  }

  function LoadLimits(host: Host, m: Section, base: Limits): Result<Limits, Fault> {
    var propagation :- IntAt(host, m, "propagation_limit", base.propagation);
    var sync :- IntAt(host, m, "sync_limit", base.sync);
    var delivery :- IntAt(host, m, "delivery_limit", base.delivery);
    Ok(Limits(propagation, sync, delivery))
  }

  function LoadCosts(host: Host, m: Section, base: Costs): Result<Costs, Fault> {
    var propagation :- IntAt(host, m, "propagation_cost", base.propagation);
    var flexibility :- IntAt(host, m, "propagation_cost_flexibility", base.flexibility);
    var peering :- IntAt(host, m, "peering_cost", base.peering);
    var maxPeering :- IntAt(host, m, "max_peering_cost", base.maxPeering);
    Ok(Costs(propagation, flexibility, peering, maxPeering))
  }

  function DestinationAt(m: Section, old_: Option<string>): Option<string> {
    if "propagation_destination" in m && m["propagation_destination"].Str? && |m["propagation_destination"].s| == 32
    then Some(m["propagation_destination"].s)
    else old_
  }

  function LoadLxmf(host: Host, m: Section, base: Lxmf): Result<Lxmf, Fault> {
    var node := SectionAt(m, "propagation_node");
    var limits :- LoadLimits(host, m, base.limits);
    var autopeerMaxdepth :- IntAt(host, m, "autopeer_maxdepth", base.autopeerMaxdepth);
    var maxPeers :- IntAt(host, m, "max_peers", base.maxPeers);
    var costs :- LoadCosts(host, m, base.costs);
    Ok(Lxmf(if node.Some? then ParseBool(Get(node.value, "enabled", Bool(false))) else base.nodeEnabled,
            if node.Some? then Get(node.value, "name", Null) else base.nodeName,
            DestinationAt(m, base.destination), limits, BoolAt(m, "autopeer", base.autopeer), autopeerMaxdepth,
            maxPeers,
            if "static_peers" in m && m["static_peers"].List? then StaticPeersOf(m["static_peers"].xs)
            else base.staticPeers,
            BoolAt(m, "from_static_only", base.fromStaticOnly), costs))
  }

  // ------------------------------------------------------------------ the loader

  function PoisonKeys(data: Section): seq<string> {
    (if "meshtastic" in data then ["meshtastic"] else []) + (if "mqtt" in data then ["mqtt"] else [])
  }

  function ProfileAt(data: Section): Profile {
    var p := if "profile" in data then ProfileOf(data["profile"]) else None;
    if p.Some? then p.value else OperatorProfile
  }

  // Sections that are absent, or not mappings, leave the profile's defaults.

  function ReticulumAt(host: Host, data: Section, base: Reticulum): Result<Reticulum, Fault> {
    match SectionAt(data, "reticulum") case None => Ok(base) case Some(m) => LoadReticulum(host, m, base)
  }

  function RpcAt(data: Section, base: Rpc): Rpc {
    match SectionAt(data, "rpc") case None => base case Some(m) => LoadRpc(m, base)
  }

  function DiscoveryAt(host: Host, data: Section, base: Discovery): Discovery {
    match SectionAt(data, "discovery") case None => base case Some(m) => LoadDiscovery(host, m, base)
  }

  function IdentityAt(host: Host, data: Section, base: Identity): Identity {
    match SectionAt(data, "identity") case None => base case Some(m) => LoadIdentity(host, m, base)
  }

  function NotificationsAt(host: Host, data: Section, base: Notifications): Result<Notifications, Fault> {
    match SectionAt(data, "notifications") case None => Ok(base) case Some(m) => LoadNotifications(host, m)
  }

  function LxmfAt(host: Host, data: Section, base: Lxmf): Result<Lxmf, Fault> {
    match SectionAt(data, "lxmf") case None => Ok(base) case Some(m) => LoadLxmf(host, m, base)
  }

  function ChatAt(host: Host, data: Section, base: Svc.Chat): Result<Svc.Chat, Fault> {
    match SectionAt(data, "chat") case None => Ok(base) case Some(m) => Svc.LoadChat(host, m, base)
  }

  function ApiAt(host: Host, data: Section, base: Svc.Api): Result<Svc.Api, Fault> {
    match SectionAt(data, "api") case None => Ok(base) case Some(m) => Svc.LoadApi(host, m, base)
  }

  /** The services after the lxmf section, in the order they are read. */
  function LaterServices(host: Host, data: Section, base: Svc.Services): Result<Svc.Services, Fault> {
    var ipc :- (match SectionAt(data, "ipc") case None => Ok(base.ipc) case Some(m) => Svc.LoadIpc(host, m, base.ipc));
    var terminal :- (match SectionAt(data, "terminal")
                     case None => Ok(base.terminal)
                     case Some(m) => Svc.LoadTerminal(host, m, base.terminal));
    var pageServer :- (match SectionAt(data, "page_server")
                       case None => Ok(base.pageServer)
                       case Some(m) => Svc.LoadPageServer(host, m, base.pageServer));
    var meshVpn :- (match SectionAt(data, "mesh_vpn")
                    case None => Ok(base.meshVpn)
                    case Some(m) => Svc.LoadMeshVpn(host, m));
    var relay :- (match SectionAt(data, "relay") case None => Ok(base.relay) case Some(m) => Svc.LoadRelay(host, m));
    var yggdrasil :- (match SectionAt(data, "yggdrasil")
                      case None => Ok(base.yggdrasil)
                      case Some(m) => Svc.LoadYggdrasil(host, m));
    var i2p :- (match SectionAt(data, "i2p") case None => Ok(base.i2p) case Some(m) => Svc.LoadI2p(host, m));
    Ok(base.(ipc := ipc, terminal := terminal, pageServer := pageServer,
             pqc := match SectionAt(data, "pqc") case None => base.pqc case Some(m) => Svc.LoadPqc(host, m),
             meshVpn := meshVpn, relay := relay, yggdrasil := yggdrasil, i2p := i2p,
             groupThreads := match SectionAt(data, "group_threads")
                             case None => base.groupThreads
                             case Some(m) => Svc.LoadGroupThreads(host, m)))
  }

  /** `security` and `logging` are never read. */
  function LoadSections(host: Host, data: Section, base: CoreConfig): Result<CoreConfig, Fault> {
    var reticulum :- ReticulumAt(host, data, base.reticulum);
    var chat :- ChatAt(host, data, base.services.chat);
    var api :- ApiAt(host, data, base.services.api);
    var notifications :- NotificationsAt(host, data, base.notifications);
    var lxmf :- LxmfAt(host, data, base.lxmf);
    var services :- LaterServices(host, data, base.services.(chat := chat, api := api));
    var rbac :- RbacConfig.ParseRbacResult(host, data);
    Ok(CoreConfig(
         base.profile, reticulum, IdentityAt(host, data, base.identity), RpcAt(data, base.rpc),
         DiscoveryAt(host, data, base.discovery), notifications, lxmf, services, rbac,
         base.strictBinaryVerification, base.boundarySink))
  }

  /** A file that is not a mapping gives the operator defaults; legacy bridge
      sections refuse the file. */
  function Load(host: Host, file: Tree): Result<CoreConfig, Fault> {
    if !file.Dict? then Ok(ProfileDefaults(host, OperatorProfile))
    else if PoisonKeys(file.m) != [] then Err(PoisonPill(PoisonKeys(file.m)))
    else LoadSections(host, file.m, ProfileDefaults(host, ProfileAt(file.m)))
  }

}
