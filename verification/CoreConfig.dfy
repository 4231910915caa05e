/** The configuration record of src/styrened/models/config.py, its profile
    defaults, and its printer `to_dict`. */
module CoreConfig {
  import opened Prelude
  import opened Sections
  import opened Strings
  import opened Values
  import Rbac
  import RbacConfig
  import Svc = ServiceConfig

  datatype Profile = OperatorProfile | EndpointProfile | HubProfile
  datatype DeploymentMode = Standalone | HubMode | PeerMode
  datatype AccessMode = Open | Allowlist

  /** A peer's name is whatever the file holds under `name`. */
  datatype Peer = Peer(host: string, port: int, name: Tree, enabled: bool)
  datatype Server = Server(enabled: bool, listenIp: string, port: int)
  datatype Interfaces = Interfaces(auto: bool, server: Server, peers: seq<Peer>)
  datatype Reticulum = Reticulum(
    mode: DeploymentMode, autoInitialize: bool, announceInterval: int, hubEnabled: bool, hubAnnounceInterval: int,
    enableTransport: Option<bool>, configPathOverride: Option<string>, operatorIdentityPath: Option<string>,
    hubAddress: Option<string>, interfaces: Interfaces)
  datatype YubiKey = YubiKey(credentialId: string, rpId: string, requireTouch: bool)
  datatype Identity = Identity(displayName: string, icon: string, shortName: Option<string>, provider: string,
                               yubikey: YubiKey, webUrl: string)
  datatype Rpc = Rpc(enabled: bool, relayMode: bool, allowCommandExecution: bool)
  datatype Discovery = Discovery(enabled: bool, autoAnnounce: bool, accessMode: AccessMode,
                                 allowedPeers: set<string>, infoRespond: bool, operatorLabel: string)
  datatype Notifications = Notifications(enabled: bool, quietStart: Option<int>, quietEnd: Option<int>)
  datatype Limits = Limits(propagation: int, sync: int, delivery: int)
  datatype Costs = Costs(propagation: int, flexibility: int, peering: int, maxPeering: int)
  datatype Lxmf = Lxmf(nodeEnabled: bool, nodeName: Tree, destination: Option<string>, limits: Limits,
                       autopeer: bool, autopeerMaxdepth: int, maxPeers: int, staticPeers: seq<string>,
                       fromStaticOnly: bool, costs: Costs)
  datatype CoreConfig = CoreConfig(
    profile: Profile, reticulum: Reticulum, identity: Identity, rpc: Rpc, discovery: Discovery,
    notifications: Notifications, lxmf: Lxmf, services: Svc.Services, rbac: Rbac.Rules,
    strictBinaryVerification: bool, boundarySink: bool)

  // ------------------------------------------------------------------ defaults

  const COMMUNITY_HUB := "0db6cb465cb2bb3279f32e27ac7da24b"

  const WELL_KNOWN_HUBS := [
    Peer("rns.styrene.io", 4242, Str("Styrene Community Hub"), true),
    Peer("dublin.connect.reticulum.network", 4965, Str("RNS Dublin"), false),
    Peer("reticulum.betweentheborders.com", 4242, Str("BetweenTheBorders"), false),
    Peer("istanbul.reserve.network", 9034, Str("Istanbul Reserve"), false),
    Peer("sydney.reticulum.au", 4242, Str("RNS Sydney"), false)]

  const DEFAULT_YUBIKEY := YubiKey("", "styrene.mesh", false)

  function DefaultReticulum(profile: Profile): Reticulum {
    Reticulum(if profile.HubProfile? then HubMode else Standalone, true, 3600, false, 3600,
              if profile.HubProfile? then Some(true) else None, None, None, None,
              Interfaces(false, Server(false, "0.0.0.0", 4242), WELL_KNOWN_HUBS))
  }

  const DEFAULT_IDENTITY := Identity("Anonymous Styrene", "\U{1F517}", None, "file", DEFAULT_YUBIKEY, "")

  const DEFAULT_DISCOVERY := Discovery(true, true, Open, {}, false, "")

  function DefaultLxmf(profile: Profile): Lxmf {
    Lxmf(profile.HubProfile?, Null, if profile.OperatorProfile? then Some(COMMUNITY_HUB) else None,
         Limits(256, 10240, 1000), true, 4, 20, [], false, Costs(16, 3, 18, 26))
  }

  /** `get_profile_defaults`. */
  function ProfileDefaults(host: Host, profile: Profile): CoreConfig {
    CoreConfig(profile, DefaultReticulum(profile), DEFAULT_IDENTITY,
               Rpc(true, profile.HubProfile?, profile.EndpointProfile?), DEFAULT_DISCOVERY,
               Notifications(profile.OperatorProfile?, None, None), DefaultLxmf(profile),
               Svc.DefaultServices(host, profile.HubProfile?, profile.OperatorProfile?), RbacConfig.DEFAULT_RULES,
               false, false)
  }

  // --------------------------------------------------------- enumeration values

  function ProfileValue(p: Profile): string {
    match p case OperatorProfile => "operator" case EndpointProfile => "endpoint" case HubProfile => "hub"
  }

  function ProfileOf(t: Tree): Option<Profile> {
    if t == Str("operator") then Some(OperatorProfile)
    else if t == Str("endpoint") then Some(EndpointProfile)
    else if t == Str("hub") then Some(HubProfile)
    else None
  }

  function ModeValue(m: DeploymentMode): string {
    match m case Standalone => "standalone" case HubMode => "hub" case PeerMode => "peer"
  }

  function ModeOf(t: Tree): Option<DeploymentMode> {
    if t == Str("standalone") then Some(Standalone)
    else if t == Str("hub") then Some(HubMode)
    else if t == Str("peer") then Some(PeerMode)
    else None
  }

  function AccessValue(a: AccessMode): string {
    match a case Open => "open" case Allowlist => "allowlist"
  }

  function AccessOf(s: string): Option<AccessMode> {
    if s == "open" then Some(Open) else if s == "allowlist" then Some(Allowlist) else None
  }

  // ------------------------------------------------------------------- printing

  function SavePeer(p: Peer): Tree {
    Dict(With(map["host" := Str(p.host), "port" := Int(p.port), "enabled" := Bool(p.enabled)],
              "name", When(Truthy(p.name), p.name)))
  }

  function SavePeers(ps: seq<Peer>): (xs: seq<Tree>)
    ensures |xs| == |ps| && forall i :: 0 <= i < |ps| ==> xs[i] == SavePeer(ps[i])
  {
    seq(|ps|, i requires 0 <= i < |ps| => SavePeer(ps[i]))
  }

  function SaveServer(s: Server): Section {
    map["enabled" := Bool(s.enabled), "listen_ip" := Str(s.listenIp), "port" := Int(s.port)]
  }

  function SaveInterfaces(i: Interfaces): Section {
    With(map["auto" := Bool(i.auto), "server" := Dict(SaveServer(i.server))],
         "peers", When(i.peers != [], List(SavePeers(i.peers))))
  }

  function SaveReticulum(r: Reticulum): Section {
    var m := map["mode" := Str(ModeValue(r.mode)), "auto_initialize" := Bool(r.autoInitialize),
                 "announce_interval" := Int(r.announceInterval), "hub_enabled" := Bool(r.hubEnabled),
                 "hub_announce_interval" := Int(r.hubAnnounceInterval),
                 "interfaces" := Dict(SaveInterfaces(r.interfaces))];
    With(With(With(With(m,
      "enable_transport", BoolOf(r.enableTransport)),
      "config_path_override", StrOf(r.configPathOverride)),
      "operator_identity_path", StrOf(r.operatorIdentityPath)),
      "hub_address", StrOf(r.hubAddress))
  }

  function SaveYubiKey(y: YubiKey): Section {
    map["credential_id" := Str(y.credentialId), "rp_id" := Str(y.rpId), "require_touch" := Bool(y.requireTouch)]
  }

  predicate YubiKeyWritten(i: Identity) {
    i.provider == "yubikey" || i.yubikey.credentialId != ""
  }

  function SaveIdentity(i: Identity): Section {
    var m := map["display_name" := Str(i.displayName), "icon" := Str(i.icon), "provider" := Str(i.provider)];
    With(With(With(m,
      "short_name", if i.shortName == Some("") then None else StrOf(i.shortName)),
      "yubikey", When(YubiKeyWritten(i), Dict(SaveYubiKey(i.yubikey)))),
      "web_url", When(i.webUrl != "", Str(i.webUrl)))
  }

  function SaveRpc(r: Rpc): Section {
    map["enabled" := Bool(r.enabled), "relay_mode" := Bool(r.relayMode),
        "allow_command_execution" := Bool(r.allowCommandExecution)]
  }

  function SaveDiscovery(d: Discovery): Section {
    var m := map["enabled" := Bool(d.enabled), "auto_announce" := Bool(d.autoAnnounce),
                 "access_mode" := Str(AccessValue(d.accessMode)),
                 "allowed_peers" := List(Strs(Sorted(d.allowedPeers))), "info_respond" := Bool(d.infoRespond)];
    With(m, "operator_label", When(d.operatorLabel != "", Str(d.operatorLabel)))
  }

  function SaveNotifications(n: Notifications): Section {
    With(With(map["enabled" := Bool(n.enabled)],
      "quiet_hours_start", IntOf(n.quietStart)),
      "quiet_hours_end", IntOf(n.quietEnd))
  }

  function SaveNode(l: Lxmf): Section {
    With(map["enabled" := Bool(l.nodeEnabled)], "name", When(l.nodeName != Null, l.nodeName))
  }

  function SaveLxmf(l: Lxmf): Section {
    var m := map["propagation_node" := Dict(SaveNode(l)), "propagation_limit" := Int(l.limits.propagation),
                 "sync_limit" := Int(l.limits.sync), "delivery_limit" := Int(l.limits.delivery),
                 "autopeer" := Bool(l.autopeer), "autopeer_maxdepth" := Int(l.autopeerMaxdepth),
                 "max_peers" := Int(l.maxPeers), "from_static_only" := Bool(l.fromStaticOnly),
                 "propagation_cost" := Int(l.costs.propagation),
                 "propagation_cost_flexibility" := Int(l.costs.flexibility),
                 "peering_cost" := Int(l.costs.peering), "max_peering_cost" := Int(l.costs.maxPeering)];
    With(With(m,
      "propagation_destination", StrOf(l.destination)),
      "static_peers", When(l.staticPeers != [], List(Strs(l.staticPeers))))
  }

  function SaveCore(c: CoreConfig): Section {
    map["profile" := Str(ProfileValue(c.profile)), "reticulum" := Dict(SaveReticulum(c.reticulum)),
        "identity" := Dict(SaveIdentity(c.identity)), "rpc" := Dict(SaveRpc(c.rpc)),
        "discovery" := Dict(SaveDiscovery(c.discovery)), "notifications" := Dict(SaveNotifications(c.notifications)),
        "lxmf" := Dict(SaveLxmf(c.lxmf)),
        "security" := Dict(map["strict_binary_verification" := Bool(c.strictBinaryVerification)]),
        "logging" := Dict(map["boundary_sink" := Bool(c.boundarySink)]),
        "rbac" := Dict(RbacConfig.Save(c.rbac))]
  }

  /** `to_dict`, all sections. */
  function Save(c: CoreConfig): Section {
    SaveCore(c) + Svc.Save(c.services)
  }
}
