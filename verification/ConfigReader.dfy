/** The loader of src/styrened/services/config.py as it runs: over the
    profile's defaults, section by section. */
module ConfigReader {
  import opened Prelude
  import opened Sections
  import opened Strings
  import opened Values
  import opened CoreConfig
  import opened ConfigLoad
  import RbacConfig

  method ReadInterfaces(host: Host, ifaces: Section, base: Interfaces) returns (r: Result<Interfaces, Fault>)
    ensures r == LoadInterfaces(host, ifaces, base)
  {
    hide LoadPeers, WithHubs;
    var config := base;
    config := config.(auto := BoolAt(ifaces, "auto", config.auto));
    if "server" in ifaces && ifaces["server"].Dict? {
      var srv := ifaces["server"].m;
      var port :- ParseInt(host, Get(srv, "port", Int(4242)));
      config := config.(server := Server(ParseBool(Get(srv, "enabled", Bool(false))),
                                         Text(host, Get(srv, "listen_ip", Str("0.0.0.0"))), port));
    }
    if "peers" in ifaces && ifaces["peers"].List? {
      var peers :- ReadPeers(host, ifaces["peers"].xs);
      config := config.(peers := peers);
    }
    var merged := MergeHubs(config.peers);
    return Ok(config.(peers := merged));
  }

  method ReadOverride(host: Host, ret: Section) returns (r: Result<Option<string>, Fault>)
    ensures r == OverrideAt(host, ret)
  {
    if "config_path_override" !in ret || !ret["config_path_override"].Str? {
      return Ok(None);
    }
    var s := ret["config_path_override"].s;
    if Strip(s) == "" || Lower(Strip(s)) == "null" {
      return Ok(None);
    }
    var path :- ExpandUser(host, s);
    return Ok(Some(path));
  }

  method ReadPath(host: Host, m: Section, key: string) returns (r: Result<Option<string>, Fault>)
    ensures r == PathAt(host, m, key)
  {
    if key in m && Truthy(m[key]) {
      var path :- ExpandUser(host, Text(host, m[key]));
      return Ok(Some(path));
    }
    return Ok(None);
  }

  method ReadInterfacesAt(host: Host, ret: Section, base: Interfaces) returns (r: Result<Interfaces, Fault>)
    ensures r == InterfacesAt(host, ret, base)
  {
    hide LoadInterfaces;
    r := Ok(base);
    if "interfaces" in ret && ret["interfaces"].Dict? {
      r := ReadInterfaces(host, ret["interfaces"].m, base);
    }
  }

  /** The defaults it starts from hold no paths. */
  method ReadReticulum(host: Host, ret: Section, base: Reticulum) returns (r: Result<Reticulum, Fault>)
    requires base.operatorIdentityPath.None? && base.configPathOverride.None?
    ensures r == LoadReticulum(host, ret, base)
  {
    hide InterfacesAt, OverrideAt, PathAt, BoolAt, IntAt, ParseBool, Text, Truthy, ModeOf;
    var mode, enableTransport, hubAddress := base.mode, base.enableTransport, base.hubAddress;
    if "mode" in ret && ModeOf(ret["mode"]).Some? {
      mode := ModeOf(ret["mode"]).value;
    }
    var announceInterval :- IntAt(host, ret, "announce_interval", base.announceInterval);
    if "enable_transport" in ret {
      enableTransport := Some(ParseBool(ret["enable_transport"]));
    }
    if "hub_address" in ret && Truthy(ret["hub_address"]) && |Text(host, ret["hub_address"])| == 32 {
      hubAddress := Some(Text(host, ret["hub_address"]));
    }
    var hubAnnounceInterval :- IntAt(host, ret, "hub_announce_interval", base.hubAnnounceInterval);
    var path :- ReadPath(host, ret, "operator_identity_path");
    var override :- ReadOverride(host, ret);
    var interfaces :- ReadInterfacesAt(host, ret, base.interfaces);
    return Ok(Reticulum(mode, BoolAt(ret, "auto_initialize", base.autoInitialize), announceInterval,
                        BoolAt(ret, "hub_enabled", base.hubEnabled), hubAnnounceInterval, enableTransport,
                        override, path, hubAddress, interfaces));
  }

  method ReadIdentity(host: Host, ident: Section, base: Identity) returns (config: Identity)
    ensures config == LoadIdentity(host, ident, base)
  {
    hide Text, Truthy, Lower, ValidShortName, LoadYubiKey;
    config := base;
    if "display_name" in ident && Truthy(ident["display_name"]) {
      config := config.(displayName := Text(host, ident["display_name"]));
    }
    if "icon" in ident && Truthy(ident["icon"]) {
      config := config.(icon := Text(host, ident["icon"]));
    }
    if "provider" in ident && Truthy(ident["provider"]) {
      var provider := Lower(Text(host, ident["provider"]));
      if provider in ["file", "yubikey"] {
        config := config.(provider := provider);
      }
    }
    if "short_name" in ident && Truthy(ident["short_name"]) {
      var candidate := Text(host, ident["short_name"]);
      if ValidShortName(candidate) {
        config := config.(shortName := Some(candidate));
      }
    }
    if "yubikey" in ident && ident["yubikey"].Dict? {
      config := config.(yubikey := LoadYubiKey(host, ident["yubikey"].m));
    }
    if "web_url" in ident && Truthy(ident["web_url"]) {
      config := config.(webUrl := Text(host, ident["web_url"]));
    }
  }

  method ReadDiscovery(host: Host, disc: Section, base: Discovery) returns (config: Discovery)
    ensures config == LoadDiscovery(host, disc, base)
  {
    hide Text, BoolAt, Truthy, Lower, Strip, AccessOf;
    var accessMode, allowedPeers, operatorLabel := base.accessMode, base.allowedPeers, base.operatorLabel;
    if "access_mode" in disc {
      var mode := AccessOf(Lower(Text(host, disc["access_mode"])));
      if mode.Some? {
        accessMode := mode.value;
      }
    }
    if "allowed_peers" in disc && disc["allowed_peers"].List? {
      var items := disc["allowed_peers"].xs;
      allowedPeers := set x | x in items && Truthy(x) :: Lower(Text(host, x));
    }
    if "operator_label" in disc {
      operatorLabel := Strip(Text(host, disc["operator_label"]));
    }
    config := Discovery(BoolAt(disc, "enabled", base.enabled), BoolAt(disc, "auto_announce", base.autoAnnounce),
                        accessMode, allowedPeers, BoolAt(disc, "info_respond", base.infoRespond), operatorLabel);
  }

  method ReadHour(host: Host, notif: Section, key: string) returns (r: Result<Option<int>, Fault>)
    ensures r == HourAt(host, notif, key)
  {
    if key in notif && notif[key] != Null {
      var val :- ParseInt(host, notif[key]);
      if 0 <= val <= 23 {
        return Ok(Some(val));
      }
    }
    return Ok(None);
  }

  method ReadNotifications(host: Host, notif: Section) returns (r: Result<Notifications, Fault>)
    ensures r == LoadNotifications(host, notif)
  {
    var config := Notifications(true, None, None);
    config := config.(enabled := BoolAt(notif, "enabled", config.enabled));
    var start :- ReadHour(host, notif, "quiet_hours_start");
    var end :- ReadHour(host, notif, "quiet_hours_end");
    return Ok(config.(quietStart := start, quietEnd := end));
  }

  method ReadLimits(host: Host, lxmf: Section, base: Limits) returns (r: Result<Limits, Fault>)
    ensures r == LoadLimits(host, lxmf, base)
  {
    var limits := base;
    var propagation :- IntAt(host, lxmf, "propagation_limit", limits.propagation);
    limits := limits.(propagation := propagation);
    var sync :- IntAt(host, lxmf, "sync_limit", limits.sync);
    limits := limits.(sync := sync);
    var delivery :- IntAt(host, lxmf, "delivery_limit", limits.delivery);
    limits := limits.(delivery := delivery);
    return Ok(limits);
  }

  method ReadCosts(host: Host, lxmf: Section, base: Costs) returns (r: Result<Costs, Fault>)
    ensures r == LoadCosts(host, lxmf, base)
  {
    hide ParseInt;
    var costs := base;
    var propagation :- IntAt(host, lxmf, "propagation_cost", costs.propagation);
    costs := costs.(propagation := propagation);
    var flexibility :- IntAt(host, lxmf, "propagation_cost_flexibility", costs.flexibility);
    costs := costs.(flexibility := flexibility);
    var peering :- IntAt(host, lxmf, "peering_cost", costs.peering);
    costs := costs.(peering := peering);
    var maxPeering :- IntAt(host, lxmf, "max_peering_cost", costs.maxPeering);
    costs := costs.(maxPeering := maxPeering);
    return Ok(costs);
  }

  method ReadDestination(lxmf: Section, base: Option<string>) returns (destination: Option<string>)
    ensures destination == DestinationAt(lxmf, base)
  {
    destination := base;
    if "propagation_destination" in lxmf {
      var dest := lxmf["propagation_destination"];
      if dest.Str? && |dest.s| == 32 {
        destination := Some(dest.s);
      }
    }
  }

  method ReadLxmf(host: Host, lxmf: Section, base: Lxmf) returns (r: Result<Lxmf, Fault>)
    ensures r == LoadLxmf(host, lxmf, base)
  {
    hide LoadLimits, LoadCosts, IntAt, BoolAt, ParseBool, StaticPeersOf, DestinationAt, Get;
    var nodeEnabled, nodeName, staticPeers := base.nodeEnabled, base.nodeName, base.staticPeers;
    if "propagation_node" in lxmf && lxmf["propagation_node"].Dict? {
      var pn := lxmf["propagation_node"].m;
      nodeEnabled, nodeName := ParseBool(Get(pn, "enabled", Bool(false))), Get(pn, "name", Null);
    }
    var destination := ReadDestination(lxmf, base.destination);
    var limits :- ReadLimits(host, lxmf, base.limits);
    var autopeerMaxdepth :- IntAt(host, lxmf, "autopeer_maxdepth", base.autopeerMaxdepth);
    var maxPeers :- IntAt(host, lxmf, "max_peers", base.maxPeers);
    if "static_peers" in lxmf && lxmf["static_peers"].List? {
      staticPeers := ReadStaticPeers(lxmf["static_peers"].xs);
    }
    var costs :- ReadCosts(host, lxmf, base.costs);
    return Ok(Lxmf(nodeEnabled, nodeName, destination, limits, BoolAt(lxmf, "autopeer", base.autopeer),
                   autopeerMaxdepth, maxPeers, staticPeers, BoolAt(lxmf, "from_static_only", base.fromStaticOnly),
                   costs));
  }

  /** `load_core_config` once the file is decoded; the first failure ends it. */
  method LoadCoreConfig(host: Host, file: Tree) returns (r: Result<CoreConfig, Fault>)
    ensures r == Load(host, file)
  {
    if !file.Dict? {
      return Ok(ProfileDefaults(host, OperatorProfile));
    }
    var data := file.m;
    if PoisonKeys(data) != [] {
      return Err(PoisonPill(PoisonKeys(data)));
    }
    hide PoisonKeys, ProfileAt, WELL_KNOWN_HUBS, LoadSections, DefaultLxmf;
    r := ReadSections(host, data, ProfileDefaults(host, ProfileAt(data)));
  }

  // Each section is read when it is there and a mapping.

  method ReadReticulumAt(host: Host, data: Section, base: Reticulum) returns (r: Result<Reticulum, Fault>)
    requires base.operatorIdentityPath.None? && base.configPathOverride.None?
    ensures r == ReticulumAt(host, data, base)
  {
    hide LoadReticulum;
    r := Ok(base);
    if "reticulum" in data && data["reticulum"].Dict? {
      r := ReadReticulum(host, data["reticulum"].m, base);
    }
  }

  method ReadDiscoveryAt(host: Host, data: Section, base: Discovery) returns (config: Discovery)
    ensures config == DiscoveryAt(host, data, base)
  {
    hide LoadDiscovery;
    config := base;
    if "discovery" in data && data["discovery"].Dict? {
      config := ReadDiscovery(host, data["discovery"].m, base);
    }
  }

  method ReadIdentityAt(host: Host, data: Section, base: Identity) returns (config: Identity)
    ensures config == IdentityAt(host, data, base)
  {
    hide LoadIdentity;
    config := base;
    if "identity" in data && data["identity"].Dict? {
      config := ReadIdentity(host, data["identity"].m, base);
    }
  }

  method ReadNotificationsAt(host: Host, data: Section, base: Notifications) returns (r: Result<Notifications, Fault>)
    ensures r == NotificationsAt(host, data, base)
  {
    hide LoadNotifications;
    r := Ok(base);
    if "notifications" in data && data["notifications"].Dict? {
      r := ReadNotifications(host, data["notifications"].m);
    }
  }

  method ReadLxmfAt(host: Host, data: Section, base: Lxmf) returns (r: Result<Lxmf, Fault>)
    ensures r == LxmfAt(host, data, base)
  {
    hide LoadLxmf;
    r := Ok(base);
    if "lxmf" in data && data["lxmf"].Dict? {
      r := ReadLxmf(host, data["lxmf"].m, base);
    }
  }

  method ReadSections(host: Host, data: Section, base: CoreConfig) returns (r: Result<CoreConfig, Fault>)
    requires base.reticulum.operatorIdentityPath.None? && base.reticulum.configPathOverride.None?
    ensures r == LoadSections(host, data, base)
  {
    hide ReticulumAt, RpcAt, DiscoveryAt, IdentityAt, NotificationsAt, LxmfAt, ChatAt, ApiAt, LaterServices,
         RbacConfig.ParseRbacResult;
    var config := base;
    var reticulum :- ReadReticulumAt(host, data, config.reticulum);
    config := config.(reticulum := reticulum, rpc := RpcAt(data, config.rpc));
    var discovery := ReadDiscoveryAt(host, data, config.discovery);
    config := config.(discovery := discovery);
    var chat :- ChatAt(host, data, config.services.chat);
    config := config.(services := config.services.(chat := chat));
    var api :- ApiAt(host, data, config.services.api);
    config := config.(services := config.services.(api := api));
    var identity := ReadIdentityAt(host, data, config.identity);
    config := config.(identity := identity);
    var notifications :- ReadNotificationsAt(host, data, config.notifications);
    config := config.(notifications := notifications);
    var lxmf :- ReadLxmfAt(host, data, config.lxmf);
    config := config.(lxmf := lxmf);
    var services :- LaterServices(host, data, config.services);
    config := config.(services := services);
    var rbac :- RbacConfig.ParseRbac(host, data);
    return Ok(config.(rbac := rbac));
  }
}
