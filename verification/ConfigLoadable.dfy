/** Which configuration files load, and which end in an exception, written out
    apart from the loader. */
module ConfigLoadable {
  import opened Prelude
  import opened Sections
  import opened Strings
  import opened Values
  import opened CoreConfig
  import opened ConfigLoad
  import opened ConfigMeaning
  import RbacConfig
  import Svc = ServiceConfig

  predicate IsNumber(host: Host, t: Tree) {
    t.Int? || t.Real? || t.Bool? || (t.Str? && host.intOf(t.s).Some?)
  }

  predicate IsReal(host: Host, t: Tree) {
    t.Int? || t.Real? || t.Bool? || (t.Str? && host.realOf(t.s).Some?)
  }

  predicate CanIterate(t: Tree) {
    t.List? || t.Str? || t.Dict?
  }

  /** A key that is read as a number holds one, if it is there. */
  predicate Fits(host: Host, m: Section, key: string) {
    key in m ==> IsNumber(host, m[key])
  }

  predicate PathFits(host: Host, m: Section, key: string) {
    Given(m, key) ==> ExpandUser(host, Text(host, m[key])).Ok?
  }

  lemma FitsIff(host: Host, m: Section)
    ensures forall key, d {:trigger IntAt(host, m, key, d)} :: IntAt(host, m, key, d).Ok? <==> Fits(host, m, key)
    ensures forall key, d {:trigger Get(m, key, Int(d))} ::
              ParseInt(host, Get(m, key, Int(d))).Ok? <==> Fits(host, m, key)
    ensures forall key {:trigger PathAt(host, m, key)} :: PathAt(host, m, key).Ok? <==> PathFits(host, m, key)
  {
    hide ExpandUser, Text, FALSE_VALUES, Truthy;
    forall t {
      TruthyIff(t);
    }
  }

  predicate ReticulumLoads(host: Host, m: Section) {
    && Fits(host, m, "announce_interval") && Fits(host, m, "hub_announce_interval")
    && PathFits(host, m, "operator_identity_path")
    && ("config_path_override" in m && m["config_path_override"].Str?
        && Strip(m["config_path_override"].s) != "" && Lower(Strip(m["config_path_override"].s)) != "null" ==>
          ExpandUser(host, m["config_path_override"].s).Ok?)
    && InterfacesLoad(host, Part(m, "interfaces"))
  }

  predicate InterfacesLoad(host: Host, m: Section) {
    && Fits(host, Part(m, "server"), "port")
    && ("peers" in m && m["peers"].List? ==>
          forall x :: x in m["peers"].xs && x.Dict? && "host" in x.m ==> Fits(host, x.m, "port"))
  }

  predicate LxmfLoads(host: Host, m: Section) {
    && Fits(host, m, "propagation_limit") && Fits(host, m, "sync_limit") && Fits(host, m, "delivery_limit")
    && Fits(host, m, "autopeer_maxdepth") && Fits(host, m, "max_peers")
    && Fits(host, m, "propagation_cost") && Fits(host, m, "propagation_cost_flexibility")
    && Fits(host, m, "peering_cost") && Fits(host, m, "max_peering_cost")
  }

  predicate NotificationsLoad(host: Host, m: Section) {
    && ("quiet_hours_start" in m && m["quiet_hours_start"] != Null ==> IsNumber(host, m["quiet_hours_start"]))
    && ("quiet_hours_end" in m && m["quiet_hours_end"] != Null ==> IsNumber(host, m["quiet_hours_end"]))
  }

  predicate ChatLoads(host: Host, m: Section) {
    var b := Part(m, "chatbot");
    && Fits(host, m, "auto_reply_cooldown") && Fits(host, b, "max_tokens") && Fits(host, b, "max_context_messages")
    && ("temperature" in b ==> IsReal(host, b["temperature"]))
  }

  predicate TerminalLoads(host: Host, m: Section) {
    && Fits(host, m, "session_idle_timeout") && Fits(host, m, "max_sessions_per_identity")
    && Fits(host, m, "max_total_sessions") && Fits(host, m, "rate_limit_requests")
  }

  predicate RelayLoads(host: Host, m: Section) {
    && Fits(host, m, "max_sessions") && Fits(host, m, "max_per_identity")
    && Fits(host, m, "max_bytes_per_session") && Fits(host, m, "idle_timeout")
    && ("allowed_identities" in m ==> CanIterate(m["allowed_identities"]))
  }

  predicate I2pLoads(host: Host, m: Section) {
    && Fits(host, m, "http_proxy_port") && Fits(host, m, "managed_http_proxy_port")
    && Fits(host, m, "managed_i2pcontrol_port") && Fits(host, m, "cache_ttl")
    && ("fetch_timeout" in m ==> IsReal(host, m["fetch_timeout"]))
  }

  lemma InterfacesLoadIff(host: Host, m: Section, base: Interfaces)
    ensures InterfacesAt(host, m, base).Ok? <==> InterfacesLoad(host, Part(m, "interfaces"))
  {
    hide BoolAt, ParseBool, ParseInt, LoadPeers, WithHubs, Text, Get, Fits;
    var i := Part(m, "interfaces");
    NothingMisfits(host, "port");
    FitsIff(host, Part(i, "server"));
    if "peers" in i && i["peers"].List? {
      PeersLoadIff(host, i["peers"].xs);
    }
  }

  lemma NothingMisfits(host: Host, key: string)
    ensures Fits(host, map[], key)
  {
  }

  lemma {:induction false} PeersLoadIff(host: Host, xs: seq<Tree>)
    ensures LoadPeers(host, xs).Ok? <==>
              forall x :: x in xs && x.Dict? && "host" in x.m ==> Fits(host, x.m, "port")
    decreases |xs|
  {
    if xs != [] {
      var init, last := xs[..|xs| - 1], xs[|xs| - 1];
      assert xs == init + [last];
      PeersLoadIff(host, init);
      if last.Dict? {
        FitsIff(host, last.m);
      }
      hide ParseInt, Get, Fits, ParseBool, Text;
    }
  }

  lemma OverrideLoadsIff(host: Host, m: Section)
    ensures OverrideAt(host, m).Ok? <==>
              ("config_path_override" in m && m["config_path_override"].Str?
               && Strip(m["config_path_override"].s) != "" && Lower(Strip(m["config_path_override"].s)) != "null" ==>
                 ExpandUser(host, m["config_path_override"].s).Ok?)
  {
    hide ExpandUser, Strip, Lower;
  }

  lemma ReticulumLoadsIff(host: Host, m: Section, base: Reticulum)
    ensures LoadReticulum(host, m, base).Ok? <==> ReticulumLoads(host, m)
  {
    hide BoolAt, ParseBool, IntAt, PathAt, PathFits, InterfacesAt, InterfacesLoad, Text, TextAt, Fits, OverrideAt;
    hide Strip, Lower, ExpandUser, ModeOf;
    InterfacesLoadIff(host, m, base.interfaces);
    OverrideLoadsIff(host, m);
    FitsIff(host, m);
  }

  lemma LxmfLoadsIff(host: Host, m: Section, base: Lxmf)
    ensures LoadLxmf(host, m, base).Ok? <==> LxmfLoads(host, m)
  {
    hide BoolAt, ParseBool, IntAt, Fits, Get, StaticPeersOf, DestinationAt, SectionAt;
    FitsIff(host, m);
  }

  lemma NotificationsLoadIff(host: Host, m: Section)
    ensures LoadNotifications(host, m).Ok? <==> NotificationsLoad(host, m)
  {
    hide BoolAt, HourAt, IsNumber;
    HoursFit(host, m, "quiet_hours_start");
    HoursFit(host, m, "quiet_hours_end");
  }

  lemma HoursFit(host: Host, m: Section, key: string)
    ensures HourAt(host, m, key).Ok? <==> (key in m && m[key] != Null ==> IsNumber(host, m[key]))
  {
  }

  lemma TextItems(host: Host, t: Tree)
    ensures Elements(host, t).Ok? <==> CanIterate(t)
    ensures ParseReal(host, t).Ok? <==> IsReal(host, t)
  {
  }

  lemma ChatbotLoadsIff(host: Host, m: Section, base: Svc.Chatbot)
    ensures Svc.LoadChatbot(host, m, base).Ok? <==>
              && Fits(host, m, "max_tokens") && Fits(host, m, "max_context_messages")
              && ("temperature" in m ==> IsReal(host, m["temperature"]))
  {
    hide ParseInt, ParseReal, Text, Fits, IsReal;
    FitsIff(host, m);
    if "temperature" in m {
      TextItems(host, m["temperature"]);
    }
    SevenTenths(host);
  }

  lemma ChatLoadsIff(host: Host, m: Section, base: Svc.Chat)
    ensures Svc.LoadChat(host, m, base).Ok? <==> ChatLoads(host, m)
  {
    hide BoolAt, IntAt, Text, Fits, IsReal, Svc.LoadChatbot, Svc.ReplyOf;
    FitsIff(host, m);
    ChatbotLoadsIff(host, Part(m, "chatbot"), base.chatbot);
    NothingMisfits(host, "max_tokens");
    NothingMisfits(host, "max_context_messages");
  }

  lemma ApiLoadsIff(host: Host, m: Section, base: Svc.Api)
    ensures Svc.LoadApi(host, m, base).Ok? <==> Fits(host, m, "port") && Fits(host, Part(m, "auth"), "session_ttl")
  {
    hide BoolAt, ParseBool, IntAt, ParseInt, Text, Fits, Get;
    FitsIff(host, m);
    FitsIff(host, Part(m, "auth"));
    NothingMisfits(host, "session_ttl");
  }

  lemma IpcLoadsIff(host: Host, m: Section, base: Svc.Ipc)
    ensures Svc.LoadIpc(host, m, base).Ok? <==> PathFits(host, m, "socket_path") && Fits(host, m, "socket_mode")
  {
    hide BoolAt, IntAt, PathAt, PathFits, Fits;
    FitsIff(host, m);
  }

  lemma TerminalLoadsIff(host: Host, m: Section, base: Svc.Terminal)
    ensures Svc.LoadTerminal(host, m, base).Ok? <==> TerminalLoads(host, m)
  {
    hide BoolAt, IntAt, TextAt, Fits, Svc.ShellsOf;
    FitsIff(host, m);
  }

  lemma PageServerLoadsIff(host: Host, m: Section, base: Svc.PageServer)
    ensures Svc.LoadPageServer(host, m, base).Ok? <==> PathFits(host, m, "pages_dir")
  {
    hide BoolAt, PathAt, PathFits, TextAt;
    FitsIff(host, m);
  }

  lemma LinksLoadIff(host: Host, m: Section)
    ensures Svc.LoadMeshVpn(host, m).Ok? <==> Fits(host, m, "listen_port")
    ensures Svc.LoadYggdrasil(host, m).Ok? <==> Fits(host, m, "listen_port")
  {
    hide ParseBool, ParseInt, Text, Fits, Svc.Texts, Svc.DaemonOf, Get;
    FitsIff(host, m);
  }

  lemma RelayLoadsIff(host: Host, m: Section)
    ensures Svc.LoadRelay(host, m).Ok? <==> RelayLoads(host, m)
  {
    hide ParseBool, ParseInt, Fits, CanIterate;
    FitsIff(host, m);
    if "allowed_identities" in m {
      TextItems(host, m["allowed_identities"]);
    }
  }

  lemma I2pLoadsIff(host: Host, m: Section)
    ensures Svc.LoadI2p(host, m).Ok? <==> I2pLoads(host, m)
  {
    hide ParseInt, ParseReal, Text, Fits, IsReal, Svc.DaemonOf;
    FitsIff(host, m);
    if "fetch_timeout" in m {
      TextItems(host, m["fetch_timeout"]);
    }
    SevenTenths(host);
  }

  /** An item of the roster is a mapping, and unless it is skipped its grants can
      be iterated. */
  predicate ItemLoads(host: Host, t: Tree) {
    t.Dict? && ("grants" in t.m && !CanIterate(t.m["grants"]) ==> RbacConfig.ParseEntry(host, t) == Ok(None))
  }

  predicate RbacLoads(host: Host, m: Section) {
    && ("roster" in m ==> CanIterate(m["roster"])
                          && forall x :: x in Elements(host, m["roster"]).value ==> ItemLoads(host, x))
    && ("blocked" in m ==> CanIterate(m["blocked"]))
  }

  lemma ItemLoadsIff(host: Host, t: Tree)
    ensures RbacConfig.ParseEntry(host, t).Ok? <==> ItemLoads(host, t)
  {
    hide Canon, Upper, RbacConfig.RoleOf, RbacConfig.GrantsOf, Text;
  }

  lemma {:induction false} RosterLoadsIff(host: Host, xs: seq<Tree>)
    ensures RbacConfig.RosterOf(host, xs).Ok? <==> forall x :: x in xs ==> ItemLoads(host, x)
    decreases |xs|
  {
    hide ItemLoads, RbacConfig.ParseEntry;
    if xs != [] {
      var init, last := xs[..|xs| - 1], xs[|xs| - 1];
      assert xs == init + [last];
      RosterLoadsIff(host, init);
      ItemLoadsIff(host, last);
    }
  }

  lemma RbacLoadsIff(host: Host, m: Section)
    ensures RbacConfig.ParseSection(host, m).Ok? <==> RbacLoads(host, m)
  {
    hide ItemLoads, RbacConfig.RosterOf, RbacConfig.BlockedOf, RbacConfig.DefaultRoleOf;
    var none: seq<Tree> := [];
    RosterLoadsIff(host, none);
    if "roster" in m && CanIterate(m["roster"]) {
      RosterLoadsIff(host, Elements(host, m["roster"]).value);
    }
  }

  /** Which files load: those without a legacy bridge section in which every
      number is one, every path has a home, every list can be iterated and the
      policy is a mapping of such. A section that is no mapping is not looked
      at. */
  predicate IsLoadable(host: Host, data: Section) {
    && "meshtastic" !in data && "mqtt" !in data
    && ReticulumLoads(host, Part(data, "reticulum")) && LxmfLoads(host, Part(data, "lxmf"))
    && NotificationsLoad(host, Part(data, "notifications"))
    && ChatLoads(host, Part(data, "chat"))
    && Fits(host, Part(data, "api"), "port") && Fits(host, Part(Part(data, "api"), "auth"), "session_ttl")
    && LocalLoads(host, data) && MeshLoads(host, data)
    && ("rbac" in data ==> data["rbac"].Dict? && RbacLoads(host, data["rbac"].m))
  }

  // The later services load one by one.

  predicate IpcOk(host: Host, data: Section, s: Svc.Services) {
    match SectionAt(data, "ipc") case None => true case Some(m) => Svc.LoadIpc(host, m, s.ipc).Ok?
  }

  predicate TerminalOk(host: Host, data: Section, s: Svc.Services) {
    match SectionAt(data, "terminal") case None => true case Some(m) => Svc.LoadTerminal(host, m, s.terminal).Ok?
  }

  predicate PageServerOk(host: Host, data: Section, s: Svc.Services) {
    match SectionAt(data, "page_server") case None => true case Some(m) => Svc.LoadPageServer(host, m, s.pageServer).Ok?
  }

  predicate MeshOk(host: Host, data: Section) {
    && (match SectionAt(data, "mesh_vpn") case None => true case Some(m) => Svc.LoadMeshVpn(host, m).Ok?)
    && (match SectionAt(data, "relay") case None => true case Some(m) => Svc.LoadRelay(host, m).Ok?)
    && (match SectionAt(data, "yggdrasil") case None => true case Some(m) => Svc.LoadYggdrasil(host, m).Ok?)
    && (match SectionAt(data, "i2p") case None => true case Some(m) => Svc.LoadI2p(host, m).Ok?)
  }

  lemma LaterSteps(host: Host, data: Section, s: Svc.Services)
    ensures LaterServices(host, data, s).Ok? <==>
              IpcOk(host, data, s) && TerminalOk(host, data, s) && PageServerOk(host, data, s) && MeshOk(host, data)
  {
    hide SectionAt, Svc.LoadIpc, Svc.LoadTerminal, Svc.LoadPageServer, Svc.LoadMeshVpn, Svc.LoadRelay,
         Svc.LoadYggdrasil, Svc.LoadI2p, Svc.LoadPqc, Svc.LoadGroupThreads;
  }

  predicate LocalLoads(host: Host, data: Section) {
    && PathFits(host, Part(data, "ipc"), "socket_path") && Fits(host, Part(data, "ipc"), "socket_mode")
    && TerminalLoads(host, Part(data, "terminal")) && PathFits(host, Part(data, "page_server"), "pages_dir")
  }

  predicate MeshLoads(host: Host, data: Section) {
    && Fits(host, Part(data, "mesh_vpn"), "listen_port") && RelayLoads(host, Part(data, "relay"))
    && Fits(host, Part(data, "yggdrasil"), "listen_port") && I2pLoads(host, Part(data, "i2p"))
  }

  lemma IpcOkIff(host: Host, data: Section, s: Svc.Services)
    ensures IpcOk(host, data, s) <==>
              PathFits(host, Part(data, "ipc"), "socket_path") && Fits(host, Part(data, "ipc"), "socket_mode")
  {
    hide Svc.LoadIpc, Fits, PathFits;
    IpcLoadsIff(host, Part(data, "ipc"), s.ipc);
    NothingMisfits(host, "socket_mode");
    NoPathMisfits(host, "socket_path");
  }

  lemma NoPathMisfits(host: Host, key: string)
    ensures PathFits(host, map[], key)
  {
  }

  lemma TerminalOkIff(host: Host, data: Section, s: Svc.Services)
    ensures TerminalOk(host, data, s) <==> TerminalLoads(host, Part(data, "terminal"))
  {
    hide Svc.LoadTerminal, TerminalLoads;
    TerminalLoadsIff(host, Part(data, "terminal"), s.terminal);
    NothingStops(host);
  }

  lemma PageServerOkIff(host: Host, data: Section, s: Svc.Services)
    ensures PageServerOk(host, data, s) <==> PathFits(host, Part(data, "page_server"), "pages_dir")
  {
    hide Svc.LoadPageServer, PathFits;
    PageServerLoadsIff(host, Part(data, "page_server"), s.pageServer);
    NoPathMisfits(host, "pages_dir");
  }

  lemma MeshOkIff(host: Host, data: Section)
    ensures MeshOk(host, data) <==> MeshLoads(host, data)
  {
    hide Svc.LoadMeshVpn, Svc.LoadRelay, Svc.LoadYggdrasil, Svc.LoadI2p, Fits, RelayLoads, I2pLoads, ChatLoads,
         TerminalLoads, ReticulumLoads, LxmfLoads, NotificationsLoad, RbacLoads;
    LinksLoadIff(host, Part(data, "mesh_vpn"));
    LinksLoadIff(host, Part(data, "yggdrasil"));
    RelayLoadsIff(host, Part(data, "relay"));
    I2pLoadsIff(host, Part(data, "i2p"));
    NothingMisfits(host, "listen_port");
    NothingStops(host);
  }

  lemma LaterLoadIff(host: Host, data: Section, s: Svc.Services)
    ensures LaterServices(host, data, s).Ok? <==> LocalLoads(host, data) && MeshLoads(host, data)
  {
    hide LaterServices, IpcOk, TerminalOk, PageServerOk, MeshOk, MeshLoads, TerminalLoads, Fits, PathFits, Part;
    LaterSteps(host, data, s);
    IpcOkIff(host, data, s);
    TerminalOkIff(host, data, s);
    PageServerOkIff(host, data, s);
    MeshOkIff(host, data);
  }

  lemma NothingStops(host: Host)
    ensures ReticulumLoads(host, map[]) && LxmfLoads(host, map[]) && NotificationsLoad(host, map[])
    ensures ChatLoads(host, map[]) && TerminalLoads(host, map[]) && RelayLoads(host, map[]) && I2pLoads(host, map[])
    ensures RbacLoads(host, map[])
  {
  }

  predicate SectionsOk(host: Host, data: Section, base: CoreConfig) {
    && ReticulumAt(host, data, base.reticulum).Ok? && ChatAt(host, data, base.services.chat).Ok?
    && ApiAt(host, data, base.services.api).Ok? && NotificationsAt(host, data, base.notifications).Ok?
    && LxmfAt(host, data, base.lxmf).Ok? && LocalLoads(host, data) && MeshLoads(host, data)
    && RbacConfig.ParseRbacResult(host, data).Ok?
  }

  lemma SectionsLoad(host: Host, data: Section, base: CoreConfig)
    ensures LoadSections(host, data, base).Ok? <==> SectionsOk(host, data, base)
  {
    forall s {:trigger LaterServices(host, data, s)} {
      LaterLoadIff(host, data, s);
    }
    hide LaterServices, ReticulumAt, ChatAt, ApiAt, NotificationsAt, LxmfAt, LocalLoads, MeshLoads,
         RbacConfig.ParseRbacResult, IdentityAt, RpcAt, DiscoveryAt;
  }

  lemma PartsLoad(host: Host, data: Section, base: CoreConfig)
    ensures ReticulumAt(host, data, base.reticulum).Ok? <==> ReticulumLoads(host, Part(data, "reticulum"))
    ensures LxmfAt(host, data, base.lxmf).Ok? <==> LxmfLoads(host, Part(data, "lxmf"))
    ensures NotificationsAt(host, data, base.notifications).Ok? <==>
              NotificationsLoad(host, Part(data, "notifications"))
    ensures ChatAt(host, data, base.services.chat).Ok? <==> ChatLoads(host, Part(data, "chat"))
    ensures ApiAt(host, data, base.services.api).Ok? <==>
              Fits(host, Part(data, "api"), "port") && Fits(host, Part(Part(data, "api"), "auth"), "session_ttl")
  {
    hide ReticulumLoads, LxmfLoads, NotificationsLoad, ChatLoads, Fits, LoadReticulum, LoadLxmf, LoadNotifications,
         Svc.LoadChat, Svc.LoadApi, RbacLoads, TerminalLoads, RelayLoads, I2pLoads;
    ReticulumLoadsIff(host, Part(data, "reticulum"), base.reticulum);
    LxmfLoadsIff(host, Part(data, "lxmf"), base.lxmf);
    NotificationsLoadIff(host, Part(data, "notifications"));
    ChatLoadsIff(host, Part(data, "chat"), base.services.chat);
    ApiLoadsIff(host, Part(data, "api"), base.services.api);
    NothingStops(host);
    NothingMisfits(host, "port");
    NothingMisfits(host, "session_ttl");
  }

  lemma PolicyLoads(host: Host, data: Section)
    ensures RbacConfig.ParseRbacResult(host, data).Ok? <==>
              ("rbac" in data ==> data["rbac"].Dict? && RbacLoads(host, data["rbac"].m))
  {
    hide RbacLoads, RbacConfig.ParseSection;
    if "rbac" in data && data["rbac"].Dict? {
      RbacLoadsIff(host, data["rbac"].m);
    }
    RbacLoadsIff(host, map[]);
    NothingStops(host);
  }

  /** A file loads exactly when it is loadable. */
  lemma FileLoadsIff(host: Host, data: Section)
    ensures Load(host, Dict(data)).Ok? <==> IsLoadable(host, data)
  {
    hide ProfileDefaults, LoadSections, ReticulumAt, ChatAt, ApiAt, NotificationsAt, LxmfAt, LocalLoads, MeshLoads,
         RbacConfig.ParseRbacResult, ReticulumLoads, LxmfLoads, NotificationsLoad, ChatLoads, Fits, RbacLoads;
    var base := ProfileDefaults(host, ProfileAt(data));
    SectionsLoad(host, data, base);
    PartsLoad(host, data, base);
    PolicyLoads(host, data);
  }
}
