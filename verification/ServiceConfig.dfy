/** The service sections of the configuration: chat, api, ipc, terminal, page
    server, post-quantum sessions, mesh VPN, relay, yggdrasil, I2P and group
    threads; their records in src/styrened/models/config.py, their parsing in
    src/styrened/services/config.py, and what a save and load keeps. */
module ServiceConfig {
  import opened Prelude
  import opened Sections
  import opened Strings
  import opened Values

  datatype ReplyMode = NoReply | Template | WithChatbot
  datatype DaemonMode = Disabled | Adopt | Managed
  datatype PeerDiscovery = Eager | Lazy
  datatype FeatureTier = Minimal | Balanced | Full

  datatype Chatbot = Chatbot(endpoint: string, model: string, apiKey: string, systemPrompt: string, maxTokens: int,
                             temperature: real, maxContextMessages: int)
  datatype Chat = Chat(enabled: bool, mode: ReplyMode, message: string, cooldown: int, persist: bool, chatbot: Chatbot)
  datatype Api = Api(enabled: bool, host: string, port: int, publicMode: bool, metrics: bool, auth: Auth)
  datatype Auth = Auth(enabled: bool, exemptLocalhost: bool, sessionTtl: int)
  datatype Ipc = Ipc(enabled: bool, socketPath: Option<string>, socketMode: int)
  datatype Terminal = Terminal(enabled: bool, defaultShell: Option<string>, allowedShells: set<string>,
                               idleTimeout: int, maxPerIdentity: int, maxTotal: int, rateLimit: int)
  datatype PageServer = PageServer(enabled: bool, pagesDir: Option<string>, nodeName: Option<string>, demo: bool)
  datatype Pqc = Pqc(enabled: bool, rekeyHours: int, requireForRpc: bool, autoInitiate: bool)
  datatype MeshVpn = MeshVpn(enable: bool, listenPort: int, subnetPrefix: string, gateway: bool, endpoint: string,
                             peerDiscovery: string)
  datatype Relay = Relay(enabled: bool, maxSessions: int, maxPerIdentity: int, maxBytes: int, idleTimeout: int,
                         allowPermanent: bool, allowedIdentities: seq<Tree>)
  datatype Yggdrasil = Yggdrasil(mode: DaemonMode, binaryPath: string, listenPort: int, adminSocket: string,
                                 multicast: bool, bootstrapFromRns: bool, peerDiscovery: PeerDiscovery,
                                 initialPeers: seq<string>)
  datatype I2p = I2p(mode: DaemonMode, proxyHost: string, proxyPort: int, managedProxyPort: int,
                     managedControlPort: int, b32Address: string, cacheTtl: int, fetchTimeout: real)
  datatype GroupThreads = GroupThreads(enabled: bool, tier: FeatureTier, boundedRetention: bool, autoMediaFetch: bool,
                                       metadataFirstSync: bool, backgroundCatchup: bool, firstRunAutoTier: bool)

  datatype Services = Services(chat: Chat, api: Api, ipc: Ipc, terminal: Terminal, pageServer: PageServer, pqc: Pqc,
                               meshVpn: MeshVpn, relay: Relay, yggdrasil: Yggdrasil, i2p: I2p,
                               groupThreads: GroupThreads)

  // ------------------------------------------------------------------ defaults

  function DefaultChatbot(host: Host): Chatbot {
    Chatbot("http://localhost:11434/v1", "llama3", "", host.systemPrompt, 256, 0.7, 10)
  }

  /** The class defaults, with what the hub and the other profiles change. */
  function DefaultServices(host: Host, hub: bool, operator: bool): Services {
    Services(
      Chat(true, if operator then NoReply else Template, host.autoReply, if hub then 600 else 300, true,
           DefaultChatbot(host)),
      Api(hub, "0.0.0.0", 8000, hub, false, Auth(false, true, 86400)),
      Ipc(operator, None, 432),
      Terminal(!hub && !operator, None, {}, 3600, 3, 10, 10),
      PageServer(false, None, None, false),
      Pqc(true, 24, false, true),
      MeshVpn(false, 51820, "fd73:7479:7265:6e65", false, "", "lazy"),
      Relay(false, 16, 2, 52428800, 900, false, []),
      DEFAULT_YGGDRASIL,
      I2p(Disabled, "127.0.0.1", 4444, 4445, 7651, "", 3600, 45.0),
      GroupThreads(true, Balanced, false, true, false, true, true))
  }

  const DEFAULT_YGGDRASIL := Yggdrasil(Disabled, "yggdrasil", 9002, "", true, false, Lazy, [])

  // --------------------------------------------------------- enumeration values

  function ReplyValue(m: ReplyMode): string {
    match m case NoReply => "disabled" case Template => "template" case WithChatbot => "chatbot"
  }

  function ReplyOf(t: Tree): Option<ReplyMode> {
    if t == Str("disabled") then Some(NoReply)
    else if t == Str("template") then Some(Template)
    else if t == Str("chatbot") then Some(WithChatbot)
    else None
  }

  function DaemonValue(m: DaemonMode): string {
    match m case Disabled => "disabled" case Adopt => "adopt" case Managed => "managed"
  }

  function DaemonOf(t: Tree): DaemonMode {
    if t == Str("adopt") then Adopt else if t == Str("managed") then Managed else Disabled
  }

  function TierValue(t: FeatureTier): string {
    match t case Minimal => "minimal" case Balanced => "balanced" case Full => "full"
  }

  function TierOf(s: string): FeatureTier {
    if s == "minimal" then Minimal else if s == "full" then Full else Balanced
  }

  // ------------------------------------------------------------------- printing

  function SaveChatbot(b: Chatbot): Section {
    var m := map["endpoint" := Str(b.endpoint), "model" := Str(b.model), "system_prompt" := Str(b.systemPrompt),
                 "max_tokens" := Int(b.maxTokens), "temperature" := Real(b.temperature),
                 "max_context_messages" := Int(b.maxContextMessages)];
    With(m, "api_key", When(b.apiKey != "", Str(b.apiKey)))
  }

  function SaveChat(c: Chat): Section {
    map["enabled" := Bool(c.enabled), "auto_reply_mode" := Str(ReplyValue(c.mode)),
        "auto_reply_message" := Str(c.message), "auto_reply_cooldown" := Int(c.cooldown),
        "persist_messages" := Bool(c.persist), "chatbot" := Dict(SaveChatbot(c.chatbot))]
  }

  function SaveAuth(a: Auth): Section {
    map["enabled" := Bool(a.enabled), "exempt_localhost" := Bool(a.exemptLocalhost), "session_ttl" := Int(a.sessionTtl)]
  }

  function SaveApi(a: Api): Section {
    map["enabled" := Bool(a.enabled), "host" := Str(a.host), "port" := Int(a.port), "public_mode" := Bool(a.publicMode),
        "metrics" := Dict(map["enabled" := Bool(a.metrics)]), "auth" := Dict(SaveAuth(a.auth))]
  }

  function SaveIpc(i: Ipc): Section {
    With(map["enabled" := Bool(i.enabled), "socket_mode" := Int(i.socketMode)], "socket_path", StrOf(i.socketPath))
  }

  function SaveTerminal(t: Terminal): Section {
    var m := map["enabled" := Bool(t.enabled), "session_idle_timeout" := Int(t.idleTimeout),
                 "max_sessions_per_identity" := Int(t.maxPerIdentity), "max_total_sessions" := Int(t.maxTotal),
                 "rate_limit_requests" := Int(t.rateLimit)];
    With(With(m,
      "default_shell", StrOf(t.defaultShell)),
      "allowed_shells", When(t.allowedShells != {}, List(Strs(Sorted(t.allowedShells)))))
  }

  function SavePageServer(p: PageServer): Section {
    With(With(With(map["enabled" := Bool(p.enabled)],
      "pages_dir", StrOf(p.pagesDir)),
      "node_name", StrOf(p.nodeName)),
      "demo", When(p.demo, Bool(true)))
  }

  function SavePqc(p: Pqc): Section {
    map["enabled" := Bool(p.enabled), "rekey_interval_hours" := Int(p.rekeyHours),
        "require_pqc_for_rpc" := Bool(p.requireForRpc), "auto_initiate" := Bool(p.autoInitiate)]
  }

  /** `peer_discovery` is not written. */
  function SaveMeshVpn(v: MeshVpn): Section {
    map["enable" := Bool(v.enable), "listen_port" := Int(v.listenPort), "subnet_prefix" := Str(v.subnetPrefix),
        "gateway" := Bool(v.gateway), "endpoint" := Str(v.endpoint)]
  }

  function SaveRelay(r: Relay): Section {
    map["enabled" := Bool(r.enabled), "max_sessions" := Int(r.maxSessions), "max_per_identity" := Int(r.maxPerIdentity),
        "max_bytes_per_session" := Int(r.maxBytes), "idle_timeout" := Int(r.idleTimeout),
        "allow_permanent" := Bool(r.allowPermanent), "allowed_identities" := List(r.allowedIdentities)]
  }

  function SaveYggdrasil(y: Yggdrasil): Section {
    map["mode" := Str(DaemonValue(y.mode)), "binary_path" := Str(y.binaryPath), "listen_port" := Int(y.listenPort),
        "admin_socket" := Str(y.adminSocket), "multicast" := Bool(y.multicast),
        "bootstrap_from_rns" := Bool(y.bootstrapFromRns),
        "peer_discovery" := Str(if y.peerDiscovery.Lazy? then "lazy" else "eager"),
        "initial_peers" := List(Strs(y.initialPeers))]
  }

  function SaveI2p(i: I2p): Section {
    map["mode" := Str(DaemonValue(i.mode)), "http_proxy_host" := Str(i.proxyHost),
        "http_proxy_port" := Int(i.proxyPort), "managed_http_proxy_port" := Int(i.managedProxyPort),
        "managed_i2pcontrol_port" := Int(i.managedControlPort),
        "b32_address" := Str(i.b32Address), "cache_ttl" := Int(i.cacheTtl), "fetch_timeout" := Real(i.fetchTimeout)]
  }

  function SaveGroupThreads(g: GroupThreads): Section {
    map["enabled" := Bool(g.enabled), "feature_tier" := Str(TierValue(g.tier)),
        "bounded_retention" := Bool(g.boundedRetention), "auto_media_fetch" := Bool(g.autoMediaFetch),
        "metadata_first_sync" := Bool(g.metadataFirstSync), "background_catchup" := Bool(g.backgroundCatchup),
        "first_run_auto_tier" := Bool(g.firstRunAutoTier)]
  }

  // -------------------------------------------------------------------- parsing

  function LoadChatbot(host: Host, m: Section, base: Chatbot): Result<Chatbot, Fault> {
    var maxTokens :- ParseInt(host, Get(m, "max_tokens", Int(256)));
    var temperature :- ParseReal(host, Get(m, "temperature", Real(0.7)));
    var maxContext :- ParseInt(host, Get(m, "max_context_messages", Int(10)));
    Ok(Chatbot(Text(host, Get(m, "endpoint", Str("http://localhost:11434/v1"))),
               Text(host, Get(m, "model", Str("llama3"))), Text(host, Get(m, "api_key", Str(""))),
               Text(host, Get(m, "system_prompt", Str(base.systemPrompt))), maxTokens, temperature, maxContext))
  }

  function LoadChat(host: Host, m: Section, base: Chat): Result<Chat, Fault> {
    var cooldown :- IntAt(host, m, "auto_reply_cooldown", base.cooldown);
    var chatbot :- (match SectionAt(m, "chatbot")
                    case None => Ok(base.chatbot)
                    case Some(cb) => LoadChatbot(host, cb, base.chatbot));
    var mode := if "auto_reply_mode" in m then ReplyOf(m["auto_reply_mode"]) else None;
    Ok(Chat(BoolAt(m, "enabled", base.enabled), if mode.Some? then mode.value else base.mode,
            if "auto_reply_message" in m then Text(host, m["auto_reply_message"]) else base.message, cooldown,
            BoolAt(m, "persist_messages", base.persist), chatbot))
  }

  function LoadAuth(host: Host, m: Section): Result<Auth, Fault> {
    var ttl :- ParseInt(host, Get(m, "session_ttl", Int(86400)));
    Ok(Auth(ParseBool(Get(m, "enabled", Bool(false))), ParseBool(Get(m, "exempt_localhost", Bool(true))), ttl))
  }

  function LoadApi(host: Host, m: Section, base: Api): Result<Api, Fault> {
    var port :- IntAt(host, m, "port", base.port);
    var auth :- (match SectionAt(m, "auth") case None => Ok(base.auth) case Some(a) => LoadAuth(host, a));
    Ok(Api(BoolAt(m, "enabled", base.enabled), if "host" in m then Text(host, m["host"]) else base.host, port,
           BoolAt(m, "public_mode", base.publicMode),
           match SectionAt(m, "metrics") case None => base.metrics case Some(x) => BoolAt(x, "enabled", base.metrics),
           auth))
  }

  function LoadIpc(host: Host, m: Section, base: Ipc): Result<Ipc, Fault> {
    var path :- PathAt(host, m, "socket_path");
    var mode :- IntAt(host, m, "socket_mode", base.socketMode);
    Ok(Ipc(BoolAt(m, "enabled", base.enabled), path, mode))
  }

  predicate IsShell(s: string) {
    "/" <= s
  }

  function ShellsOf(xs: seq<Tree>): set<string> {
    set x | x in xs && x.Str? && IsShell(x.s) :: x.s
  }

  function LoadTerminal(host: Host, m: Section, base: Terminal): Result<Terminal, Fault> {
    var idle :- IntAt(host, m, "session_idle_timeout", base.idleTimeout);
    var perIdentity :- IntAt(host, m, "max_sessions_per_identity", base.maxPerIdentity);
    var total :- IntAt(host, m, "max_total_sessions", base.maxTotal);
    var rate :- IntAt(host, m, "rate_limit_requests", base.rateLimit);
    var shell := TextAt(host, m, "default_shell");
    Ok(Terminal(BoolAt(m, "enabled", base.enabled), if shell.Some? then shell else base.defaultShell,
                if "allowed_shells" in m && m["allowed_shells"].List? then ShellsOf(m["allowed_shells"].xs)
                else base.allowedShells,
                idle, perIdentity, total, rate))
  }

  function LoadPageServer(host: Host, m: Section, base: PageServer): Result<PageServer, Fault> {
    var dir :- PathAt(host, m, "pages_dir");
    var name := TextAt(host, m, "node_name");
    Ok(PageServer(BoolAt(m, "enabled", base.enabled), dir, if name.Some? then name else base.nodeName,
                  BoolAt(m, "demo", base.demo)))
  }

  /** A rekey interval that is not a number falls back to a day. */
  function LoadPqc(host: Host, m: Section): Pqc {
    var hours := ParseInt(host, Get(m, "rekey_interval_hours", Int(24)));
    Pqc(ParseBool(Get(m, "enabled", Bool(true))), if hours.Ok? then hours.value else 24,
        ParseBool(Get(m, "require_pqc_for_rpc", Bool(false))), ParseBool(Get(m, "auto_initiate", Bool(true))))
  }

  function LoadMeshVpn(host: Host, m: Section): Result<MeshVpn, Fault> {
    var port :- ParseInt(host, Get(m, "listen_port", Int(51820)));
    Ok(MeshVpn(ParseBool(Get(m, "enable", Bool(false))), port,
               Text(host, Get(m, "subnet_prefix", Str("fd73:7479:7265:6e65"))),
               ParseBool(Get(m, "gateway", Bool(false))), Text(host, Get(m, "endpoint", Str(""))), "lazy"))
  }

  function LoadRelay(host: Host, m: Section): Result<Relay, Fault> {
    var sessions :- ParseInt(host, Get(m, "max_sessions", Int(16)));
    var perIdentity :- ParseInt(host, Get(m, "max_per_identity", Int(2)));
    var bytes :- ParseInt(host, Get(m, "max_bytes_per_session", Int(52428800)));
    var idle :- ParseInt(host, Get(m, "idle_timeout", Int(900)));
    var identities :- Elements(host, Get(m, "allowed_identities", List([])));
    Ok(Relay(ParseBool(Get(m, "enabled", Bool(false))), sessions, perIdentity, bytes, idle,
             ParseBool(Get(m, "allow_permanent", Bool(false))), identities))
  }

  function Texts(host: Host, xs: seq<Tree>): (ss: seq<string>)
    ensures |ss| == |xs| && forall i :: 0 <= i < |xs| ==> ss[i] == Text(host, xs[i])
  {
    seq(|xs|, i requires 0 <= i < |xs| => Text(host, xs[i]))
  }

  /** `peer_discovery` is not read back. */
  function LoadYggdrasil(host: Host, m: Section): Result<Yggdrasil, Fault> {
    var port :- ParseInt(host, Get(m, "listen_port", Int(9002)));
    var peers := Get(m, "initial_peers", List([]));
    Ok(Yggdrasil(DaemonOf(Get(m, "mode", Str("disabled"))), Text(host, Get(m, "binary_path", Str("yggdrasil"))), port,
                 Text(host, Get(m, "admin_socket", Str(""))), ParseBool(Get(m, "multicast", Bool(true))),
                 ParseBool(Get(m, "bootstrap_from_rns", Bool(false))), Lazy,
                 if peers.List? then Texts(host, peers.xs) else []))
  }

  function LoadI2p(host: Host, m: Section): Result<I2p, Fault> {
    var proxyPort :- ParseInt(host, Get(m, "http_proxy_port", Int(4444)));
    var managedPort :- ParseInt(host, Get(m, "managed_http_proxy_port", Int(4445)));
    var controlPort :- ParseInt(host, Get(m, "managed_i2pcontrol_port", Int(7651)));
    var ttl :- ParseInt(host, Get(m, "cache_ttl", Int(3600)));
    var timeout :- ParseReal(host, Get(m, "fetch_timeout", Real(45.0)));
    Ok(I2p(DaemonOf(Get(m, "mode", Str("disabled"))), Text(host, Get(m, "http_proxy_host", Str("127.0.0.1"))),
           proxyPort, managedPort, controlPort, Text(host, Get(m, "b32_address", Str(""))), ttl, timeout))
  }

  function LoadGroupThreads(host: Host, m: Section): GroupThreads {
    GroupThreads(ParseBool(Get(m, "enabled", Bool(true))),
                 TierOf(Lower(Text(host, Get(m, "feature_tier", Str("balanced"))))),
                 ParseBool(Get(m, "bounded_retention", Bool(false))), ParseBool(Get(m, "auto_media_fetch", Bool(true))),
                 ParseBool(Get(m, "metadata_first_sync", Bool(false))),
                 ParseBool(Get(m, "background_catchup", Bool(true))),
                 ParseBool(Get(m, "first_run_auto_tier", Bool(true))))
  }

  // ---------------------------------------------------- what a save and load keeps

  lemma ChatbotSurvives(host: Host, b: Chatbot, base: Chatbot)
    ensures LoadChatbot(host, SaveChatbot(b), base) == Ok(b)
  {
  }

  lemma ChatSurvives(host: Host, c: Chat, base: Chat)
    ensures LoadChat(host, SaveChat(c), base) == Ok(c)
  {
    hide SaveChatbot, LoadChatbot;
    ChatbotSurvives(host, c.chatbot, base.chatbot);
  }

  lemma ApiSurvives(host: Host, a: Api, base: Api)
    ensures LoadApi(host, SaveApi(a), base) == Ok(a)
  {
    hide SaveAuth, LoadAuth;
    AuthSurvives(host, a.auth);
  }

  lemma AuthSurvives(host: Host, a: Auth)
    ensures LoadAuth(host, SaveAuth(a)) == Ok(a)
  {
  }

  function NormalIpc(host: Host, i: Ipc): Result<Ipc, Fault> {
    var path :- NormalPath(host, i.socketPath);
    Ok(i.(socketPath := path))
  }

  lemma IpcSurvives(host: Host, i: Ipc, base: Ipc)
    ensures LoadIpc(host, SaveIpc(i), base) == NormalIpc(host, i)
  {
    hide ExpandUser;
  }

  function NormalTerminal(t: Terminal): Terminal {
    t.(defaultShell := if t.defaultShell == Some("") then None else t.defaultShell,
       allowedShells := set s | s in t.allowedShells && IsShell(s))
  }

  lemma ShellsSurvive(shells: set<string>)
    ensures ShellsOf(Strs(Sorted(shells))) == set s | s in shells && IsShell(s)
  {
    hide Sorted, IsShell;
    var xs := Strs(Sorted(shells));
    forall s | s in ShellsOf(xs) ensures s in shells && IsShell(s) {
      var i :| 0 <= i < |xs| && xs[i] == Str(s);
      assert Sorted(shells)[i] in Sorted(shells);
    }
    forall s | s in shells && IsShell(s) ensures s in ShellsOf(xs) {
      var i :| 0 <= i < |Sorted(shells)| && Sorted(shells)[i] == s;
      assert xs[i] == Str(s) && xs[i] in xs;
    }
  }

  lemma SavedTerminal(t: Terminal)
    ensures var m := SaveTerminal(t);
            && "enabled" in m && m["enabled"] == Bool(t.enabled)
            && "session_idle_timeout" in m && m["session_idle_timeout"] == Int(t.idleTimeout)
            && "max_sessions_per_identity" in m && m["max_sessions_per_identity"] == Int(t.maxPerIdentity)
            && "max_total_sessions" in m && m["max_total_sessions"] == Int(t.maxTotal)
            && "rate_limit_requests" in m && m["rate_limit_requests"] == Int(t.rateLimit)
  {
    hide Strs, Sorted;
  }

  lemma SavedShells(t: Terminal)
    ensures var m := SaveTerminal(t);
            && ("default_shell" in m <==> t.defaultShell.Some?)
            && ("default_shell" in m ==> m["default_shell"] == Str(t.defaultShell.value))
            && ("allowed_shells" in m <==> t.allowedShells != {})
            && ("allowed_shells" in m ==> m["allowed_shells"] == List(Strs(Sorted(t.allowedShells))))
  {
    hide Strs, Sorted;
  }

  lemma TerminalSurvives(host: Host, t: Terminal, base: Terminal)
    requires base.defaultShell.None? && base.allowedShells == {}
    ensures LoadTerminal(host, SaveTerminal(t), base) == Ok(NormalTerminal(t))
  {
    hide SaveTerminal, Strs, Sorted, ShellsOf, IsShell;
    SavedTerminal(t);
    SavedShells(t);
    ShellsSurvive(t.allowedShells);
    if t.allowedShells == {} {
      assert NormalTerminal(t).allowedShells == {};
    }
  }

  function NormalPageServer(host: Host, p: PageServer): Result<PageServer, Fault> {
    var dir :- NormalPath(host, p.pagesDir);
    Ok(p.(pagesDir := dir, nodeName := if p.nodeName == Some("") then None else p.nodeName))
  }

  lemma SavedPageServer(p: PageServer)
    ensures var m := SavePageServer(p);
            && "enabled" in m && m["enabled"] == Bool(p.enabled)
            && ("pages_dir" in m <==> p.pagesDir.Some?)
            && ("pages_dir" in m ==> m["pages_dir"] == Str(p.pagesDir.value))
            && ("node_name" in m <==> p.nodeName.Some?)
            && ("node_name" in m ==> m["node_name"] == Str(p.nodeName.value))
            && ("demo" in m <==> p.demo) && ("demo" in m ==> m["demo"] == Bool(true))
  {
  }

  lemma PageServerSurvives(host: Host, p: PageServer, base: PageServer)
    requires base.nodeName.None? && !base.demo
    ensures LoadPageServer(host, SavePageServer(p), base) == NormalPageServer(host, p)
  {
    hide SavePageServer, ExpandUser;
    SavedPageServer(p);
  }

  lemma PqcSurvives(host: Host, p: Pqc)
    ensures LoadPqc(host, SavePqc(p)) == p
  {
  }

  lemma MeshVpnSurvives(host: Host, v: MeshVpn)
    ensures LoadMeshVpn(host, SaveMeshVpn(v)) == Ok(v.(peerDiscovery := "lazy"))
  {
  }

  lemma RelaySurvives(host: Host, r: Relay)
    ensures LoadRelay(host, SaveRelay(r)) == Ok(r)
  {
  }

  lemma SavedYggdrasil(y: Yggdrasil)
    ensures var m := SaveYggdrasil(y);
            && "mode" in m && DaemonOf(m["mode"]) == y.mode
            && "binary_path" in m && m["binary_path"] == Str(y.binaryPath)
            && "listen_port" in m && m["listen_port"] == Int(y.listenPort)
            && "admin_socket" in m && m["admin_socket"] == Str(y.adminSocket)
            && "multicast" in m && m["multicast"] == Bool(y.multicast)
            && "bootstrap_from_rns" in m && m["bootstrap_from_rns"] == Bool(y.bootstrapFromRns)
            && "initial_peers" in m && m["initial_peers"] == List(Strs(y.initialPeers))
            && "peer_discovery" in m && (m["peer_discovery"] == Str("eager") <==> y.peerDiscovery.Eager?)
            && (m["peer_discovery"] == Str("lazy") <==> y.peerDiscovery.Lazy?)
  {
    hide Strs;
  }

  lemma YggdrasilSurvives(host: Host, y: Yggdrasil)
    ensures LoadYggdrasil(host, SaveYggdrasil(y)) == Ok(y.(peerDiscovery := Lazy))
  {
    hide Strs, Texts, SaveYggdrasil, DaemonOf;
    SavedYggdrasil(y);
    assert Texts(host, Strs(y.initialPeers)) == y.initialPeers;
  }

  lemma I2pSurvives(host: Host, i: I2p)
    ensures LoadI2p(host, SaveI2p(i)) == Ok(i)
  {
  }

  lemma GroupThreadsSurvive(host: Host, g: GroupThreads)
    ensures LoadGroupThreads(host, SaveGroupThreads(g)) == g
  {
    hide TierOf, TierValue, Lower;
    TierSurvives(g.tier);
  }

  lemma TierSurvives(t: FeatureTier)
    ensures TierOf(Lower(TierValue(t))) == t
  {
    LowerFixpoint("minimal");
    LowerFixpoint("balanced");
    LowerFixpoint("full");
  }

  // ------------------------------------------------------------- all services

  function Save(s: Services): Section {
    map["chat" := Dict(SaveChat(s.chat)), "api" := Dict(SaveApi(s.api)), "ipc" := Dict(SaveIpc(s.ipc)),
        "terminal" := Dict(SaveTerminal(s.terminal)), "page_server" := Dict(SavePageServer(s.pageServer)),
        "pqc" := Dict(SavePqc(s.pqc)), "mesh_vpn" := Dict(SaveMeshVpn(s.meshVpn)),
        "relay" := Dict(SaveRelay(s.relay)), "yggdrasil" := Dict(SaveYggdrasil(s.yggdrasil)),
        "i2p" := Dict(SaveI2p(s.i2p)), "group_threads" := Dict(SaveGroupThreads(s.groupThreads))]
  }

  lemma Saved(s: Services)
    ensures var m := Save(s);
            && "chat" in m && m["chat"] == Dict(SaveChat(s.chat))
            && "api" in m && m["api"] == Dict(SaveApi(s.api))
            && "ipc" in m && m["ipc"] == Dict(SaveIpc(s.ipc))
            && "terminal" in m && m["terminal"] == Dict(SaveTerminal(s.terminal))
            && "page_server" in m && m["page_server"] == Dict(SavePageServer(s.pageServer))
            && "pqc" in m && m["pqc"] == Dict(SavePqc(s.pqc))
            && "mesh_vpn" in m && m["mesh_vpn"] == Dict(SaveMeshVpn(s.meshVpn))
            && "relay" in m && m["relay"] == Dict(SaveRelay(s.relay))
            && "yggdrasil" in m && m["yggdrasil"] == Dict(SaveYggdrasil(s.yggdrasil))
            && "i2p" in m && m["i2p"] == Dict(SaveI2p(s.i2p))
            && "group_threads" in m && m["group_threads"] == Dict(SaveGroupThreads(s.groupThreads))
  {
    hide SaveChat, SaveApi, SaveIpc, SaveTerminal, SavePageServer, SavePqc, SaveMeshVpn, SaveRelay, SaveYggdrasil,
         SaveI2p, SaveGroupThreads;
  }

  /** What the services are after they were saved and loaded. */
  function Normalise(host: Host, s: Services): Result<Services, Fault> {
    var ipc :- NormalIpc(host, s.ipc);
    var pageServer :- NormalPageServer(host, s.pageServer);
    Ok(s.(ipc := ipc, terminal := NormalTerminal(s.terminal), pageServer := pageServer,
          meshVpn := s.meshVpn.(peerDiscovery := "lazy"), yggdrasil := s.yggdrasil.(peerDiscovery := Lazy)))
  }

  predicate NormalForm(s: Services) {
    && PlainPath(s.ipc.socketPath) && PlainPath(s.pageServer.pagesDir)
    && s.terminal.defaultShell != Some("") && s.pageServer.nodeName != Some("")
    && (forall shell :: shell in s.terminal.allowedShells ==> IsShell(shell))
    && s.meshVpn.peerDiscovery == "lazy" && s.yggdrasil.peerDiscovery.Lazy?
  }

  lemma NormalFixpoint(host: Host, s: Services)
    requires HostOk(host)
    ensures Normalise(host, s) == Ok(s) <==> NormalForm(s)
    ensures Normalise(host, s).Ok? ==> Normalise(host, Normalise(host, s).value) == Normalise(host, s)
  {
    hide NormalPath, PlainPath, IsShell;
    PathFixpoint(host, s.ipc.socketPath);
    PathFixpoint(host, s.pageServer.pagesDir);
    ShellsFixpoint(s.terminal);
  }

  lemma ShellsFixpoint(t: Terminal)
    ensures NormalTerminal(t) == t <==> t.defaultShell != Some("") && forall s :: s in t.allowedShells ==> IsShell(s)
    ensures NormalTerminal(NormalTerminal(t)) == NormalTerminal(t)
  {
    hide IsShell;
    var kept := set s | s in t.allowedShells && IsShell(s);
    assert kept == t.allowedShells <==> forall s :: s in t.allowedShells ==> IsShell(s);
    assert NormalTerminal(NormalTerminal(t)).allowedShells == kept;
  }
}
