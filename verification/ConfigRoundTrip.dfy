/** Saving and loading a configuration: what comes back, when it is the same
    configuration, and when a second round changes nothing more. */
module ConfigRoundTrip {
  import opened Prelude
  import opened Sections
  import opened Strings
  import opened Values
  import opened CoreConfig
  import opened ConfigLoad
  import Rbac
  import RbacConfig
  import Svc = ServiceConfig

  // ------------------------------------------------------------------ hub merge

  /** What the merge promises: configured peers stay, in order, in front; what
      follows are well-known hubs that were missing; none is missing after. */
  lemma {:induction false} MissingHubsAdded(hubs: seq<Peer>, peers: seq<Peer>)
    ensures forall h :: h in Missing(hubs, peers) <==> h in hubs && !Present(h, peers)
    decreases |hubs|
  {
    if hubs != [] {
      var init, last := hubs[..|hubs| - 1], hubs[|hubs| - 1];
      assert hubs == init + [last];
      MissingHubsAdded(init, peers);
    }
  }

  lemma PresentGrows(hub: Peer, a: seq<Peer>, b: seq<Peer>)
    ensures Present(hub, a) || Present(hub, b) <==> Present(hub, a + b)
  {
    if Present(hub, a) {
      var i :| 0 <= i < |a| && SameEndpoint(a[i], hub);
      assert SameEndpoint((a + b)[i], hub);
    }
    if Present(hub, b) {
      var i :| 0 <= i < |b| && SameEndpoint(b[i], hub);
      assert SameEndpoint((a + b)[|a| + i], hub);
    }
    if Present(hub, a + b) {
      var i :| 0 <= i < |a + b| && SameEndpoint((a + b)[i], hub);
      if i < |a| {
        assert SameEndpoint(a[i], hub);
      } else {
        assert SameEndpoint(b[i - |a|], hub);
      }
    }
  }

  lemma HubsPresentAfterMerge(peers: seq<Peer>)
    ensures peers <= WithHubs(peers)
    ensures forall h :: h in WELL_KNOWN_HUBS ==> Present(h, WithHubs(peers))
    ensures forall h :: h in WithHubs(peers)[|peers|..] ==> h in WELL_KNOWN_HUBS && !Present(h, peers)
  {
    hide WELL_KNOWN_HUBS;
    var added := Missing(WELL_KNOWN_HUBS, peers);
    MissingHubsAdded(WELL_KNOWN_HUBS, peers);
    assert WithHubs(peers)[|peers|..] == added;
    forall h | h in WELL_KNOWN_HUBS ensures Present(h, WithHubs(peers)) {
      PresentGrows(h, peers, added);
      if h in added {
        var i :| 0 <= i < |added| && added[i] == h;
        assert SameEndpoint(added[i], h);
      }
    }
  }

  lemma MergeIsIdle(peers: seq<Peer>)
    ensures WithHubs(peers) == peers <==> forall h :: h in WELL_KNOWN_HUBS ==> Present(h, peers)
  {
    hide WELL_KNOWN_HUBS;
    MissingHubsAdded(WELL_KNOWN_HUBS, peers);
    if forall h :: h in WELL_KNOWN_HUBS ==> Present(h, peers) {
      var added := Missing(WELL_KNOWN_HUBS, peers);
      assert added == [] || added[0] in added;
    } else {
      var h :| h in WELL_KNOWN_HUBS && !Present(h, peers);
      assert |Missing(WELL_KNOWN_HUBS, peers)| > 0;
    }
  }

  /** A second merge adds nothing. */
  lemma SecondMergeAddsNothing(peers: seq<Peer>)
    ensures WithHubs(WithHubs(peers)) == WithHubs(peers)
  {
    HubsPresentAfterMerge(peers);
    MergeIsIdle(WithHubs(peers));
  }

  lemma DefaultsHaveHubs()
    ensures forall h :: h in WELL_KNOWN_HUBS ==> Present(h, WELL_KNOWN_HUBS)
  {
    hide WELL_KNOWN_HUBS;
    forall h | h in WELL_KNOWN_HUBS ensures Present(h, WELL_KNOWN_HUBS) {
      var i :| 0 <= i < |WELL_KNOWN_HUBS| && WELL_KNOWN_HUBS[i] == h;
      assert SameEndpoint(WELL_KNOWN_HUBS[i], h);
    }
  }

  /** The peers list of a file, if it has one. */
  function ListedPeers(file: Tree): Option<seq<Tree>> {
    if !file.Dict? then None
    else match SectionAt(file.m, "reticulum")
         case None => None
         case Some(r) =>
           match SectionAt(r, "interfaces")
           case None => None
           case Some(i) => if "peers" in i && i["peers"].List? then Some(i["peers"].xs) else None
  }

  /** Whatever the file says, a loaded configuration has every well-known hub,
      and the peers the file lists come first, in the file's order. */
  lemma EveryLoadHasHubs(host: Host, file: Tree)
    ensures var r := Load(host, file);
            r.Ok? ==>
              var peers := r.value.reticulum.interfaces.peers;
              && (forall h :: h in WELL_KNOWN_HUBS ==> Present(h, peers))
              && (ListedPeers(file).Some? ==>
                    var listed := LoadPeers(host, ListedPeers(file).value);
                    listed.Ok? && listed.value <= peers)
  {
    hide WELL_KNOWN_HUBS, WithHubs, LoadPeers, LoadServer, IntAt, PathAt, OverrideAt, ModeOf, TextAt, IdentityAt, RpcAt,
         DiscoveryAt, NotificationsAt, LxmfAt, ChatAt, ApiAt, LaterServices, RbacConfig.ParseRbacResult, SectionAt;
    DefaultsHaveHubs();
    forall peers ensures peers <= WithHubs(peers) && forall h :: h in WELL_KNOWN_HUBS ==> Present(h, WithHubs(peers)) {
      HubsPresentAfterMerge(peers);
    }
  }

  // -------------------------------------------------------------- peers section

  function NormalPeer(p: Peer): Peer {
    p.(name := if Truthy(p.name) then p.name else Null)
  }

  function NormalPeerList(ps: seq<Peer>): (r: seq<Peer>)
    ensures |r| == |ps| && forall i :: 0 <= i < |ps| ==> r[i] == NormalPeer(ps[i])
  {
    seq(|ps|, i requires 0 <= i < |ps| => NormalPeer(ps[i]))
  }

  function NormalPeers(ps: seq<Peer>): seq<Peer> {
    WithHubs(if ps == [] then WELL_KNOWN_HUBS else NormalPeerList(ps))
  }

  lemma PeerSurvives(host: Host, p: Peer)
    ensures LoadPeer(host, SavePeer(p)) == Ok([NormalPeer(p)])
  {
  }

  lemma {:induction false} PeersSurvive(host: Host, ps: seq<Peer>)
    ensures LoadPeers(host, SavePeers(ps)) == Ok(NormalPeerList(ps))
    decreases |ps|
  {
    hide LoadPeer, SavePeer, NormalPeer;
    if ps == [] {
      assert SavePeers(ps) == [];
    } else {
      var init, last := ps[..|ps| - 1], ps[|ps| - 1];
      PeersSurvive(host, init);
      PeerSurvives(host, last);
      assert SavePeers(ps)[..|ps| - 1] == SavePeers(init);
      assert NormalPeerList(ps) == NormalPeerList(init) + [NormalPeer(last)];
    }
  }

  predicate NormalPeersForm(ps: seq<Peer>) {
    && ps != []
    && (forall p :: p in ps ==> p.name == Null || Truthy(p.name))
    && (forall h :: h in WELL_KNOWN_HUBS ==> Present(h, ps))
  }

  lemma PeersFixpoint(ps: seq<Peer>)
    ensures NormalPeers(ps) == ps <==> NormalPeersForm(ps)
    ensures NormalPeers(NormalPeers(ps)) == NormalPeers(ps)
    ensures ps != [] ==> NormalPeerList(ps) <= NormalPeers(ps)
  {
    hide WELL_KNOWN_HUBS;
    HubsNonEmpty();
    var configured := if ps == [] then WELL_KNOWN_HUBS else NormalPeerList(ps);
    var n := NormalPeers(ps);
    HubsPresentAfterMerge(configured);
    NormalListFixpoint(n);
    NormalListFixpoint(ps);
    MergeIsIdle(ps);
    forall p | p in n ensures p.name == Null || Truthy(p.name) {
      NormalPeersNamed(ps, p);
    }
    SecondMergeAddsNothing(configured);
    if n == ps && ps != [] {
      assert NormalPeerList(ps) == ps;
    }
  }

  lemma HubsNonEmpty()
    ensures WELL_KNOWN_HUBS != [] && forall h :: h in WELL_KNOWN_HUBS ==> Truthy(h.name)
  {
  }

  lemma NormalListFixpoint(ps: seq<Peer>)
    ensures NormalPeerList(ps) == ps <==> forall p :: p in ps ==> p.name == Null || Truthy(p.name)
  {
    if NormalPeerList(ps) == ps {
      forall p | p in ps ensures p.name == Null || Truthy(p.name) {
        var i :| 0 <= i < |ps| && ps[i] == p;
        assert NormalPeer(ps[i]) == ps[i];
      }
    }
  }

  lemma NormalPeersNamed(ps: seq<Peer>, p: Peer)
    requires p in NormalPeers(ps)
    ensures p.name == Null || Truthy(p.name)
  {
    hide WELL_KNOWN_HUBS;
    HubsNonEmpty();
    var configured := if ps == [] then WELL_KNOWN_HUBS else NormalPeerList(ps);
    HubsPresentAfterMerge(configured);
    var i :| 0 <= i < |NormalPeers(ps)| && NormalPeers(ps)[i] == p;
    if i < |configured| {
      assert configured[i] == p;
    } else {
      assert NormalPeers(ps)[|configured|..][i - |configured|] == p;
    }
  }

  // ------------------------------------------------------------------ reticulum

  lemma AbsoluteIsAPath(s: string)
    requires s != [] && s[0] == '/'
    ensures !MeansNoPath(s)
  {
    assert StripLeft(s) == s;
    var r := StripRight(s);
    assert !IsSpace(s[0]);
    assert r != [] && r[0] == '/';
    assert Lower(r)[0] == '/' && "null"[0] == 'n';
  }

  function NormalOverride(host: Host, o: Option<string>): Result<Option<string>, Fault> {
    if o.None? || MeansNoPath(o.value) then Ok(None)
    else var path :- ExpandUser(host, o.value); Ok(Some(path))
  }

  lemma OverrideFixpoint(host: Host, o: Option<string>)
    requires HostOk(host)
    ensures NormalOverride(host, o) == Ok(o) <==> PlainPath(o) && (o.Some? ==> !MeansNoPath(o.value))
    ensures var n := NormalOverride(host, o);
            n.Ok? ==> NormalOverride(host, n.value) == n
  {
    hide MeansNoPath;
    if o.Some? && !MeansNoPath(o.value) {
      BlankMeansNoPath();
      if ExpandUser(host, o.value).Ok? {
        ExpandedIsStable(host, o.value);
        var e := ExpandUser(host, o.value).value;
        if e != o.value {
          AbsoluteIsAPath(e);
        }
      }
    }
  }

  lemma BlankMeansNoPath()
    ensures MeansNoPath("")
  {
  }

  function NormalReticulum(host: Host, r: Reticulum, base: Reticulum): Result<Reticulum, Fault> {
    var operatorPath :- NormalPath(host, r.operatorIdentityPath);
    var override :- NormalOverride(host, r.configPathOverride);
    Ok(r.(enableTransport := if r.enableTransport.Some? then r.enableTransport else base.enableTransport,
          operatorIdentityPath := operatorPath, configPathOverride := override,
          hubAddress := if r.hubAddress.Some? && |r.hubAddress.value| == 32 then r.hubAddress else base.hubAddress,
          interfaces := r.interfaces.(peers := NormalPeers(r.interfaces.peers))))
  }

  predicate NormalReticulumForm(r: Reticulum, profile: Profile) {
    && (r.enableTransport.None? ==> !profile.HubProfile?)
    && PlainPath(r.operatorIdentityPath)
    && PlainPath(r.configPathOverride) && (r.configPathOverride.Some? ==> !MeansNoPath(r.configPathOverride.value))
    && (r.hubAddress.Some? ==> |r.hubAddress.value| == 32)
    && NormalPeersForm(r.interfaces.peers)
  }

  lemma ServerSurvives(host: Host, s: Server)
    ensures LoadServer(host, SaveServer(s)) == Ok(s)
  {
  }

  lemma InterfacesSurvive(host: Host, i: Interfaces, base: Interfaces)
    requires base.peers == WELL_KNOWN_HUBS
    ensures LoadInterfaces(host, SaveInterfaces(i), base) == Ok(i.(peers := NormalPeers(i.peers)))
  {
    hide WELL_KNOWN_HUBS, LoadServer, SaveServer, LoadPeers, WithHubs, Missing;
    ServerSurvives(host, i.server);
    PeersSurvive(host, i.peers);
  }

  lemma SavedReticulum(r: Reticulum)
    ensures var m := SaveReticulum(r);
            && "mode" in m && m["mode"] == Str(ModeValue(r.mode))
            && "auto_initialize" in m && m["auto_initialize"] == Bool(r.autoInitialize)
            && "announce_interval" in m && m["announce_interval"] == Int(r.announceInterval)
            && "hub_enabled" in m && m["hub_enabled"] == Bool(r.hubEnabled)
            && "hub_announce_interval" in m && m["hub_announce_interval"] == Int(r.hubAnnounceInterval)
            && "interfaces" in m && m["interfaces"] == Dict(SaveInterfaces(r.interfaces))
  {
    hide ModeValue, SaveInterfaces;
  }

  lemma SavedReticulumOptions(r: Reticulum)
    ensures var m := SaveReticulum(r);
            && ("enable_transport" in m <==> r.enableTransport.Some?)
            && (r.enableTransport.Some? ==> m["enable_transport"] == Bool(r.enableTransport.value))
            && ("config_path_override" in m <==> r.configPathOverride.Some?)
            && (r.configPathOverride.Some? ==> m["config_path_override"] == Str(r.configPathOverride.value))
            && ("operator_identity_path" in m <==> r.operatorIdentityPath.Some?)
            && (r.operatorIdentityPath.Some? ==> m["operator_identity_path"] == Str(r.operatorIdentityPath.value))
            && ("hub_address" in m <==> r.hubAddress.Some?)
            && (r.hubAddress.Some? ==> m["hub_address"] == Str(r.hubAddress.value))
  {
    hide ModeValue, SaveInterfaces;
  }

  lemma ReticulumSurvives(host: Host, r: Reticulum, base: Reticulum)
    requires base.interfaces.peers == WELL_KNOWN_HUBS && base.hubAddress == None
    ensures LoadReticulum(host, SaveReticulum(r), base) == NormalReticulum(host, r, base)
  {
    hide SaveReticulum, LoadInterfaces, SaveInterfaces, NormalPeers, WELL_KNOWN_HUBS, ExpandUser, MeansNoPath;
    SavedReticulum(r);
    SavedReticulumOptions(r);
    InterfacesSurvive(host, r.interfaces, base.interfaces);
  }

  lemma ReticulumFixpoint(host: Host, r: Reticulum, profile: Profile)
    requires HostOk(host)
    ensures var base, n := DefaultReticulum(profile), NormalReticulum(host, r, DefaultReticulum(profile));
            && (n == Ok(r) <==> NormalReticulumForm(r, profile))
            && (n.Ok? ==> NormalReticulum(host, n.value, base) == n)
  {
    hide NormalPeers, WELL_KNOWN_HUBS, NormalPath, NormalOverride, MeansNoPath, PlainPath, NormalPeersForm;
    PathFixpoint(host, r.operatorIdentityPath);
    OverrideFixpoint(host, r.configPathOverride);
    PeersFixpoint(r.interfaces.peers);
  }

  // ------------------------------------------------------------------- identity

  function NormalIdentity(i: Identity): Identity {
    Identity(if i.displayName != "" then i.displayName else DEFAULT_IDENTITY.displayName,
             if i.icon != "" then i.icon else DEFAULT_IDENTITY.icon,
             if i.shortName.Some? && ValidShortName(i.shortName.value) then i.shortName else None,
             if Lower(i.provider) in ["file", "yubikey"] then Lower(i.provider) else "file",
             if i.provider == "yubikey" || i.yubikey.credentialId != "" then i.yubikey else DEFAULT_YUBIKEY, i.webUrl)
  }

  predicate NormalIdentityForm(i: Identity) {
    && i.displayName != "" && i.icon != "" && i.provider in ["file", "yubikey"]
    && (i.shortName.Some? ==> ValidShortName(i.shortName.value))
    && (i.provider != "yubikey" && i.yubikey.credentialId == "" ==> i.yubikey == DEFAULT_YUBIKEY)
  }

  lemma SavedIdentity(i: Identity)
    ensures var m := SaveIdentity(i);
            && "display_name" in m && m["display_name"] == Str(i.displayName)
            && "icon" in m && m["icon"] == Str(i.icon)
            && "provider" in m && m["provider"] == Str(i.provider)
            && ("short_name" in m <==> i.shortName.Some? && i.shortName.value != "")
            && ("short_name" in m ==> m["short_name"] == Str(i.shortName.value))
            && ("yubikey" in m <==> YubiKeyWritten(i))
            && ("yubikey" in m ==> m["yubikey"] == Dict(SaveYubiKey(i.yubikey)))
            && ("web_url" in m <==> i.webUrl != "")
            && ("web_url" in m ==> m["web_url"] == Str(i.webUrl))
  {
    hide YubiKeyWritten, SaveYubiKey;
  }

  lemma YubiKeySurvives(host: Host, y: YubiKey)
    ensures LoadYubiKey(host, SaveYubiKey(y)) == y
  {
  }

  lemma IdentitySurvives(host: Host, i: Identity)
    ensures LoadIdentity(host, SaveIdentity(i), DEFAULT_IDENTITY) == NormalIdentity(i)
  {
    hide SaveIdentity, LoadYubiKey, SaveYubiKey, Lower, PlainShortName;
    SavedIdentity(i);
    YubiKeySurvives(host, i.yubikey);
    EmptyProvider();
  }

  lemma EmptyProvider()
    ensures Lower("") == "" && !ValidShortName("")
  {
  }

  lemma IdentityFixpoint(i: Identity)
    ensures NormalIdentity(i) == i <==> NormalIdentityForm(i)
    ensures NormalIdentity(NormalIdentity(i)) == NormalIdentity(i)
  {
    hide ValidShortName, Lower;
    ProvidersAreLower();
    LowerFixpoint(i.provider);
  }

  lemma ProvidersAreLower()
    ensures Lower("file") == "file" && Lower("yubikey") == "yubikey"
  {
    LowerFixpoint("file");
    LowerFixpoint("yubikey");
  }

  // ------------------------------------------- discovery, rpc and notifications

  lemma RpcSurvives(r: Rpc, base: Rpc)
    ensures LoadRpc(SaveRpc(r), base) == r
  {
  }

  function NormalDiscovery(d: Discovery): Discovery {
    d.(allowedPeers := set p | p in d.allowedPeers && p != "" :: Lower(p), operatorLabel := Strip(d.operatorLabel))
  }

  predicate NormalDiscoveryForm(d: Discovery) {
    (forall p :: p in d.allowedPeers ==> p != "" && IsLower(p)) && Trimmed(d.operatorLabel)
  }

  lemma SavedDiscovery(d: Discovery)
    ensures var m := SaveDiscovery(d);
            && "enabled" in m && m["enabled"] == Bool(d.enabled)
            && "auto_announce" in m && m["auto_announce"] == Bool(d.autoAnnounce)
            && "access_mode" in m && m["access_mode"] == Str(AccessValue(d.accessMode))
            && "allowed_peers" in m && m["allowed_peers"] == List(Strs(Sorted(d.allowedPeers)))
            && "info_respond" in m && m["info_respond"] == Bool(d.infoRespond)
            && ("operator_label" in m <==> d.operatorLabel != "")
            && ("operator_label" in m ==> m["operator_label"] == Str(d.operatorLabel))
  {
    hide AccessValue, Sorted, Strs;
  }

  lemma AllowedSurvive(host: Host, peers: set<string>)
    ensures AllowedOf(host, Strs(Sorted(peers))) == set p | p in peers && p != "" :: Lower(p)
  {
    hide Sorted, Lower;
    var xs := Strs(Sorted(peers));
    var image := set p | p in peers && p != "" :: Lower(p);
    forall q | q in AllowedOf(host, xs) ensures q in image {
      var x :| x in xs && Truthy(x) && Lower(Text(host, x)) == q;
      var i :| 0 <= i < |xs| && xs[i] == x;
      assert Sorted(peers)[i] in Sorted(peers);
    }
    forall q | q in image ensures q in AllowedOf(host, xs) {
      var p :| p in peers && p != "" && Lower(p) == q;
      var i :| 0 <= i < |Sorted(peers)| && Sorted(peers)[i] == p;
      assert xs[i] == Str(p) && xs[i] in xs && Text(host, xs[i]) == p;
    }
  }

  lemma AccessSurvives(a: AccessMode)
    ensures AccessOf(Lower(AccessValue(a))) == Some(a)
  {
    LowerFixpoint("open");
    LowerFixpoint("allowlist");
  }

  lemma DiscoverySurvives(host: Host, d: Discovery)
    ensures LoadDiscovery(host, SaveDiscovery(d), DEFAULT_DISCOVERY) == NormalDiscovery(d)
  {
    hide SaveDiscovery, Sorted, Lower, Strip, AccessOf, AccessValue, AllowedOf;
    SavedDiscovery(d);
    AllowedSurvive(host, d.allowedPeers);
    AccessSurvives(d.accessMode);
    StripFixpoint("");
  }

  lemma DiscoveryFixpoint(d: Discovery)
    ensures NormalDiscovery(d) == d <==> NormalDiscoveryForm(d)
    ensures NormalDiscovery(NormalDiscovery(d)) == NormalDiscovery(d)
  {
    hide Lower, Strip, IsLower;
    StripFixpoint(d.operatorLabel);
    AllowedFixpoint(d.allowedPeers);
    AllowedFixpoint(NormalDiscovery(d).allowedPeers);
  }

  lemma AllowedFixpoint(peers: set<string>)
    ensures var n := set p | p in peers && p != "" :: Lower(p);
            && (n == peers <==> forall p :: p in peers ==> p != "" && IsLower(p))
            && (forall p :: p in n ==> p != "" && IsLower(p))
  {
    hide IsLower;
    var n := set p | p in peers && p != "" :: Lower(p);
    forall p | p in n ensures p != "" && IsLower(p) {
      var q :| q in peers && q != "" && Lower(q) == p;
      LowerFixpoint(q);
    }
    if forall p :: p in peers ==> p != "" && IsLower(p) {
      forall p | p in peers ensures Lower(p) == p {
        LowerFixpoint(p);
      }
      forall p | p in peers ensures p in n {
        assert Lower(p) == p;
      }
      forall p | p in n ensures p in peers {
        var q :| q in peers && q != "" && Lower(q) == p;
      }
    }
  }

  function NormalHour(h: Option<int>): Option<int> {
    if h.Some? && 0 <= h.value <= 23 then h else None
  }

  function NormalNotifications(n: Notifications): Notifications {
    n.(quietStart := NormalHour(n.quietStart), quietEnd := NormalHour(n.quietEnd))
  }

  predicate HourOk(h: Option<int>) {
    h.Some? ==> 0 <= h.value <= 23
  }

  lemma NotificationsSurvive(host: Host, n: Notifications)
    ensures LoadNotifications(host, SaveNotifications(n)) == Ok(NormalNotifications(n))
  {
  }

  // ----------------------------------------------------------------------- lxmf

  function Static(ps: seq<string>): seq<string> {
    if ps == [] then []
    else
      var init, last := Static(ps[..|ps| - 1]), ps[|ps| - 1];
      if |last| == 32 then init + [last] else init
  }

  function NormalLxmf(l: Lxmf, base: Lxmf): Lxmf {
    l.(destination := if l.destination.Some? && |l.destination.value| == 32 then l.destination else base.destination,
       staticPeers := Static(l.staticPeers))
  }

  predicate NormalLxmfForm(l: Lxmf, profile: Profile) {
    && (if l.destination.Some? then |l.destination.value| == 32 else !profile.OperatorProfile?)
    && forall p :: p in l.staticPeers ==> |p| == 32
  }

  lemma {:induction false} StaticSurvive(ps: seq<string>)
    ensures StaticPeersOf(Strs(ps)) == Static(ps)
  {
    if ps != [] {
      assert Strs(ps)[..|ps| - 1] == Strs(ps[..|ps| - 1]);
      StaticSurvive(ps[..|ps| - 1]);
    }
  }

  lemma {:induction false} StaticFixpoint(ps: seq<string>)
    ensures |Static(ps)| <= |ps| && forall p :: p in Static(ps) ==> |p| == 32
    ensures Static(ps) == ps <==> forall p :: p in ps ==> |p| == 32
  {
    if ps != [] {
      var init, last := ps[..|ps| - 1], ps[|ps| - 1];
      assert ps == init + [last];
      StaticFixpoint(init);
      if |last| == 32 {
        assert Static(ps)[..|Static(ps)| - 1] == Static(init);
      }
    }
  }

  lemma SavedNumbers(l: Lxmf)
    ensures var m := SaveLxmf(l);
            && "propagation_limit" in m && m["propagation_limit"] == Int(l.limits.propagation)
            && "sync_limit" in m && m["sync_limit"] == Int(l.limits.sync)
            && "delivery_limit" in m && m["delivery_limit"] == Int(l.limits.delivery)
            && "autopeer_maxdepth" in m && m["autopeer_maxdepth"] == Int(l.autopeerMaxdepth)
            && "max_peers" in m && m["max_peers"] == Int(l.maxPeers)
  {
    hide SaveNode, Strs;
  }

  lemma SavedCosts(l: Lxmf)
    ensures var m := SaveLxmf(l);
            && "propagation_cost" in m && m["propagation_cost"] == Int(l.costs.propagation)
            && "propagation_cost_flexibility" in m && m["propagation_cost_flexibility"] == Int(l.costs.flexibility)
            && "peering_cost" in m && m["peering_cost"] == Int(l.costs.peering)
            && "max_peering_cost" in m && m["max_peering_cost"] == Int(l.costs.maxPeering)
  {
    hide SaveNode, Strs;
  }

  lemma SavedPeering(l: Lxmf)
    ensures var m := SaveLxmf(l);
            && "propagation_node" in m && m["propagation_node"] == Dict(SaveNode(l))
            && "autopeer" in m && m["autopeer"] == Bool(l.autopeer)
            && "from_static_only" in m && m["from_static_only"] == Bool(l.fromStaticOnly)
            && ("propagation_destination" in m <==> l.destination.Some?)
            && ("propagation_destination" in m ==> m["propagation_destination"] == Str(l.destination.value))
            && ("static_peers" in m <==> l.staticPeers != [])
            && ("static_peers" in m ==> m["static_peers"] == List(Strs(l.staticPeers)))
  {
    hide SaveNode, Strs;
  }

  lemma LimitsSurvive(host: Host, l: Lxmf, base: Limits)
    ensures LoadLimits(host, SaveLxmf(l), base) == Ok(l.limits)
  {
    hide SaveLxmf;
    SavedNumbers(l);
  }

  lemma CostsSurvive(host: Host, l: Lxmf, base: Costs)
    ensures LoadCosts(host, SaveLxmf(l), base) == Ok(l.costs)
  {
    hide SaveLxmf;
    SavedCosts(l);
  }

  lemma NodeSurvives(host: Host, l: Lxmf)
    ensures ParseBool(Get(SaveNode(l), "enabled", Bool(false))) == l.nodeEnabled
    ensures Get(SaveNode(l), "name", Null) == l.nodeName
  {
  }

  lemma LxmfSurvives(host: Host, l: Lxmf, base: Lxmf)
    requires base.staticPeers == []
    ensures LoadLxmf(host, SaveLxmf(l), base) == Ok(NormalLxmf(l, base))
  {
    hide SaveLxmf, SaveNode, LoadLimits, LoadCosts, Strs, StaticPeersOf, Get;
    SavedNumbers(l);
    SavedPeering(l);
    LimitsSurvive(host, l, base.limits);
    CostsSurvive(host, l, base.costs);
    NodeSurvives(host, l);
    StaticSurvive(l.staticPeers);
  }

  lemma LxmfFixpoint(l: Lxmf, profile: Profile)
    ensures var base := DefaultLxmf(profile);
            && (NormalLxmf(l, base) == l <==> NormalLxmfForm(l, profile))
            && NormalLxmf(NormalLxmf(l, base), base) == NormalLxmf(l, base)
  {
    StaticFixpoint(l.staticPeers);
    StaticFixpoint(Static(l.staticPeers));
    assert |COMMUNITY_HUB| == 32;
  }

  // ----------------------------------------------------------- the whole config

  /** What a configuration is after it was saved and loaded; loading fails only
      when a `~user` path names an unknown user. */
  function Normalise(host: Host, c: CoreConfig): Result<CoreConfig, Fault> {
    var reticulum :- NormalReticulum(host, c.reticulum, DefaultReticulum(c.profile));
    var services :- Svc.Normalise(host, c.services);
    Ok(CoreConfig(
         c.profile, reticulum, NormalIdentity(c.identity), c.rpc, NormalDiscovery(c.discovery),
         NormalNotifications(c.notifications), NormalLxmf(c.lxmf, DefaultLxmf(c.profile)),
         services, RbacConfig.Normalise(c.rbac), false, false))
  }

  lemma ServiceKeys(s: Svc.Services)
    ensures Svc.Save(s).Keys == {"chat", "api", "ipc", "terminal", "page_server", "pqc", "mesh_vpn", "relay",
                                 "yggdrasil", "i2p", "group_threads"}
  {
    hide Svc.SaveChat, Svc.SaveApi, Svc.SaveIpc, Svc.SaveTerminal, Svc.SavePageServer, Svc.SavePqc, Svc.SaveMeshVpn,
         Svc.SaveRelay, Svc.SaveYggdrasil, Svc.SaveI2p, Svc.SaveGroupThreads;
  }

  /** A key of the core sections is not overridden by the services. */
  lemma CoreKey(c: CoreConfig, key: string)
    requires key !in {"chat", "api", "ipc", "terminal", "page_server", "pqc", "mesh_vpn", "relay", "yggdrasil", "i2p",
                      "group_threads"}
    ensures key in Save(c) <==> key in SaveCore(c)
    ensures key in Save(c) ==> Save(c)[key] == SaveCore(c)[key]
  {
    hide SaveCore, Svc.Save;
    ServiceKeys(c.services);
  }

  lemma SavedCore(c: CoreConfig)
    ensures var m := SaveCore(c);
            && SectionAt(m, "reticulum") == Some(SaveReticulum(c.reticulum))
            && SectionAt(m, "identity") == Some(SaveIdentity(c.identity))
            && SectionAt(m, "rpc") == Some(SaveRpc(c.rpc))
            && SectionAt(m, "discovery") == Some(SaveDiscovery(c.discovery))
            && SectionAt(m, "notifications") == Some(SaveNotifications(c.notifications))
            && SectionAt(m, "lxmf") == Some(SaveLxmf(c.lxmf))
            && "rbac" in m && m["rbac"] == Dict(RbacConfig.Save(c.rbac))
            && "profile" in m && m["profile"] == Str(ProfileValue(c.profile))
            && "meshtastic" !in m && "mqtt" !in m
  {
    hide SaveReticulum, SaveIdentity, SaveRpc, SaveDiscovery, SaveNotifications, SaveLxmf, RbacConfig.Save,
        ProfileValue;
  }

  lemma SavedSections(c: CoreConfig)
    ensures var m := Save(c);
            && SectionAt(m, "reticulum") == Some(SaveReticulum(c.reticulum))
            && SectionAt(m, "identity") == Some(SaveIdentity(c.identity))
            && SectionAt(m, "rpc") == Some(SaveRpc(c.rpc))
            && SectionAt(m, "discovery") == Some(SaveDiscovery(c.discovery))
            && SectionAt(m, "notifications") == Some(SaveNotifications(c.notifications))
            && SectionAt(m, "lxmf") == Some(SaveLxmf(c.lxmf))
            && "rbac" in m && m["rbac"] == Dict(RbacConfig.Save(c.rbac))
            && "profile" in m && m["profile"] == Str(ProfileValue(c.profile))
            && PoisonKeys(m) == []
  {
    hide Save, SaveCore, SaveReticulum, SaveIdentity, SaveRpc, SaveDiscovery, SaveNotifications, SaveLxmf,
         RbacConfig.Save, ProfileValue;
    SavedCore(c);
    CoreKey(c, "reticulum");
    CoreKey(c, "identity");
    CoreKey(c, "rpc");
    CoreKey(c, "discovery");
    CoreKey(c, "notifications");
    CoreKey(c, "lxmf");
    CoreKey(c, "rbac");
    CoreKey(c, "profile");
    CoreKey(c, "meshtastic");
    CoreKey(c, "mqtt");
  }

  lemma SavedProfile(c: CoreConfig)
    ensures ProfileAt(Save(c)) == c.profile
  {
    hide Save, SaveReticulum, SaveIdentity, SaveRpc, SaveDiscovery, SaveNotifications, SaveLxmf, RbacConfig.Save,
        SectionAt,
         PoisonKeys;
    SavedSections(c);
  }

  lemma ServiceKey(c: CoreConfig, key: string)
    requires key in Svc.Save(c.services)
    ensures key in Save(c) && Save(c)[key] == Svc.Save(c.services)[key]
  {
    hide SaveCore, Svc.Save;
  }

  lemma SavedServices(c: CoreConfig)
    ensures var m, s := Save(c), c.services;
            && SectionAt(m, "chat") == Some(Svc.SaveChat(s.chat))
            && SectionAt(m, "api") == Some(Svc.SaveApi(s.api))
            && SectionAt(m, "ipc") == Some(Svc.SaveIpc(s.ipc))
            && SectionAt(m, "terminal") == Some(Svc.SaveTerminal(s.terminal))
            && SectionAt(m, "page_server") == Some(Svc.SavePageServer(s.pageServer))
            && SectionAt(m, "pqc") == Some(Svc.SavePqc(s.pqc))
  {
    hide Save, Svc.Save, Svc.SaveChat, Svc.SaveApi, Svc.SaveIpc, Svc.SaveTerminal, Svc.SavePageServer, Svc.SavePqc;
    Svc.Saved(c.services);
    ServiceKey(c, "chat");
    ServiceKey(c, "api");
    ServiceKey(c, "ipc");
    ServiceKey(c, "terminal");
    ServiceKey(c, "page_server");
    ServiceKey(c, "pqc");
  }

  lemma SavedNetworks(c: CoreConfig)
    ensures var m, s := Save(c), c.services;
            && SectionAt(m, "mesh_vpn") == Some(Svc.SaveMeshVpn(s.meshVpn))
            && SectionAt(m, "relay") == Some(Svc.SaveRelay(s.relay))
            && SectionAt(m, "yggdrasil") == Some(Svc.SaveYggdrasil(s.yggdrasil))
            && SectionAt(m, "i2p") == Some(Svc.SaveI2p(s.i2p))
            && SectionAt(m, "group_threads") == Some(Svc.SaveGroupThreads(s.groupThreads))
  {
    hide Save, Svc.Save, Svc.SaveMeshVpn, Svc.SaveRelay, Svc.SaveYggdrasil, Svc.SaveI2p, Svc.SaveGroupThreads;
    Svc.Saved(c.services);
    ServiceKey(c, "mesh_vpn");
    ServiceKey(c, "relay");
    ServiceKey(c, "yggdrasil");
    ServiceKey(c, "i2p");
    ServiceKey(c, "group_threads");
  }

  /** The services of a saved configuration, over defaults without a shell, a
      list of shells, a page server name or demo pages. */
  lemma ServicesSurvive(host: Host, c: CoreConfig, base: Svc.Services)
    requires base.terminal.defaultShell.None? && base.terminal.allowedShells == {}
    requires base.pageServer.nodeName.None? && !base.pageServer.demo
    ensures ChatAt(host, Save(c), base.chat) == Ok(c.services.chat)
    ensures ApiAt(host, Save(c), base.api) == Ok(c.services.api)
    ensures base.chat == c.services.chat && base.api == c.services.api ==>
              LaterServices(host, Save(c), base) == Svc.Normalise(host, c.services)
  {
    hide Save, SectionAt, Svc.SaveChat, Svc.SaveApi, Svc.SaveIpc, Svc.SaveTerminal, Svc.SavePageServer, Svc.SavePqc,
         Svc.SaveMeshVpn, Svc.SaveRelay, Svc.SaveYggdrasil, Svc.SaveI2p, Svc.SaveGroupThreads, Svc.LoadChat,
             Svc.LoadApi,
         Svc.LoadIpc, Svc.LoadTerminal, Svc.LoadPageServer, Svc.LoadPqc, Svc.LoadMeshVpn, Svc.LoadRelay,
         Svc.LoadYggdrasil, Svc.LoadI2p, Svc.LoadGroupThreads, Svc.NormalIpc, Svc.NormalPageServer, Svc.NormalTerminal;
    var s := c.services;
    SavedServices(c);
    SavedNetworks(c);
    Svc.ChatSurvives(host, s.chat, base.chat);
    Svc.ApiSurvives(host, s.api, base.api);
    Svc.IpcSurvives(host, s.ipc, base.ipc);
    Svc.TerminalSurvives(host, s.terminal, base.terminal);
    Svc.PageServerSurvives(host, s.pageServer, base.pageServer);
    Svc.PqcSurvives(host, s.pqc);
    Svc.MeshVpnSurvives(host, s.meshVpn);
    Svc.RelaySurvives(host, s.relay);
    Svc.YggdrasilSurvives(host, s.yggdrasil);
    Svc.I2pSurvives(host, s.i2p);
    Svc.GroupThreadsSurvive(host, s.groupThreads);
  }

  lemma RbacSurvives(host: Host, c: CoreConfig)
    ensures RbacConfig.ParseRbacResult(host, Save(c)) == Ok(RbacConfig.Normalise(c.rbac))
  {
    hide Save, RbacConfig.Save, RbacConfig.ParseSection, RbacConfig.Normalise;
    SavedSections(c);
    RbacConfig.LoadOfSaved(host, c.rbac);
  }

  /** Only paths of unknown users fail, all with one exception, so the order
      in which sections are read does not show. */
  lemma LoadOfSavedSections(host: Host, c: CoreConfig)
    ensures LoadSections(host, Save(c), ProfileDefaults(host, c.profile)) == Normalise(host, c)
  {
    hide Save, SaveReticulum, SaveIdentity, SaveRpc, SaveDiscovery, SaveNotifications, SaveLxmf,
         LoadReticulum, LoadIdentity, LoadRpc, LoadDiscovery, LoadNotifications, LoadLxmf,
         NormalReticulum, NormalIdentity, NormalDiscovery, NormalNotifications, NormalLxmf,
         RbacConfig.ParseRbacResult, RbacConfig.Save, RbacConfig.Normalise, SectionAt, WELL_KNOWN_HUBS,
         ChatAt, ApiAt, LaterServices, Svc.Normalise, Svc.DefaultChatbot, PoisonKeys;
    var base := ProfileDefaults(host, c.profile);
    SavedSections(c);
    ReticulumSurvives(host, c.reticulum, base.reticulum);
    IdentitySurvives(host, c.identity);
    RpcSurvives(c.rpc, base.rpc);
    DiscoverySurvives(host, c.discovery);
    NotificationsSurvive(host, c.notifications);
    LxmfSurvives(host, c.lxmf, base.lxmf);
    ServicesSurvive(host, c, base.services);
    ServicesSurvive(host, c, base.services.(chat := c.services.chat, api := c.services.api));
    RbacSurvives(host, c);
  }

  lemma UnreadInCore(c: CoreConfig)
    ensures var m := SaveCore(c);
            && "security" in m
            && m["security"] == Dict(map["strict_binary_verification" := Bool(c.strictBinaryVerification)])
            && "logging" in m && m["logging"] == Dict(map["boundary_sink" := Bool(c.boundarySink)])
  {
    hide SaveReticulum, SaveIdentity, SaveRpc, SaveDiscovery, SaveNotifications, SaveLxmf, RbacConfig.Save,
         ProfileValue;
  }

  /** What is written though nothing reads it. */
  lemma UnreadSections(c: CoreConfig)
    ensures var m := Save(c);
            && "security" in m
            && m["security"] == Dict(map["strict_binary_verification" := Bool(c.strictBinaryVerification)])
            && "logging" in m && m["logging"] == Dict(map["boundary_sink" := Bool(c.boundarySink)])
  {
    hide *;
    UnreadInCore(c);
    CoreKey(c, "security");
    CoreKey(c, "logging");
  }

  lemma NoPoison(c: CoreConfig)
    ensures PoisonKeys(Save(c)) == []
  {
    hide *;
    SavedSections(c);
  }

  /** Loading a saved configuration gives its normal form. */
  lemma LoadOfSaved(host: Host, c: CoreConfig)
    ensures Load(host, Dict(Save(c))) == Normalise(host, c)
  {
    hide Save, LoadSections, Normalise, ProfileAt, PoisonKeys;
    SavedProfile(c);
    NoPoison(c);
    LoadOfSavedSections(host, c);
  }

  predicate NormalForm(c: CoreConfig) {
    && NormalReticulumForm(c.reticulum, c.profile)
    && NormalIdentityForm(c.identity)
    && NormalDiscoveryForm(c.discovery)
    && HourOk(c.notifications.quietStart) && HourOk(c.notifications.quietEnd)
    && NormalLxmfForm(c.lxmf, c.profile)
    && Svc.NormalForm(c.services)
    && RbacConfig.NormalForm(c.rbac) && RbacConfig.WellKeyed(c.rbac)
    && !c.strictBinaryVerification && !c.boundarySink
  }

  /** The promised round trip, load(save(c)) == c, holds exactly for
      configurations in normal form. */
  lemma RoundTripIffNormal(host: Host, c: CoreConfig)
    requires HostOk(host)
    ensures Load(host, Dict(Save(c))) == Ok(c) <==> NormalForm(c)
  {
    hide Load, Save, NormalReticulum, NormalReticulumForm, NormalIdentity, NormalIdentityForm, NormalDiscovery,
         NormalDiscoveryForm, NormalLxmf, NormalLxmfForm, RbacConfig.Normalise, RbacConfig.NormalForm,
         RbacConfig.WellKeyed, DefaultReticulum, DefaultLxmf, Svc.Normalise, Svc.NormalForm;
    LoadOfSaved(host, c);
    Svc.NormalFixpoint(host, c.services);
    ReticulumFixpoint(host, c.reticulum, c.profile);
    IdentityFixpoint(c.identity);
    DiscoveryFixpoint(c.discovery);
    LxmfFixpoint(c.lxmf, c.profile);
    RbacRoundTrip(host, c.rbac);
  }

  lemma RbacRoundTrip(host: Host, p: Rbac.Rules)
    ensures RbacConfig.Normalise(p) == p <==> RbacConfig.NormalForm(p) && RbacConfig.WellKeyed(p)
  {
    hide RbacConfig.ParseSection, RbacConfig.Normalise, RbacConfig.NormalForm, RbacConfig.WellKeyed, RbacConfig.Save;
    RbacConfig.LoadOfSaved(host, p);
    RbacConfig.RoundTripIffNormal(host, p);
  }

  /** A prefix of blanks only is the one thing a second round still changes. */
  predicate NoBlankPrefix(c: CoreConfig) {
    forall b :: b in c.rbac.blocked && b != "" ==> !RbacConfig.OnlySpace(b)
  }

  /** Saving and loading is a normalisation, load(save(n)) == n for
      n = load(save(c)), exactly when no blocked prefix is blank. */
  lemma SecondRoundIff(host: Host, c: CoreConfig)
    requires HostOk(host)
    ensures var first := Load(host, Dict(Save(c)));
            first.Ok? ==> (Load(host, Dict(Save(first.value))) == first <==> NoBlankPrefix(c))
  {
    hide Load, Save, NormalReticulum, NormalIdentity, NormalDiscovery, NormalLxmf, RbacConfig.Normalise,
         RbacConfig.OnlySpace, DefaultReticulum, DefaultLxmf, Svc.Normalise;
    Svc.NormalFixpoint(host, c.services);
    LoadOfSaved(host, c);
    if Load(host, Dict(Save(c))).Ok? {
      LoadOfSaved(host, Load(host, Dict(Save(c))).value);
    }
    ReticulumFixpoint(host, c.reticulum, c.profile);
    IdentityFixpoint(c.identity);
    DiscoveryFixpoint(c.discovery);
    LxmfFixpoint(c.lxmf, c.profile);
    RbacConfig.SecondPassIff(c.rbac);
  }

  /** Whatever was saved, the configured peers come back first and in order,
      and every well-known hub is there. */
  lemma PeersAfterRoundTrip(host: Host, c: CoreConfig)
    ensures var r := Load(host, Dict(Save(c)));
            var ps := c.reticulum.interfaces.peers;
            r.Ok? ==>
              && (ps != [] ==> NormalPeerList(ps) <= r.value.reticulum.interfaces.peers)
              && forall h :: h in WELL_KNOWN_HUBS ==> Present(h, r.value.reticulum.interfaces.peers)
  {
    hide Load, Save, WELL_KNOWN_HUBS, NormalOverride, NormalPath, WithHubs, NormalIdentity, NormalDiscovery, NormalLxmf,
         NormalNotifications, RbacConfig.Normalise, Present, SameEndpoint, NormalPeer;
    LoadOfSaved(host, c);
    var ps := c.reticulum.interfaces.peers;
    PeersFixpoint(ps);
    HubsPresentAfterMerge(if ps == [] then WELL_KNOWN_HUBS else NormalPeerList(ps));
  }

  // ------------------------------------------------------------- empty sections

  const EMPTY := Dict(map[])

  function BareServices(): Section {
    map["chat" := EMPTY, "api" := EMPTY, "ipc" := EMPTY, "terminal" := EMPTY, "page_server" := EMPTY, "pqc" := EMPTY,
        "mesh_vpn" := EMPTY, "relay" := EMPTY, "yggdrasil" := EMPTY, "i2p" := EMPTY, "group_threads" := EMPTY]
  }

  function BareCore(profile: Profile): Section {
    map["profile" := Str(ProfileValue(profile)), "reticulum" := EMPTY, "identity" := EMPTY, "rpc" := EMPTY,
        "discovery" := EMPTY, "notifications" := EMPTY, "lxmf" := EMPTY, "rbac" := EMPTY]
  }

  /** A file that names a profile and leaves every section empty. */
  function BareFile(profile: Profile): Section {
    BareCore(profile) + BareServices()
  }

  lemma BareCoreKey(profile: Profile, key: string)
    requires key !in BareServices()
    ensures key in BareFile(profile) <==> key in BareCore(profile)
    ensures key in BareFile(profile) ==> BareFile(profile)[key] == BareCore(profile)[key]
  {
    hide BareCore, BareServices;
  }

  lemma BareSections(profile: Profile)
    ensures var m := BareFile(profile);
            && SectionAt(m, "reticulum") == Some(map[]) && SectionAt(m, "identity") == Some(map[])
            && SectionAt(m, "rpc") == Some(map[]) && SectionAt(m, "discovery") == Some(map[])
            && SectionAt(m, "notifications") == Some(map[]) && SectionAt(m, "lxmf") == Some(map[])
            && "rbac" in m && m["rbac"] == EMPTY
  {
    hide BareFile, BareServices, BareCore;
    InBareCore(profile);
    BareCoreKey(profile, "reticulum");
    BareCoreKey(profile, "identity");
    BareCoreKey(profile, "rpc");
    BareCoreKey(profile, "discovery");
    BareCoreKey(profile, "notifications");
    BareCoreKey(profile, "lxmf");
    BareCoreKey(profile, "rbac");
  }

  lemma InBareCore(profile: Profile)
    ensures var m := BareCore(profile);
            forall key :: key in {"reticulum", "identity", "rpc", "discovery", "notifications", "lxmf", "rbac"} ==>
              key in m && m[key] == EMPTY && key !in BareServices()
  {
  }

  lemma BareProfile(profile: Profile)
    ensures PoisonKeys(BareFile(profile)) == [] && ProfileAt(BareFile(profile)) == profile
  {
    hide BareFile;
    BareCoreKey(profile, "profile");
    BareCoreKey(profile, "meshtastic");
    BareCoreKey(profile, "mqtt");
  }

  lemma InBareServices(profile: Profile, key: string)
    requires key in {"chat", "api", "ipc", "terminal", "page_server", "pqc", "mesh_vpn", "relay", "yggdrasil", "i2p",
                     "group_threads"}
    ensures SectionAt(BareFile(profile), key) == Some(map[])
  {
    hide BareCore;
    assert key in BareServices() && BareServices()[key] == EMPTY;
  }

  lemma BareServiceSections(profile: Profile)
    ensures var m := BareFile(profile);
            && SectionAt(m, "chat") == Some(map[]) && SectionAt(m, "api") == Some(map[])
            && SectionAt(m, "ipc") == Some(map[]) && SectionAt(m, "terminal") == Some(map[])
            && SectionAt(m, "page_server") == Some(map[]) && SectionAt(m, "pqc") == Some(map[])
            && SectionAt(m, "mesh_vpn") == Some(map[]) && SectionAt(m, "relay") == Some(map[])
            && SectionAt(m, "yggdrasil") == Some(map[]) && SectionAt(m, "i2p") == Some(map[])
            && SectionAt(m, "group_threads") == Some(map[])
  {
    hide BareFile, SectionAt;
    InBareServices(profile, "chat");
    InBareServices(profile, "api");
    InBareServices(profile, "ipc");
    InBareServices(profile, "terminal");
    InBareServices(profile, "page_server");
    InBareServices(profile, "pqc");
    InBareServices(profile, "mesh_vpn");
    InBareServices(profile, "relay");
    InBareServices(profile, "yggdrasil");
    InBareServices(profile, "i2p");
    InBareServices(profile, "group_threads");
  }

  lemma EmptyReticulum(host: Host, base: Reticulum)
    requires base.operatorIdentityPath.None? && base.configPathOverride.None?
    ensures LoadReticulum(host, map[], base) == Ok(base)
  {
  }

  lemma EmptyLxmf(host: Host, base: Lxmf)
    ensures LoadLxmf(host, map[], base) == Ok(base)
  {
  }

  lemma EmptyOthers(host: Host, rpc: Rpc)
    ensures LoadIdentity(host, map[], DEFAULT_IDENTITY) == DEFAULT_IDENTITY && LoadRpc(map[], rpc) == rpc
    ensures LoadDiscovery(host, map[], DEFAULT_DISCOVERY) == DEFAULT_DISCOVERY
    ensures LoadNotifications(host, map[]) == Ok(Notifications(true, None, None))
  {
  }

  lemma EmptyChatAndApi(host: Host, profile: Profile, base: Svc.Services)
    requires base.api.auth == Svc.Auth(false, true, 86400)
    ensures ChatAt(host, BareFile(profile), base.chat) == Ok(base.chat)
    ensures ApiAt(host, BareFile(profile), base.api) == Ok(base.api)
  {
    hide BareFile, SectionAt;
    BareServiceSections(profile);
    NothingInside("chatbot");
    NothingInside("metrics");
    NothingInside("auth");
  }

  lemma EmptyLater(host: Host)
    ensures Svc.LoadPqc(host, map[]) == Svc.Pqc(true, 24, false, true)
    ensures Svc.LoadMeshVpn(host, map[]) == Ok(Svc.MeshVpn(false, 51820, "fd73:7479:7265:6e65", false, "", "lazy"))
    ensures Svc.LoadRelay(host, map[]) == Ok(Svc.Relay(false, 16, 2, 52428800, 900, false, []))
    ensures Svc.LoadYggdrasil(host, map[]) == Ok(Svc.DEFAULT_YGGDRASIL)
    ensures Svc.LoadI2p(host, map[]) == Ok(Svc.I2p(Svc.Disabled, "127.0.0.1", 4444, 4445, 7651, "", 3600, 45.0))
    ensures Svc.LoadGroupThreads(host, map[]) == Svc.GroupThreads(true, Svc.Balanced, false, true, false, true, true)
  {
    hide Lower;
    BalancedByDefault();
  }

  lemma EmptyServices(host: Host, profile: Profile)
    ensures var m, base := BareFile(profile), Svc.DefaultServices(host, profile.HubProfile?, profile.OperatorProfile?);
            && ChatAt(host, m, base.chat) == Ok(base.chat) && ApiAt(host, m, base.api) == Ok(base.api)
            && LaterServices(host, m, base) == Ok(base)
  {
    hide BareFile, SectionAt, Svc.DefaultChatbot, ChatAt, ApiAt, Svc.LoadPqc, Svc.LoadMeshVpn,
         Svc.LoadRelay, Svc.LoadYggdrasil, Svc.LoadI2p, Svc.LoadGroupThreads;
    BareServiceSections(profile);
    EmptyChatAndApi(host, profile, Svc.DefaultServices(host, profile.HubProfile?, profile.OperatorProfile?));
    EmptyLater(host);
  }

  lemma NothingInside(key: string)
    ensures SectionAt(map[], key) == None
  {
  }

  lemma BalancedByDefault()
    ensures Svc.TierOf(Lower("balanced")) == Svc.Balanced
  {
    LowerFixpoint("balanced");
  }

  /** Empty sections leave the profile's defaults, but for notifications: those
      restart from the class default, so an empty section turns them on where
      the profile has them off. */
  lemma EmptySectionsKeepDefaults(host: Host, profile: Profile)
    ensures Load(host, Dict(BareFile(profile)))
            == Ok(ProfileDefaults(host, profile).(notifications := Notifications(true, None, None)))
    ensures Load(host, Dict(BareFile(profile))) == Ok(ProfileDefaults(host, profile)) <==> profile.OperatorProfile?
  {
    hide BareFile, LoadReticulum, LoadLxmf, LoadIdentity, LoadRpc, LoadDiscovery, LoadNotifications, ChatAt, ApiAt,
         LaterServices, RbacConfig.ParseSection, SectionAt, PoisonKeys, ProfileAt, WELL_KNOWN_HUBS, Svc.DefaultServices;
    var base := ProfileDefaults(host, profile);
    BareSections(profile);
    BareProfile(profile);
    EmptyReticulum(host, base.reticulum);
    EmptyLxmf(host, base.lxmf);
    EmptyOthers(host, base.rpc);
    EmptyServices(host, profile);
    RbacConfig.EmptySectionIsDefault(host);
  }
}
