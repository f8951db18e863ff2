// explodeClash (src/parser/subparser.cpp:1380-1845): the proxies of a Clash
// configuration, read from its parsed YAML tree.
//
// The C++ function declares every local it reads into *outside* the loop over the
// proxy list.  The YAML operator `node >>= local` assigns `safe_as` of the node, so
// a key an entry leaves out resets the local to "" (an empty list for the DNS
// servers); only `node >> local` (the snell "psk") assigns just when the node is
// defined.  A local the source assigns under a condition (the WebSocket host of
// vmess, the ss plugin options, the hysteria2 ECH settings, the snell password)
// keeps the value the previous entry left in it.  Those conditions call yaml-cpp's
// `IsDefined()`, which also holds for an explicit null (`key: ~`); the model's
// `IsDefined` is true for such a key too, while `safe_as` reads the null as "".
// The model threads the locals through the loop as an environment `Locals`, so
// this carry-over is part of what is proved.

module ClashConfig {
  import opened Utils
  import opened Text
  import opened Proxies
  import opened Constructors

  /** The string locals of explodeClash by name (absent means ""), and its DNS list. */
  datatype Locals = Locals(text: map<string, string>, dns: seq<string>)

  /** The locals before the first entry: only `aid` ("0") and `net` ("tcp") start non-empty. */
  const Start := Locals(map["aid" := "0", "net" := "tcp"], [])

  function Get(env: Locals, name: string): string
  {
    if name in env.text then env.text[name] else ""
  }

  /** Plain assignment to a local. */
  function Put(env: Locals, name: string, v: string): (r: Locals)
    ensures Get(r, name) == v
    ensures r.dns == env.dns
  {
    env.(text := env.text[name := v])
  }

  /**
   * yaml-cpp's `t[key].IsDefined()`: the object holds the key, even with an explicit
   * null as its value.  A walk over the entries, as `Member` makes.
   */
  predicate IsDefined(t: Tree, key: string)
    decreases if t.Dict? then |t.entries| else 0
  {
    t.Dict? && t.entries != [] && (t.entries[0].0 == key || IsDefined(Dict(t.entries[1..]), key))
  }

  /** The walk finds exactly the keys the object holds, and a missing key reads as null. */
  lemma {:induction false} IsDefinedHasMember(t: Tree, key: string)
    ensures IsDefined(t, key) <==> HasMember(t, key)
    ensures !IsDefined(t, key) ==> Member(t, key) == Null
    decreases if t.Dict? then |t.entries| else 0
  {
    if t.Dict? && t.entries != [] {
      var rest := Dict(t.entries[1..]);
      IsDefinedHasMember(rest, key);
      if t.entries[0].0 != key {
        if HasMember(t, key) {
          var i :| 0 <= i < |t.entries| && t.entries[i].0 == key;
          assert rest.entries[i - 1].0 == key;
        }
        if HasMember(rest, key) {
          var i :| 0 <= i < |rest.entries| && rest.entries[i].0 == key;
          assert t.entries[i + 1].0 == key;
        }
      } else {
        assert t.entries[0].0 == key;
      }
    }
  }

  /**
   * `t[key].IsDefined() ? safe_as(t[key]) : d`.  yaml-cpp counts an explicit null
   * as defined, so only a missing key gives `d`; a null reads as "".
   */
  function TextAt(t: Tree, key: string, d: string): string
  {
    if IsDefined(t, key) then AsText(Member(t, key)) else d
  }

  /**
   * Where a ws entry keeps its settings: the node holding them, the path key and the
   * headers key.  These are "ws-opts" when the entry defines it, even as a null, and
   * otherwise the older top-level keys.
   */
  function WsKeys(p: Tree): (Tree, string, string)
  {
    if IsDefined(p, "ws-opts") then (Member(p, "ws-opts"), "path", "headers") else (p, "ws-path", "ws-headers")
  }

  /** `t >>= local`: the local takes `safe_as` of the node, so a missing key empties it. */
  function Read(env: Locals, name: string, t: Tree): (r: Locals)
    ensures Get(r, name) == AsText(t)
    ensures t == Null ==> Get(r, name) == ""
    ensures r.dns == env.dns
  {
    Put(env, name, AsText(t))
  }

  /** `t >> local`: the fail-safe read, which assigns only when the node is defined. */
  function ReadIfDefined(env: Locals, name: string, t: Tree): (r: Locals)
    ensures t == Null ==> r == env
    ensures t != Null ==> Get(r, name) == AsText(t) && r.dns == env.dns
  {
    if t != Null then Put(env, name, AsText(t)) else env
  }

  /** Assigning one local leaves every other local as it was. */
  lemma PutOther(env: Locals, name: string, v: string, other: string)
    requires other != name
    ensures Get(Put(env, name, v), other) == Get(env, other)
  {
  }

  lemma ReadOther(env: Locals, name: string, t: Tree, other: string)
    requires other != name
    ensures Get(Read(env, name, t), other) == Get(env, other)
  {
  }

  /** Reads each (local, key) pair in turn from the members of `p`. */
  function ReadKeys(env: Locals, p: Tree, keys: seq<(string, string)>): (r: Locals)
    decreases |keys|
  {
    if keys == [] then env else ReadKeys(Read(env, keys[0].0, Member(p, keys[0].1)), p, keys[1..])
  }

  /** The texts of the scalars of a list (safe_as of a string array; anything else reads as empty). */
  function Texts(items: seq<Tree>): (r: seq<string>)
    ensures |r| == |items|
    ensures forall i :: 0 <= i < |items| ==> r[i] == AsText(items[i])
  {
    if items == [] then [] else [AsText(items[0])] + Texts(items[1..])
  }

  /** `t >>= dns_server`: the texts of a list, and no server when "dns" is missing. */
  function ReadDns(env: Locals, t: Tree): (r: Locals)
    ensures t.List? ==> r.dns == Texts(t.items)
    ensures !t.List? ==> r.dns == []
    ensures r.text == env.text
  {
    env.(dns := if t.List? then Texts(t.items) else [])
  }

  /** The "alpn" node: its first element when it is a list, the node itself otherwise. */
  function AlpnNode(p: Tree): Tree
  {
    var a := Member(p, "alpn");
    if a.List? then Item(a, 0) else a
  }

  /** The proxy types the switch of explodeClash handles. */
  datatype ClashKind =
    | ClashVmess | ClashVless | ClashSs | ClashSocks5 | ClashSsr | ClashHttp | ClashTrojan
    | ClashSnell | ClashWireguard | ClashHysteria | ClashHysteria2 | ClashTuic | ClashAnyTls

  /** The switch on the "type" local; any other type is skipped. */
  function KindOf(proxyType: string): (r: Option<ClashKind>)
    ensures r == Some(ClashSs) <==> proxyType == "ss"
    ensures r == Some(ClashVmess) <==> proxyType == "vmess"
    ensures r == Some(ClashTrojan) <==> proxyType == "trojan"
  {
    match proxyType
    case "vmess" => Some(ClashVmess)
    case "vless" => Some(ClashVless)
    case "ss" => Some(ClashSs)
    case "socks5" => Some(ClashSocks5)
    case "ssr" => Some(ClashSsr)
    case "http" => Some(ClashHttp)
    case "trojan" => Some(ClashTrojan)
    case "snell" => Some(ClashSnell)
    case "wireguard" => Some(ClashWireguard)
    case "hysteria" => Some(ClashHysteria)
    case "hysteria2" => Some(ClashHysteria2)
    case "tuic" => Some(ClashTuic)
    case "anytls" => Some(ClashAnyTls)
    case _ => None
  }

  // ---------------------------------------------------------------------------
  // The reads of each branch of the switch

  /** The transport reads of the vmess branch, by network. */
  function VmessTransportReads(env: Locals, net: string, p: Tree): Locals
  {
    match net
    case "http" =>
      var opts := Member(p, "http-opts");
      var e1 := Read(env, "path", Item(Member(opts, "path"), 0));
      var e2 := Read(e1, "host", Item(Member(Member(opts, "headers"), "Host"), 0));
      Put(e2, "edge", "")
    case "ws" =>
      var ws := WsKeys(p);
      var headers := Member(ws.0, ws.2);
      var e1 := Put(env, "path", TextAt(ws.0, ws.1, "/"));
      // a defined Host header replaces the host only when it is not empty
      var wsHost := AsText(Member(headers, "Host"));
      var e2 := if IsDefined(ws.0, ws.2) && IsDefined(headers, "Host") && wsHost != "" then Put(e1, "host", wsHost) else e1;
      Read(e2, "edge", Member(headers, "Edge"))
    case "h2" =>
      var opts := Member(p, "h2-opts");
      var e1 := Read(env, "path", Member(opts, "path"));
      var e2 := Read(e1, "host", Item(Member(opts, "host"), 0));
      Put(e2, "edge", "")
    case "grpc" =>
      var e1 := Read(env, "host", Member(p, "servername"));
      var e2 := Read(e1, "path", Member(Member(p, "grpc-opts"), "grpc-service-name"));
      Put(e2, "edge", "")
    case _ => env
  }

  function VmessReads(env: Locals, p: Tree): Locals
  {
    var e1 := ReadKeys(env, p, [("id", "uuid"), ("aid", "alterId"), ("cipher", "cipher")]);
    var net := TextAt(p, "network", "tcp");
    var e2 := Read(Put(e1, "net", net), "sni", Member(p, "servername"));
    var e3 := VmessTransportReads(e2, net, p);
    Put(e3, "tls", if AsText(Member(p, "tls")) == "true" then "tls" else "")
  }

  /** The block-local transport locals of the vless branch. */
  datatype VlessLocals = VlessLocals(network: string, path: string, host: string, grpcServiceName: string)

  /**
   * The transport locals of the vless branch (network, path and host start empty
   * for every entry).  A gRPC service name is kept only for an explicit "grpc"
   * network; a gRPC section under another network switches it to grpc.
   */
  function VlessTransportLocals(p: Tree): (t: VlessLocals)
    ensures t.network != ""
    ensures t.grpcServiceName != "" ==> t.network == "grpc" && t.grpcServiceName == t.path
    ensures TextAt(p, "network", "tcp") !in {"ws", "h2", "grpc", "http"} ==>
              t.network == (if IsDefined(p, "grpc-opts") || IsDefined(p, "grpc-service-name") then "grpc" else "tcp")
  {
    var network := TextAt(p, "network", "tcp");
    var grpcOpts := IsDefined(p, "grpc-opts");
    var grpcName := IsDefined(p, "grpc-service-name");
    var grpcPath := if grpcOpts then AsText(Member(Member(p, "grpc-opts"), "grpc-service-name"))
                    else TextAt(p, "grpc-service-name", "");
    if network == "ws" then
      var ws := WsKeys(p);
      var headers := Member(ws.0, ws.2);
      var host := if IsDefined(ws.0, ws.2) && IsDefined(headers, "Host") then AsText(Member(headers, "Host")) else "";
      VlessLocals("ws", TextAt(ws.0, ws.1, "/"), host, "")
    else if network == "h2" then
      var opts := Member(p, "h2-opts");
      var hosts := Member(opts, "host");
      var host := if IsDefined(p, "h2-opts") && hosts.List? && Size(hosts) > 0 then AsText(Item(hosts, 0)) else "";
      VlessLocals("h2", if IsDefined(p, "h2-opts") then AsText(Member(opts, "path")) else "", host, "")
    else if network == "grpc" then
      VlessLocals("grpc", grpcPath, "", grpcPath)
    else if network == "http" then
      var opts := Member(p, "http-opts");
      var paths := Member(opts, "path");
      var hosts := Member(Member(opts, "headers"), "Host");
      var path := if IsDefined(p, "http-opts") && paths.List? && Size(paths) > 0 then AsText(Item(paths, 0)) else "";
      var host := if IsDefined(p, "http-opts") && IsDefined(opts, "headers") && hosts.List? && Size(hosts) > 0
                  then AsText(Item(hosts, 0)) else "";
      VlessLocals("http", path, host, "")
    else if grpcOpts || grpcName then
      VlessLocals("grpc", grpcPath, "", "")
    else
      VlessLocals("tcp", "", "", "")
  }

  /**
   * The transport fields of a fresh record after the vless branch has written its
   * locals: a WebSocket path and host are mirrored into the WebSocket fields.
   */
  function Written(v: VlessLocals): (t: Transport)
    ensures t.network == v.network && t.path == v.path && t.host == v.host
    ensures t.network == "ws" ==> t.wsPath == t.path && t.wsHeaders == t.host
    ensures t.network != "ws" ==> t.wsPath == "" && t.wsHeaders == ""
  {
    var ws := v.network == "ws";
    Transport(v.network, v.path, v.host, v.grpcServiceName, if ws then v.path else "", if ws then v.host else "")
  }

  function VlessReads(env: Locals, p: Tree): Locals
  {
    var e1 := ReadKeys(env, p, [("uuid", "uuid"), ("sni", "servername")]);
    var e2 := Read(e1, "alpn", AlpnNode(p));
    var e3 := ReadKeys(e2, p, [("fingerprint", "fingerprint"), ("flow", "flow"),
                               ("client_fingerprint", "client-fingerprint")]);
    if IsDefined(p, "reality-opts") then ReadKeys(e3, Member(p, "reality-opts"), [("public_key", "public-key"), ("short_id", "short-id")])
    else e3
  }

  /** The options string of the obfs plugin. */
  function ObfsOpts(mode: string, host: string): (r: string)
    ensures StartsWith(r, "obfs=" + mode)
    ensures host == "" ==> r == "obfs=" + mode
  {
    "obfs=" + mode + (if host == "" then "" else ";obfs-host=" + host)
  }

  /** The options string of v2ray-plugin; a set `mux` is written twice, the second time prefixed again. */
  function V2rayOpts(mode: string, tls: string, mux: string, host: string, path: string): (r: string)
    ensures StartsWith(r, "mode=" + mode + ";" + tls + mux)
  {
    "mode=" + mode + ";" + tls + mux + (if host != "" then "host=" + host + ";" else "")
    + (if path != "" then "path=" + path + ";" else "") + (if mux != "" then "mux=" + mux + ";" else "")
  }

  /** The plugin reads of the ss branch; an unknown "plugin" name leaves the plugin local as it was. */
  function SsPluginReads(lib: Lib, env: Locals, p: Tree): Locals
  {
    var opts := Member(p, "plugin-opts");
    if IsDefined(p, "plugin") then
      var name := AsText(Member(p, "plugin"));
      if name == "obfs" then
        var e1 := Put(env, "plugin", "obfs-local");
        if IsDefined(p, "plugin-opts") then ReadKeys(e1, opts, [("pluginopts_mode", "mode"), ("pluginopts_host", "host")]) else e1
      else if name == "v2ray-plugin" then
        var e1 := Put(env, "plugin", "v2ray-plugin");
        if IsDefined(p, "plugin-opts") then
          var e2 := ReadKeys(e1, opts, [("pluginopts_mode", "mode"), ("pluginopts_host", "host")]);
          var e3 := Put(e2, "tls", if lib.yamlBool(Member(opts, "tls")) then "tls;" else "");
          var e4 := Read(e3, "path", Member(opts, "path"));
          Put(e4, "pluginopts_mux", if lib.yamlBool(Member(opts, "mux")) then "mux=4;" else "")
        else e1
      else env
    else if IsDefined(p, "obfs") then
      ReadKeys(Put(env, "plugin", "obfs-local"), p, [("pluginopts_mode", "obfs"), ("pluginopts_host", "obfs-host")])
    else Put(env, "plugin", "")
  }

  /** The plugin options built from the plugin locals; another plugin leaves them as they were. */
  function SsPluginOpts(env: Locals): (r: Locals)
    ensures Get(env, "plugin") !in {"simple-obfs", "obfs-local", "v2ray-plugin"} ==> r == env
  {
    var plugin := Get(env, "plugin");
    if plugin == "simple-obfs" || plugin == "obfs-local" then
      Put(env, "pluginopts", ObfsOpts(Get(env, "pluginopts_mode"), Get(env, "pluginopts_host")))
    else if plugin == "v2ray-plugin" then
      Put(env, "pluginopts", V2rayOpts(Get(env, "pluginopts_mode"), Get(env, "tls"), Get(env, "pluginopts_mux"),
                                       Get(env, "pluginopts_host"), Get(env, "path")))
    else env
  }

  /**
   * The go-shadowsocks2 cipher names: AEAD_CHACHA20_POLY1305 becomes
   * chacha20-ietf-poly1305, and any other name holding "AEAD" loses its "AEAD_"
   * prefixes, has '_' turned into '-' and is lower-cased.
   */
  function GoCipher(cipher: string): (r: string)
    ensures !Contains(cipher, "AEAD") ==> r == cipher
  {
    if cipher == "AEAD_CHACHA20_POLY1305" then "chacha20-ietf-poly1305"
    else if Contains(cipher, "AEAD") then ToLower(ReplaceAll(ReplaceAll(cipher, "AEAD_", ""), "_", "-"))
    else cipher
  }

  function SsReads(lib: Lib, env: Locals, p: Tree): Locals
  {
    var e1 := ReadKeys(env, p, [("cipher", "cipher"), ("password", "password")]);
    var e2 := SsPluginOpts(SsPluginReads(lib, e1, p));
    Put(e2, "cipher", GoCipher(Get(e2, "cipher")))
  }

  function SsrReads(env: Locals, p: Tree): Locals
  {
    var e1 := Read(env, "cipher", Member(p, "cipher"));
    var e2 := if Get(e1, "cipher") == "dummy" then Put(e1, "cipher", "none") else e1;
    var e3 := ReadKeys(e2, p, [("password", "password"), ("protocol", "protocol"), ("obfs", "obfs")]);
    var protoKey := if IsDefined(p, "protocol-param") then "protocol-param" else "protocolparam";
    var obfsKey := if IsDefined(p, "obfs-param") then "obfs-param" else "obfsparam";
    ReadKeys(e3, p, [("protoparam", protoKey), ("obfsparam", obfsKey)])
  }

  function TrojanReads(env: Locals, p: Tree): Locals
  {
    var e1 := ReadKeys(env, p, [("password", "password"), ("host", "sni"), ("net", "network")]);
    match Get(e1, "net")
    case "grpc" => Read(e1, "path", Member(Member(p, "grpc-opts"), "grpc-service-name"))
    case "ws" =>
      var wsOpts := Member(p, "ws-opts");
      var e2 := Read(e1, "path", Member(wsOpts, "path"));
      var headers := Member(wsOpts, "headers");
      // the Host header replaces the SNI host only when it is defined
      if IsDefined(wsOpts, "headers") && IsDefined(headers, "Host") then Read(e2, "host", Member(headers, "Host")) else e2
    case _ => Put(Put(e1, "net", "tcp"), "path", "")
  }

  function SnellReads(env: Locals, p: Tree): Locals
  {
    // the pre-shared key is read with the fail-safe `>>`: a missing "psk" keeps the password
    var e1 := ReadIfDefined(env, "password", Member(p, "psk"));
    var obfsOpts := Member(p, "obfs-opts");
    var e2 := ReadKeys(e1, obfsOpts, [("obfs", "mode"), ("host", "host")]);
    Read(e2, "aid", Member(p, "version"))
  }

  function WireguardReads(env: Locals, p: Tree): Locals
  {
    var e1 := ReadKeys(env, p, [("public_key", "public-key"), ("private_key", "private-key")]);
    var e2 := ReadDns(e1, Member(p, "dns"));
    ReadKeys(e2, p, [("mtu", "mtu"), ("password", "preshared-key"), ("ip", "ip"), ("ipv6", "ipv6")])
  }

  function HysteriaReads(env: Locals, p: Tree): Locals
  {
    var e1 := ReadKeys(env, p, [("ports", "ports"), ("protocol", "protocol"), ("obfs_protocol", "obfs-protocol"),
                                ("up", "up"), ("up_speed", "up-speed"), ("down", "down"),
                                ("down_speed", "down-speed"), ("auth", "auth"), ("auth_str", "auth-str")]);
    var e2 := if Get(e1, "auth_str") == "" then Read(e1, "auth_str", Member(p, "auth_str")) else e1;
    var e3 := ReadKeys(e2, p, [("obfs", "obfs"), ("sni", "sni"), ("fingerprint", "fingerprint")]);
    var e4 := Read(e3, "alpn", AlpnNode(p));
    var e5 := ReadKeys(e4, p, [("ca", "ca"), ("ca_str", "ca-str"), ("recv_window_conn", "recv-window-conn"),
                               ("recv_window", "recv-window"), ("disable_mtu_discovery", "disable-mtu-discovery")]);
    var e6 := if Get(e5, "disable_mtu_discovery") == "" then Read(e5, "disable_mtu_discovery", Member(p, "disable_mtu_discovery")) else e5;
    Read(e6, "hop_interval", Member(p, "hop-interval"))
  }

  function Hysteria2Reads(env: Locals, p: Tree): Locals
  {
    var e1 := ReadKeys(env, p, [("ports", "ports"), ("up", "up"), ("down", "down"), ("password", "password")]);
    var e2 := if Get(e1, "password") == "" then Read(e1, "password", Member(p, "auth")) else e1;
    var e3 := ReadKeys(e2, p, [("obfs", "obfs"), ("obfs_password", "obfs-password"), ("sni", "sni"),
                               ("fingerprint", "fingerprint")]);
    var e4 := Read(e3, "alpn", AlpnNode(p));
    var e5 := ReadKeys(e4, p, [("ca", "ca"), ("ca_str", "ca-str"), ("cwnd", "cwnd"), ("hop_interval", "hop-interval")]);
    var ech := Member(p, "ech-opts");
    var e6 := if IsDefined(p, "ech-opts") then
                var x := if IsDefined(ech, "enable") then Put(e5, "ech_enable", AsText(Member(ech, "enable"))) else e5;
                if IsDefined(ech, "config") then Read(x, "ech_config", Member(ech, "config")) else x
              else e5;
    ReadKeys(e6, p, [("initial_stream_receive_window", "initial-stream-receive-window"),
                     ("max_stream_receive_window", "max-stream-receive-window"),
                     ("initial_connection_receive_window", "initial-connection-receive-window"),
                     ("max_connection_receive_window", "max-connection-receive-window")])
  }

  function TuicReads(env: Locals, p: Tree): Locals
  {
    var e1 := ReadKeys(env, p, [("uuid", "uuid"), ("ip", "ip"), ("password", "password"),
                                ("heartbeat_interval", "heartbeat_interval")]);
    var e2 := Read(e1, "alpn", AlpnNode(p));
    ReadKeys(e2, p, [("disable_sni", "disable-sni"), ("reduce_rtt", "reduce-rtt"),
                     ("request_timeout", "request-timeout"), ("udp_relay_mode", "udp-relay-mode"),
                     ("congestion_controller", "congestion-controller"),
                     ("max_udp_relay_packet_size", "max-udp-relay-packet-size"),
                     ("max_open_streams", "max-open-streams"), ("fast_open", "fast-open")])
  }

  function AnyTlsReads(env: Locals, p: Tree): Locals
  {
    var e1 := ReadKeys(env, p, [("password", "password"), ("sni", "sni")]);
    Read(Read(e1, "alpn", AlpnNode(p)), "fingerprint", Member(p, "fingerprint"))
  }

  function KindReads(lib: Lib, k: ClashKind, env: Locals, p: Tree): Locals
  {
    match k
    case ClashVmess => VmessReads(env, p)
    case ClashVless => VlessReads(env, p)
    case ClashSs => SsReads(lib, env, p)
    case ClashSocks5 => ReadKeys(env, p, [("user", "username"), ("password", "password")])
    case ClashSsr => SsrReads(env, p)
    case ClashHttp => ReadKeys(env, p, [("user", "username"), ("password", "password"), ("tls", "tls")])
    case ClashTrojan => TrojanReads(env, p)
    case ClashSnell => SnellReads(env, p)
    case ClashWireguard => WireguardReads(env, p)
    case ClashHysteria => HysteriaReads(env, p)
    case ClashHysteria2 => Hysteria2Reads(env, p)
    case ClashTuic => TuicReads(env, p)
    case ClashAnyTls => AnyTlsReads(env, p)
  }

  // ---------------------------------------------------------------------------
  // The entries of a configuration

  /**
   * One entry that reaches a constructor: its type, the common locals, the three
   * flags of the entry, the locals after the branch's reads and the block-local
   * transport of a vless entry.
   */
  datatype ClashEntry = ClashEntry(kind: ClashKind, name: string, server: string, port: string,
                                   underlying: string, udp: Tribool, tfo: Tribool, scv: Tribool,
                                   env: Locals, vless: VlessLocals)
  {
    function Local(name: string): string
    {
      Get(env, name)
    }
  }

  /**
   * The reads every entry starts with.  The port local is the entry's own "port",
   * empty when it has none.
   */
  function CommonReads(env: Locals, p: Tree): (r: Locals)
    ensures Get(r, "port") == AsText(Member(p, "port"))
  {
    var e1 := Read(env, "proxytype", Member(p, "type"));
    var e2 := Read(e1, "ps", Member(p, "name"));
    var e3 := Read(e2, "server", Member(p, "server"));
    var e4 := Read(e3, "port", Member(p, "port"));
    ReadOther(e4, "underlying_proxy", Member(p, "underlying-proxy"), "port");
    Read(e4, "underlying_proxy", Member(p, "underlying-proxy"))
  }

  /**
   * One turn of the loop: the locals afterwards, and the entry when it is not
   * skipped.  An entry whose port local is empty or "0", or whose type is none of
   * the thirteen, is skipped after the common reads.
   */
  function ClashStep(lib: Lib, env: Locals, p: Tree): (r: (Locals, Option<ClashEntry>))
    ensures r.1.Some? ==> r.1.value.port != "" && r.1.value.port != "0" && r.0 == r.1.value.env
    ensures r.1.Some? ==> r.1.value.port == AsText(Member(p, "port"))
    ensures AsText(Member(p, "port")) in {"", "0"} ==> r.1.None?
  {
    var e := CommonReads(env, p);
    var port := Get(e, "port");
    if port == "" || port == "0" then (e, None)
    else
      match KindOf(Get(e, "proxytype"))
      case None => (e, None)
      case Some(k) =>
        var after := KindReads(lib, k, e, p);
        var entry := ClashEntry(k, Get(e, "ps"), Get(e, "server"), port, Get(e, "underlying_proxy"),
                                lib.tribool(AsText(Member(p, "udp"))), lib.tribool(AsText(Member(p, "fast-open"))),
                                lib.tribool(AsText(Member(p, "skip-cert-verify"))), after,
                                if k == ClashVless then VlessTransportLocals(p) else VlessLocals("", "", "", ""));
        (after, Some(entry))
  }

  /** A turn of the loop over the proxy list: from the locals and a proxy, the locals afterwards and the entry, if any. */
  type Step = (Locals, Tree) -> (Locals, Option<ClashEntry>)

  /** The turn of explodeClash's loop. */
  function StepOf(lib: Lib): Step
  {
    (env: Locals, p: Tree) => ClashStep(lib, env, p)
  }

  /** The entries a step yields over a list of proxies, the locals threaded from each proxy to the next. */
  function Collect(step: Step, env: Locals, items: seq<Tree>): seq<ClashEntry>
    decreases |items|
  {
    if items == [] then []
    else
      var s := step(env, items[0]);
      (if s.1.Some? then [s.1.value] else []) + Collect(step, s.0, items[1..])
  }

  /** The entries of a list of proxies, the locals starting as `env`. */
  function ClashFold(lib: Lib, env: Locals, items: seq<Tree>): seq<ClashEntry>
  {
    Collect(StepOf(lib), env, items)
  }

  /** One turn of the fold, seen from the entries already collected. */
  lemma FoldTurn(step: Step, env: Locals, items: seq<Tree>, i: nat, done: seq<ClashEntry>)
    requires i < |items|
    ensures var s := step(env, items[i]);
            done + Collect(step, env, items[i..])
            == (done + (if s.1.Some? then [s.1.value] else [])) + Collect(step, s.0, items[i + 1..])
  {
    var s := step(env, items[i]);
    assert items[i..][0] == items[i] && items[i..][1..] == items[i + 1..];
    Associative(done, if s.1.Some? then [s.1.value] else [], Collect(step, s.0, items[i + 1..]));
  }

  /** The proxy list: "proxies" when the document defines it, "Proxy" otherwise. */
  function ClashItems(yaml: Tree): (r: seq<Tree>)
    ensures IsDefined(yaml, "proxies") && Member(yaml, "proxies").List? ==> r == Member(yaml, "proxies").items
    ensures IsDefined(yaml, "proxies") && !Member(yaml, "proxies").List? ==> r == []
    ensures !IsDefined(yaml, "proxies") && Member(yaml, "Proxy").List? ==> r == Member(yaml, "Proxy").items
  {
    var section := if IsDefined(yaml, "proxies") then "proxies" else "Proxy";
    var list := Member(yaml, section);
    if list.List? then list.items else []
  }

  function ClashEntries(lib: Lib, yaml: Tree): seq<ClashEntry>
  {
    ClashFold(lib, Start, ClashItems(yaml))
  }

  // ---------------------------------------------------------------------------
  // The node each entry yields

  predicate ClashVmessNode(lib: Lib, node: Proxy, e: ClashEntry)
    reads node
  {
    var net := e.Local("net");
    var host := e.Local("host");
    var path := e.Local("path");
    CommonFields(lib, node, VMess, V2RayDefaultGroup, e.name, e.server, e.port, e.udp, e.tfo, e.scv,
                 Indeterminate, e.underlying)
    && node.UserId == (if e.Local("id") == "" then ZeroUuid else e.Local("id"))
    && node.AlterId == ToU16(lib.toInt(e.Local("aid")))
    && node.EncryptMethod == e.Local("cipher") && node.Edge == e.Local("edge")
    && node.ServerName == e.Local("sni") && node.FakeType == ""
    && node.TransferProtocol == (if net == "" then "tcp" else net)
    && (net == "quic" ==> node.QUICSecure == host && node.QUICSecret == path && node.Host == "" && node.Path == "")
    && (net != "quic" ==>
          node.Host == (if host == "" && !lib.isIPv4(e.server) && !lib.isIPv6(e.server) then e.server else lib.trim(host))
          && node.Path == (if path == "" then "/" else lib.trim(path)))
    && (node.TLSSecure <==> e.Local("tls") == "tls")
  }

  predicate ClashVlessNode(lib: Lib, node: Proxy, e: ClashEntry)
    reads node
  {
    var alpn := e.Local("alpn");
    CommonFields(lib, node, VLESS, VlessDefaultGroup, e.name, e.server, e.port, Indeterminate, e.tfo, e.scv,
                 Indeterminate, e.underlying)
    && TransportOf(node) == VlessNormalize(Written(e.vless)) && node.TLSSecure
    && node.UUID == e.Local("uuid") && node.SNI == e.Local("sni") && node.Fingerprint == e.Local("fingerprint")
    && node.Flow == e.Local("flow") && node.Alpn == (if alpn != "" then [alpn] else [])
    && node.XTLS == ToU32(lib.toInt(e.Local("xtls"))) && node.PublicKey == e.Local("public_key")
    && node.ShortID == e.Local("short_id") && node.ClientFingerprint == e.Local("client_fingerprint")
  }

  predicate ClashSsNode(lib: Lib, node: Proxy, e: ClashEntry)
    reads node
  {
    CommonFields(lib, node, Shadowsocks, SsDefaultGroup, e.name, e.server, e.port, e.udp, e.tfo, e.scv,
                 Indeterminate, e.underlying)
    && node.Password == e.Local("password") && node.EncryptMethod == e.Local("cipher")
    && node.Plugin == e.Local("plugin") && node.PluginOption == e.Local("pluginopts")
  }

  predicate ClashSocksNode(lib: Lib, node: Proxy, e: ClashEntry)
    reads node
  {
    CommonFields(lib, node, SOCKS5, SocksDefaultGroup, e.name, e.server, e.port, Indeterminate, Indeterminate,
                 Indeterminate, Indeterminate, e.underlying)
    && node.Username == e.Local("user") && node.Password == e.Local("password")
  }

  predicate ClashSsrNode(lib: Lib, node: Proxy, e: ClashEntry)
    reads node
  {
    CommonFields(lib, node, ShadowsocksR, SsrDefaultGroup, e.name, e.server, e.port, e.udp, e.tfo, e.scv,
                 Indeterminate, e.underlying)
    && node.Password == e.Local("password") && node.EncryptMethod == e.Local("cipher")
    && node.Protocol == e.Local("protocol") && node.ProtocolParam == e.Local("protoparam")
    && node.OBFS == e.Local("obfs") && node.OBFSParam == e.Local("obfsparam")
  }

  predicate ClashHttpNode(lib: Lib, node: Proxy, e: ClashEntry)
    reads node
  {
    var tls := e.Local("tls") == "true";
    CommonFields(lib, node, if tls then HTTPS else HTTP, HttpDefaultGroup, e.name, e.server, e.port,
                 Indeterminate, e.tfo, e.scv, Indeterminate, e.underlying)
    && node.Username == e.Local("user") && node.Password == e.Local("password") && node.TLSSecure == tls
  }

  predicate ClashTrojanNode(lib: Lib, node: Proxy, e: ClashEntry)
    reads node
  {
    var net := e.Local("net");
    var path := e.Local("path");
    CommonFields(lib, node, Trojan, TrojanDefaultGroup, e.name, e.server, e.port, e.udp, e.tfo, e.scv,
                 Indeterminate, e.underlying)
    && node.Password == e.Local("password") && node.Host == e.Local("host") && node.TLSSecure
    && node.Path == path && node.Network == (if net == "" then "tcp" else net)
    && node.TransferProtocol == node.Network
    && node.GrpcServiceName == (if net == "grpc" then path else "")
    && node.WsPath == (if net == "ws" then path else "")
    && node.WsHeaders == (if net == "ws" then e.Local("host") else "")
  }

  predicate ClashSnellNode(lib: Lib, node: Proxy, e: ClashEntry)
    reads node
  {
    CommonFields(lib, node, Snell, SnellDefaultGroup, e.name, e.server, e.port, e.udp, e.tfo, e.scv,
                 Indeterminate, e.underlying)
    && node.Password == e.Local("password") && node.OBFS == e.Local("obfs") && node.Host == e.Local("host")
    && node.SnellVersion == ToU16(lib.toInt(e.Local("aid")))
  }

  predicate ClashWireguardNode(lib: Lib, node: Proxy, e: ClashEntry)
    reads node
  {
    CommonFields(lib, node, WireGuard, WgDefaultGroup, e.name, e.server, e.port, e.udp, Indeterminate,
                 Indeterminate, Indeterminate, e.underlying)
    && node.SelfIP == e.Local("ip") && node.SelfIPv6 == e.Local("ipv6")
    && node.PrivateKey == e.Local("private_key") && node.PublicKey == e.Local("public_key")
    && node.PreSharedKey == e.Local("password") && node.DnsServers == e.env.dns
    && node.Mtu == ToU16(lib.toInt(e.Local("mtu"))) && node.KeepAlive == ToU16(lib.toInt("0"))
    && node.TestUrl == "" && node.ClientId == ""
  }

  predicate ClashHysteriaNode(lib: Lib, node: Proxy, e: ClashEntry)
    reads node
  {
    var alpn := e.Local("alpn");
    var auth := e.Local("auth");
    CommonFields(lib, node, Hysteria, HysteriaDefaultGroup, e.name, e.server, e.port, Indeterminate, e.tfo, e.scv,
                 Indeterminate, e.underlying)
    && node.Ports == e.Local("ports") && node.Protocol == e.Local("protocol")
    && node.OBFSParam == e.Local("obfs_protocol")
    && (node.Up, node.UpSpeed) == HysteriaBandwidth(lib, e.Local("up"), e.Local("up_speed"), "", 0)
    && (node.Down, node.DownSpeed) == HysteriaBandwidth(lib, e.Local("down"), e.Local("down_speed"), "", 0)
    && node.AuthStr == (if auth != "" then lib.base64Decode(auth) else e.Local("auth_str"))
    && node.OBFS == e.Local("obfs") && node.SNI == e.Local("sni") && node.Fingerprint == e.Local("fingerprint")
    && node.Ca == e.Local("ca") && node.CaStr == e.Local("ca_str")
    && node.RecvWindowConn == ToU32(lib.toInt(e.Local("recv_window_conn")))
    && node.RecvWindow == ToU32(lib.toInt(e.Local("recv_window")))
    && node.DisableMtuDiscovery == lib.tribool(e.Local("disable_mtu_discovery"))
    && node.HopInterval == ToU32(lib.toInt(e.Local("hop_interval")))
    && node.Alpn == (if alpn != "" then [alpn] else [])
  }

  predicate ClashHysteria2Node(lib: Lib, node: Proxy, e: ClashEntry)
    reads node
  {
    CommonFields(lib, node, Hysteria2, Hysteria2DefaultGroup, e.name, e.server, e.port, Indeterminate, e.tfo,
                 e.scv, Indeterminate, e.underlying)
    && Hysteria2LinkFields(lib, node, e.Local("ports"), e.Local("up"), e.Local("down"), e.Local("password"),
                           e.Local("obfs"), e.Local("obfs_password"), "", 0, "", 0, "", "")
    && Hysteria2TuningFields(lib, node, e.Local("sni"), e.Local("fingerprint"), e.Local("alpn"), e.Local("ca"),
                             e.Local("ca_str"), e.Local("cwnd"), e.Local("hop_interval"), e.Local("ech_enable"),
                             e.Local("ech_config"), e.Local("initial_stream_receive_window"),
                             e.Local("max_stream_receive_window"), e.Local("initial_connection_receive_window"),
                             e.Local("max_connection_receive_window"), [], Indeterminate, "", 0, 0, 0, 0)
  }

  predicate ClashTuicNode(lib: Lib, node: Proxy, e: ClashEntry)
    reads node
  {
    var alpn := e.Local("alpn");
    CommonFields(lib, node, TUIC, TuicDefaultGroup, e.name, e.server, e.port, Indeterminate, e.tfo, e.scv,
                 Indeterminate, e.underlying)
    && node.Password == e.Local("password") && node.UUID == e.Local("uuid") && node.IP == e.Local("ip")
    && node.HeartbeatInterval == e.Local("heartbeat_interval")
    && node.Alpn == (if alpn != "" then [alpn] else [])
    && node.DisableSNI == lib.tribool(e.Local("disable_sni")) && node.ReduceRTT == lib.tribool(e.Local("reduce_rtt"))
    && node.RequestTimeout == ToU32(lib.toInt(e.Local("request_timeout")))
    && node.UdpRelayMode == e.Local("udp_relay_mode") && node.CongestionController == e.Local("congestion_controller")
    && node.MaxUdpRelayPacketSize == ToU32(lib.toInt(e.Local("max_udp_relay_packet_size")))
    && node.MaxOpenStreams == ToU32(lib.toInt(e.Local("max_open_streams")))
    && node.SNI == e.Local("sni") && node.FastOpen == lib.tribool(e.Local("fast_open"))
  }

  predicate ClashAnyTlsNode(lib: Lib, node: Proxy, e: ClashEntry)
    reads node
  {
    var alpn := e.Local("alpn");
    CommonFields(lib, node, AnyTLS, AnyTlsDefaultGroup, e.name, e.server, e.port, Indeterminate, e.tfo, e.scv,
                 Indeterminate, e.underlying)
    && node.Password == e.Local("password") && node.SNI == e.Local("sni")
    && node.Fingerprint == e.Local("fingerprint") && node.Alpn == (if alpn != "" then [alpn] else [])
    && node.IdleSessionCheckInterval == ToU32(lib.toInt(""))
    && node.IdleSessionTimeout == ToU32(lib.toInt("")) && node.MinIdleSession == ToU32(lib.toInt(""))
  }

  /** What the constructor of an entry's branch leaves in a fresh record. */
  predicate ClashNode(lib: Lib, node: Proxy, e: ClashEntry)
    reads node
  {
    match e.kind
    case ClashVmess => ClashVmessNode(lib, node, e)
    case ClashVless => ClashVlessNode(lib, node, e)
    case ClashSs => ClashSsNode(lib, node, e)
    case ClashSocks5 => ClashSocksNode(lib, node, e)
    case ClashSsr => ClashSsrNode(lib, node, e)
    case ClashHttp => ClashHttpNode(lib, node, e)
    case ClashTrojan => ClashTrojanNode(lib, node, e)
    case ClashSnell => ClashSnellNode(lib, node, e)
    case ClashWireguard => ClashWireguardNode(lib, node, e)
    case ClashHysteria => ClashHysteriaNode(lib, node, e)
    case ClashHysteria2 => ClashHysteria2Node(lib, node, e)
    case ClashTuic => ClashTuicNode(lib, node, e)
    case ClashAnyTls => ClashAnyTlsNode(lib, node, e)
  }

  // ---------------------------------------------------------------------------
  // Building the nodes

  method BuildVmess(lib: Lib, e: ClashEntry, id: U32) returns (node: Proxy)
    requires e.kind == ClashVmess
    ensures fresh(node) && node.Id == id && ClashNode(lib, node, e)
  {
    node := new Proxy();
    node.Id := id;
    VmessConstruct(lib, node, V2RayDefaultGroup, e.name, e.server, e.port, "", e.Local("id"), e.Local("aid"),
                   e.Local("net"), e.Local("cipher"), e.Local("path"), e.Local("host"), e.Local("edge"),
                   e.Local("tls"), e.Local("sni"), e.udp, e.tfo, e.scv, Indeterminate, e.underlying);
  }

  /** The writes of the vless branch into a fresh record before vlessConstruct. */
  method WriteVlessLocals(node: Proxy, v: VlessLocals, clientFingerprint: string)
    requires node.GrpcServiceName == "" && node.WsPath == "" && node.WsHeaders == "" && node.ClientFingerprint == ""
    modifies node`GrpcServiceName, node`Network, node`Path, node`Host, node`WsPath, node`WsHeaders,
             node`ClientFingerprint
    ensures TransportOf(node) == Written(v) && node.ClientFingerprint == clientFingerprint
  {
    if v.grpcServiceName != "" {
      node.GrpcServiceName := v.grpcServiceName;
    }
    node.Network := v.network;
    node.Path := v.path;
    node.Host := v.host;
    if v.network == "ws" {
      node.WsPath := v.path;
      node.WsHeaders := v.host;
    }
    if clientFingerprint != "" {
      node.ClientFingerprint := clientFingerprint;
    }
  }

  method BuildVless(lib: Lib, e: ClashEntry, id: U32) returns (node: Proxy)
    requires e.kind == ClashVless
    ensures fresh(node) && node.Id == id && ClashNode(lib, node, e)
  {
    node := new Proxy();
    node.Id := id;
    WriteVlessLocals(node, e.vless, e.Local("client_fingerprint"));
    VlessConstruct(lib, node, VlessDefaultGroup, e.name, e.server, e.port, e.Local("uuid"), e.Local("sni"),
                   e.Local("alpn"), e.Local("fingerprint"), e.Local("flow"), e.Local("xtls"),
                   e.Local("public_key"), e.Local("short_id"), e.tfo, e.scv, e.underlying);
  }

  method BuildSs(lib: Lib, e: ClashEntry, id: U32) returns (node: Proxy)
    requires e.kind == ClashSs
    ensures fresh(node) && node.Id == id && ClashNode(lib, node, e)
  {
    node := new Proxy();
    node.Id := id;
    SsConstruct(lib, node, SsDefaultGroup, e.name, e.server, e.port, e.Local("password"), e.Local("cipher"),
                e.Local("plugin"), e.Local("pluginopts"), e.udp, e.tfo, e.scv, Indeterminate, e.underlying);
  }

  method BuildSocks(lib: Lib, e: ClashEntry, id: U32) returns (node: Proxy)
    requires e.kind == ClashSocks5
    ensures fresh(node) && node.Id == id && ClashNode(lib, node, e)
  {
    node := new Proxy();
    node.Id := id;
    SocksConstruct(lib, node, SocksDefaultGroup, e.name, e.server, e.port, e.Local("user"), e.Local("password"),
                   Indeterminate, Indeterminate, Indeterminate, e.underlying);
  }

  method BuildSsr(lib: Lib, e: ClashEntry, id: U32) returns (node: Proxy)
    requires e.kind == ClashSsr
    ensures fresh(node) && node.Id == id && ClashNode(lib, node, e)
  {
    node := new Proxy();
    node.Id := id;
    SsrConstruct(lib, node, SsrDefaultGroup, e.name, e.server, e.port, e.Local("protocol"), e.Local("cipher"),
                 e.Local("obfs"), e.Local("password"), e.Local("obfsparam"), e.Local("protoparam"),
                 e.udp, e.tfo, e.scv, e.underlying);
  }

  method BuildHttp(lib: Lib, e: ClashEntry, id: U32) returns (node: Proxy)
    requires e.kind == ClashHttp
    ensures fresh(node) && node.Id == id && ClashNode(lib, node, e)
  {
    node := new Proxy();
    node.Id := id;
    HttpConstruct(lib, node, HttpDefaultGroup, e.name, e.server, e.port, e.Local("user"), e.Local("password"),
                  e.Local("tls") == "true", e.tfo, e.scv, Indeterminate, e.underlying);
  }

  method BuildTrojan(lib: Lib, e: ClashEntry, id: U32) returns (node: Proxy)
    requires e.kind == ClashTrojan
    ensures fresh(node) && node.Id == id && ClashNode(lib, node, e)
  {
    node := new Proxy();
    node.Id := id;
    TrojanConstruct(lib, node, TrojanDefaultGroup, e.name, e.server, e.port, e.Local("password"), e.Local("net"),
                    e.Local("host"), e.Local("path"), true, e.udp, e.tfo, e.scv, Indeterminate, e.underlying);
  }

  method BuildSnell(lib: Lib, e: ClashEntry, id: U32) returns (node: Proxy)
    requires e.kind == ClashSnell
    ensures fresh(node) && node.Id == id && ClashNode(lib, node, e)
  {
    node := new Proxy();
    node.Id := id;
    SnellConstruct(lib, node, SnellDefaultGroup, e.name, e.server, e.port, e.Local("password"), e.Local("obfs"),
                   e.Local("host"), ToU16(lib.toInt(e.Local("aid"))), e.udp, e.tfo, e.scv, e.underlying);
  }

  method BuildWireguard(lib: Lib, e: ClashEntry, id: U32) returns (node: Proxy)
    requires e.kind == ClashWireguard
    ensures fresh(node) && node.Id == id && ClashNode(lib, node, e)
  {
    node := new Proxy();
    node.Id := id;
    WireguardConstruct(lib, node, WgDefaultGroup, e.name, e.server, e.port, e.Local("ip"), e.Local("ipv6"),
                       e.Local("private_key"), e.Local("public_key"), e.Local("password"), e.env.dns,
                       e.Local("mtu"), "0", "", "", e.udp, e.underlying);
  }

  method BuildHysteria(lib: Lib, e: ClashEntry, id: U32) returns (node: Proxy)
    requires e.kind == ClashHysteria
    ensures fresh(node) && node.Id == id && ClashNode(lib, node, e)
  {
    node := new Proxy();
    node.Id := id;
    HysteriaConstruct(lib, node, HysteriaDefaultGroup, e.name, e.server, e.port, e.Local("ports"),
                      e.Local("protocol"), e.Local("obfs_protocol"), e.Local("up"), e.Local("up_speed"),
                      e.Local("down"), e.Local("down_speed"), e.Local("auth"), e.Local("auth_str"),
                      e.Local("obfs"), e.Local("sni"), e.Local("fingerprint"), e.Local("ca"), e.Local("ca_str"),
                      e.Local("recv_window_conn"), e.Local("recv_window"), e.Local("disable_mtu_discovery"),
                      e.Local("hop_interval"), e.Local("alpn"), e.tfo, e.scv, e.underlying);
  }

  method BuildHysteria2(lib: Lib, e: ClashEntry, id: U32) returns (node: Proxy)
    requires e.kind == ClashHysteria2
    ensures fresh(node) && node.Id == id && ClashNode(lib, node, e)
  {
    node := new Proxy();
    node.Id := id;
    Hysteria2Construct(lib, node, Hysteria2DefaultGroup, e.name, e.server, e.port, e.Local("ports"), e.Local("up"),
                       e.Local("down"), e.Local("password"), e.Local("obfs"), e.Local("obfs_password"),
                       e.Local("sni"), e.Local("fingerprint"), e.Local("alpn"), e.Local("ca"), e.Local("ca_str"),
                       e.Local("cwnd"), e.Local("hop_interval"), e.Local("ech_enable"), e.Local("ech_config"),
                       e.Local("initial_stream_receive_window"), e.Local("max_stream_receive_window"),
                       e.Local("initial_connection_receive_window"), e.Local("max_connection_receive_window"),
                       e.tfo, e.scv, e.underlying);
  }

  method BuildTuic(lib: Lib, e: ClashEntry, id: U32) returns (node: Proxy)
    requires e.kind == ClashTuic
    ensures fresh(node) && node.Id == id && ClashNode(lib, node, e)
  {
    node := new Proxy();
    node.Id := id;
    TuicConstruct(lib, node, TuicDefaultGroup, e.name, e.server, e.port, e.Local("uuid"), e.Local("password"),
                  e.Local("ip"), e.Local("heartbeat_interval"), e.Local("alpn"), e.Local("disable_sni"),
                  e.Local("reduce_rtt"), e.Local("request_timeout"), e.Local("udp_relay_mode"),
                  e.Local("congestion_controller"), e.Local("max_udp_relay_packet_size"),
                  e.Local("max_open_streams"), e.Local("sni"), e.Local("fast_open"), e.tfo, e.scv, e.underlying);
  }

  method BuildAnyTls(lib: Lib, e: ClashEntry, id: U32) returns (node: Proxy)
    requires e.kind == ClashAnyTls
    ensures fresh(node) && node.Id == id && ClashNode(lib, node, e)
  {
    node := new Proxy();
    node.Id := id;
    AnyTlsConstruct(lib, node, AnyTlsDefaultGroup, e.name, e.server, e.port, e.Local("password"), e.Local("sni"),
                    e.Local("alpn"), e.Local("fingerprint"), "", "", "", e.tfo, e.scv, e.underlying);
  }

  /** The switch of explodeClash on an entry that is not skipped. */
  method BuildClashNode(lib: Lib, e: ClashEntry, id: U32) returns (node: Proxy)
    ensures fresh(node) && node.Id == id && ClashNode(lib, node, e)
  {
    match e.kind
    case ClashVmess => node := BuildVmess(lib, e, id);
    case ClashVless => node := BuildVless(lib, e, id);
    case ClashSs => node := BuildSs(lib, e, id);
    case ClashSocks5 => node := BuildSocks(lib, e, id);
    case ClashSsr => node := BuildSsr(lib, e, id);
    case ClashHttp => node := BuildHttp(lib, e, id);
    case ClashTrojan => node := BuildTrojan(lib, e, id);
    case ClashSnell => node := BuildSnell(lib, e, id);
    case ClashWireguard => node := BuildWireguard(lib, e, id);
    case ClashHysteria => node := BuildHysteria(lib, e, id);
    case ClashHysteria2 => node := BuildHysteria2(lib, e, id);
    case ClashTuic => node := BuildTuic(lib, e, id);
    case ClashAnyTls => node := BuildAnyTls(lib, e, id);
  }

  /**
   * The loop over the proxy list: each proxy in turn goes through `step` with the
   * locals the proxy before it left, and the entries are collected in order.
   */
  method CollectLoop(step: Step, env0: Locals, items: seq<Tree>) returns (entries: seq<ClashEntry>)
    ensures entries == Collect(step, env0, items)
  {
    var env := env0;
    entries := [];
    var i := 0;
    assert items[0..] == items;
    while i < |items|
      invariant 0 <= i <= |items|
      invariant entries + Collect(step, env, items[i..]) == Collect(step, env0, items)
    {
      FoldTurn(step, env, items, i, entries);
      var s := step(env, items[i]);
      entries := entries + if s.1.Some? then [s.1.value] else [];
      env := s.0;
      i := i + 1;
    }
  }

  /** The reading half of the loop of explodeClash: the entries that reach a constructor, in order. */
  method ReadClashEntries(lib: Lib, yaml: Tree) returns (entries: seq<ClashEntry>)
    ensures entries == ClashEntries(lib, yaml)
  {
    entries := CollectLoop(StepOf(lib), Start, ClashItems(yaml));
  }

  /**
   * The building half: one fresh node per entry, appended to `nodes` and numbered on
   * from its length (as a 32-bit counter).
   */
  method AppendClashNodes(lib: Lib, entries: seq<ClashEntry>, nodes: seq<Proxy>) returns (result: seq<Proxy>)
    ensures |result| == |nodes| + |entries| && result[..|nodes|] == nodes
    ensures forall k :: |nodes| <= k < |result| ==> fresh(result[k])
    ensures forall k :: |nodes| <= k < |result| ==>
              result[k].Id == ToU32(k) && ClashNode(lib, result[k], entries[k - |nodes|])
  {
    result := nodes;
    var i := 0;
    while i < |entries|
      invariant 0 <= i <= |entries|
      invariant |result| == |nodes| + i && result[..|nodes|] == nodes
      invariant forall k :: |nodes| <= k < |result| ==> fresh(result[k])
      invariant forall k :: |nodes| <= k < |result| ==>
                  result[k].Id == ToU32(k) && ClashNode(lib, result[k], entries[k - |nodes|])
    {
      var node := BuildClashNode(lib, entries[i], ToU32(|result|));
      result := result + [node];
      i := i + 1;
    }
  }

  /**
   * explodeClash (subparser.cpp:1380-1845).  The source reads and builds in one
   * pass; reading never looks at the nodes built, so the model reads the entries
   * first and then builds one node per entry.
   */
  method ExplodeClash(lib: Lib, yaml: Tree, nodes: seq<Proxy>) returns (result: seq<Proxy>)
    ensures |result| == |nodes| + |ClashEntries(lib, yaml)| && result[..|nodes|] == nodes
    ensures forall k :: |nodes| <= k < |result| ==> fresh(result[k])
    ensures forall k :: |nodes| <= k < |result| ==>
              result[k].Id == ToU32(k) && ClashNode(lib, result[k], ClashEntries(lib, yaml)[k - |nodes|])
  {
    var entries := ReadClashEntries(lib, yaml);
    result := AppendClashNodes(lib, entries, nodes);
  }

  // ---------------------------------------------------------------------------
  // Properties

  /** No entry that reaches a constructor has an empty or zero port. */
  lemma {:induction false} ClashFoldPorts(lib: Lib, env: Locals, items: seq<Tree>)
    ensures forall e :: e in ClashFold(lib, env, items) ==> e.port != "" && e.port != "0"
    ensures |ClashFold(lib, env, items)| <= |items|
    decreases |items|
  {
    if items != [] {
      ClashFoldPorts(lib, ClashStep(lib, env, items[0]).0, items[1..]);
    }
  }

  /** A Clash document yields at most one node per listed proxy, none with a zero port. */
  lemma ClashEntriesPorts(lib: Lib, yaml: Tree)
    ensures |ClashEntries(lib, yaml)| <= |ClashItems(yaml)|
    ensures forall e :: e in ClashEntries(lib, yaml) ==> e.port != "" && e.port != "0"
  {
    ClashFoldPorts(lib, Start, ClashItems(yaml));
  }

  /**
   * An ss entry with neither "plugin" nor "obfs" clears the plugin but keeps the
   * plugin options the previous entry built.
   */
  lemma SsWithoutPluginKeepsOptions(lib: Lib, env: Locals, p: Tree)
    requires !IsDefined(p, "plugin") && !IsDefined(p, "obfs")
    ensures Get(SsReads(lib, env, p), "plugin") == ""
    ensures Get(SsReads(lib, env, p), "pluginopts") == Get(env, "pluginopts")
  {
    var e0 := Read(env, "cipher", Member(p, "cipher"));
    var e1 := Read(e0, "password", Member(p, "password"));
    assert ReadKeys(env, p, [("cipher", "cipher"), ("password", "password")]) == e1;
    ReadOther(env, "cipher", Member(p, "cipher"), "pluginopts");
    ReadOther(e0, "password", Member(p, "password"), "pluginopts");
    var e2 := Put(e1, "plugin", "");
    assert SsPluginReads(lib, e1, p) == e2;
    PutOther(e1, "plugin", "", "pluginopts");
    var cipher := GoCipher(Get(e2, "cipher"));
    PutOther(e2, "cipher", cipher, "pluginopts");
    PutOther(e2, "cipher", cipher, "plugin");
  }

  /**
   * With mux on, v2ray-plugin's options carry the mux setting twice: once after the
   * TLS flag and once more, prefixed with "mux=", at the very end.
   */
  lemma V2rayMuxTwice(mode: string, tls: string, mux: string, host: string, path: string)
    requires mux != ""
    ensures StartsWith(V2rayOpts(mode, tls, mux, host, path), "mode=" + mode + ";" + tls + mux)
    ensures EndsWith(V2rayOpts(mode, tls, mux, host, path), "mux=" + mux + ";")
  {
    var r := V2rayOpts(mode, tls, mux, host, path);
    var tail := "mux=" + mux + ";";
    var head := "mode=" + mode + ";" + tls + mux + (if host != "" then "host=" + host + ";" else "")
                + (if path != "" then "path=" + path + ";" else "");
    assert r == head + tail;
    assert forall i :: 0 <= i < |tail| ==> r[|head| + i] == tail[i];
  }

  /** Reading string locals never touches the DNS list. */
  lemma {:induction false} ReadKeysDns(env: Locals, p: Tree, keys: seq<(string, string)>)
    ensures ReadKeys(env, p, keys).dns == env.dns
    decreases |keys|
  {
    if keys != [] {
      ReadKeysDns(Read(env, keys[0].0, Member(p, keys[0].1)), p, keys[1..]);
    }
  }

  /** Reading string locals into other names leaves a local alone. */
  lemma {:induction false} ReadKeysOther(env: Locals, p: Tree, keys: seq<(string, string)>, other: string)
    requires forall k :: 0 <= k < |keys| ==> keys[k].0 != other
    ensures Get(ReadKeys(env, p, keys), other) == Get(env, other)
    decreases |keys|
  {
    if keys != [] {
      ReadOther(env, keys[0].0, Member(p, keys[0].1), other);
      ReadKeysOther(Read(env, keys[0].0, Member(p, keys[0].1)), p, keys[1..], other);
    }
  }

  /** An entry without "port" is skipped, whatever port the previous entry had. */
  lemma MissingPortSkipped(lib: Lib, env: Locals, p: Tree)
    requires Member(p, "port") == Null
    ensures ClashStep(lib, env, p).1.None?
  {
    assert AsText(Member(p, "port")) == "";
  }

  /** A trojan entry without "network" is a tcp entry with an empty path, whatever came before. */
  lemma TrojanWithoutNetwork(env: Locals, p: Tree)
    requires Member(p, "network") == Null
    ensures Get(TrojanReads(env, p), "net") == "tcp" && Get(TrojanReads(env, p), "path") == ""
  {
    var keys := [("password", "password"), ("host", "sni"), ("net", "network")];
    var e1 := ReadKeys(env, p, keys);
    var e0 := Read(Read(env, "password", Member(p, "password")), "host", Member(p, "sni"));
    assert e1 == ReadKeys(Read(e0, "net", Member(p, "network")), p, []);
    assert Get(e1, "net") == "";
  }

  /** A wireguard entry without "dns" has no DNS servers, whatever came before. */
  lemma WireguardWithoutDns(env: Locals, p: Tree)
    requires Member(p, "dns") == Null
    ensures WireguardReads(env, p).dns == []
  {
    var e1 := ReadKeys(env, p, [("public_key", "public-key"), ("private_key", "private-key")]);
    var e2 := ReadDns(e1, Member(p, "dns"));
    ReadKeysDns(e2, p, [("mtu", "mtu"), ("password", "preshared-key"), ("ip", "ip"), ("ipv6", "ipv6")]);
  }

  /** `>>` is fail-safe: a snell entry without "psk" keeps the previous entry's password. */
  lemma SnellWithoutPskKeepsPassword(env: Locals, p: Tree)
    requires Member(p, "psk") == Null
    ensures Get(SnellReads(env, p), "password") == Get(env, "password")
  {
    var e2 := ReadKeys(env, Member(p, "obfs-opts"), [("obfs", "mode"), ("host", "host")]);
    ReadKeysOther(env, Member(p, "obfs-opts"), [("obfs", "mode"), ("host", "host")], "password");
    ReadOther(e2, "aid", Member(p, "version"), "password");
  }

  /**
   * `plugin: ~` is defined but names no plugin: the switch takes no branch, so the
   * ss entry keeps the plugin and its options from the previous entry, and its own
   * "obfs" is not read.
   */
  lemma SsNullPluginKeepsPlugin(lib: Lib, env: Locals, p: Tree)
    requires IsDefined(p, "plugin") && Member(p, "plugin") == Null
    ensures SsPluginReads(lib, env, p) == env
  {
    assert AsText(Member(p, "plugin")) == "";
  }

  /** A ws trojan entry whose Host header is an explicit null clears the host the SNI gave. */
  lemma TrojanNullHostClearsHost(env: Locals, p: Tree)
    requires AsText(Member(p, "network")) == "ws"
    requires IsDefined(Member(p, "ws-opts"), "headers")
    requires IsDefined(Member(Member(p, "ws-opts"), "headers"), "Host")
    requires Member(Member(Member(p, "ws-opts"), "headers"), "Host") == Null
    ensures Get(TrojanReads(env, p), "host") == ""
  {
    var e0 := Read(Read(env, "password", Member(p, "password")), "host", Member(p, "sni"));
    var e1 := Read(e0, "net", Member(p, "network"));
    assert ReadKeys(env, p, [("password", "password"), ("host", "sni"), ("net", "network")]) == e1;
    ReadOther(e0, "net", Member(p, "network"), "host");
    assert Get(e1, "net") == "ws";
  }

  /** `ws-opts: ~` is defined, so a vless ws entry takes the default path "/", not "ws-path". */
  lemma VlessNullWsOptsDefaultPath(p: Tree)
    requires TextAt(p, "network", "tcp") == "ws"
    requires IsDefined(p, "ws-opts") && Member(p, "ws-opts") == Null
    ensures VlessTransportLocals(p).path == "/" && VlessTransportLocals(p).host == ""
  {
    assert WsKeys(p) == (Null, "path", "headers");
  }

  /** `proxies: ~` is defined, so the document's "Proxy" list is not read and no entry results. */
  lemma NullProxiesYieldNothing(lib: Lib, yaml: Tree)
    requires IsDefined(yaml, "proxies") && Member(yaml, "proxies") == Null
    ensures ClashEntries(lib, yaml) == []
  {
    assert ClashItems(yaml) == [];
  }

  /** A lower-cased text holds no upper-case letter, so no "AEAD". */
  lemma LowerHasNoAead(s: string)
    requires forall i :: 0 <= i < |s| ==> !('A' <= s[i] <= 'Z')
    ensures !Contains(s, "AEAD") && s != "AEAD_CHACHA20_POLY1305"
  {
    PatternAbsent(s, "AEAD");
  }

  /** The go-shadowsocks2 renaming is idempotent: a name already renamed is left alone. */
  lemma GoCipherIdempotent(cipher: string)
    ensures GoCipher(GoCipher(cipher)) == GoCipher(cipher)
  {
    var r := GoCipher(cipher);
    if cipher == "AEAD_CHACHA20_POLY1305" {
      LowerHasNoAead(r);
    } else if Contains(cipher, "AEAD") {
      LowerHasNoAead(r);
    }
  }

  /** Lower-casing never produces '_' from another character. */
  lemma ToLowerKeepsAbsent(s: string, c: char)
    requires c !in s && !('a' <= c <= 'z')
    ensures c !in ToLower(s)
  {
  }

  /** A renamed AEAD cipher is lower case and uses '-' where the Go name used '_'. */
  lemma GoCipherRenamed(cipher: string)
    requires Contains(cipher, "AEAD")
    ensures '_' !in GoCipher(cipher)
    ensures forall i :: 0 <= i < |GoCipher(cipher)| ==> !('A' <= GoCipher(cipher)[i] <= 'Z')
  {
    if cipher != "AEAD_CHACHA20_POLY1305" {
      var stripped := ReplaceAll(cipher, "AEAD_", "");
      ReplaceCharRemoves(stripped, '_', '-');
      ToLowerKeepsAbsent(ReplaceAll(stripped, "_", "-"), '_');
    }
  }
}
