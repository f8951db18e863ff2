// The Netch share link of src/parser/subparser.cpp: "Netch://" followed by the
// URL-safe base64 of a JSON object whose members are named after the fields of
// the record.  The "Type" member picks the constructor; an SSR object whose
// settings are plain Shadowsocks becomes a Shadowsocks record.

module NetchLinks {
  import opened Utils
  import opened Text
  import opened Proxies
  import opened Constructors
  import opened Links

  /** The type-specific arguments of a Netch object. */
  datatype NetchBody =
    | NetchSs(password: string, cipher: string, plugin: string, pluginOpts: string)
    | NetchSsr(protocol: string, cipher: string, obfs: string, password: string, obfsParam: string,
               protoParam: string)
    | NetchVmess(fakeType: string, id: string, aid: string, net: string, cipher: string, path: string,
                 host: string, edge: string, tls: string, sni: string)
    | NetchSocks(username: string, password: string)
    | NetchHttp(password: string, https: bool)
    | NetchTrojan(password: string, network: string, host: string, path: string, tlsSecure: bool)
    | NetchSnell(password: string, obfs: string, host: string, version: string)

  /** A decoded Netch object: the common arguments and the type-specific ones. */
  datatype NetchFields = NetchFields(group: string, remarks: string, server: string, port: string, udp: Tribool,
                                     tfo: Tribool, scv: Tribool, body: NetchBody)

  /** The record type each kind of object produces. */
  function NetchType(body: NetchBody): ProxyType
  {
    match body
    case NetchSs(_, _, _, _) => Shadowsocks
    case NetchSsr(_, _, _, _, _, _) => ShadowsocksR
    case NetchVmess(_, _, _, _, _, _, _, _, _, _) => VMess
    case NetchSocks(_, _) => SOCKS5
    case NetchHttp(_, https) => if https then HTTPS else HTTP
    case NetchTrojan(_, _, _, _, _) => Trojan
    case NetchSnell(_, _, _, _) => Snell
  }

  /** The group an object without a "Group" member is put in. */
  function NetchDefaultGroup(body: NetchBody): string
  {
    match body
    case NetchSs(_, _, _, _) => SsDefaultGroup
    case NetchSsr(_, _, _, _, _, _) => SsrDefaultGroup
    case NetchVmess(_, _, _, _, _, _, _, _, _, _) => V2RayDefaultGroup
    case NetchSocks(_, _) => SocksDefaultGroup
    case NetchHttp(_, _) => HttpDefaultGroup
    case NetchTrojan(_, _, _, _, _) => TrojanDefaultGroup
    case NetchSnell(_, _, _, _) => SnellDefaultGroup
  }

  /**
   * The type-specific members, chosen by "Type" (None for any other type).  HTTP and
   * HTTPS objects never read "Username", so their user name is always empty.
   */
  function NetchBodyOf(json: Tree, kind: string, cipher: string, password: string): (r: Option<NetchBody>)
    ensures r.None? <==> kind !in {"SS", "SSR", "VMess", "Socks5", "HTTP", "HTTPS", "Trojan", "Snell"}
    ensures kind == "SSR" && r.Some? ==>
              (r.value.NetchSs? <==> IsPlainSs(cipher, GetMember(json, "OBFS"), GetMember(json, "Protocol")))
    ensures r.Some? && r.value.NetchHttp? ==> (r.value.https <==> kind == "HTTPS")
  {
    match kind
    case "SS" =>
      Some(NetchSs(password, cipher, GetMember(json, "Plugin"), GetMember(json, "PluginOption")))
    case "SSR" =>
      var protocol, obfs := GetMember(json, "Protocol"), GetMember(json, "OBFS");
      if IsPlainSs(cipher, obfs, protocol) then
        Some(NetchSs(password, cipher, GetMember(json, "Plugin"), GetMember(json, "PluginOption")))
      else
        Some(NetchSsr(protocol, cipher, obfs, password, GetMember(json, "OBFSParam"),
                      GetMember(json, "ProtocolParam")))
    case "VMess" =>
      Some(NetchVmess(GetMember(json, "FakeType"), GetMember(json, "UserID"), GetMember(json, "AlterID"),
                      GetMember(json, "TransferProtocol"), cipher, GetMember(json, "Path"), GetMember(json, "Host"),
                      GetMember(json, "Edge"), GetMember(json, "TLSSecure"), GetMember(json, "ServerName")))
    case "Socks5" => Some(NetchSocks(GetMember(json, "Username"), password))
    case "HTTP" => Some(NetchHttp(password, false))
    case "HTTPS" => Some(NetchHttp(password, true))
    case "Trojan" =>
      Some(NetchTrojan(password, GetMember(json, "TransferProtocol"), GetMember(json, "Host"),
                       GetMember(json, "Path"), GetMember(json, "TLSSecure") == "true"))
    case "Snell" =>
      Some(NetchSnell(password, GetMember(json, "OBFS"), GetMember(json, "Host"), GetMember(json, "SnellVersion")))
    case _ => None
  }

  /**
   * explodeNetch (subparser.cpp:1278-1378): the object must parse and be an object,
   * its "Port" must not be "0" and its "Type" must be known.
   */
  function NetchLink(lib: Lib, link: string): (r: Option<NetchFields>)
    ensures r.Some? ==> r.value.port != "0" && r.value.remarks != ""
    ensures r.Some? ==> r.value.group != ""
  {
    match lib.parseJson(lib.urlSafeBase64Decode(Drop(link, 8)))
    case None => None
    case Some(json) =>
      if !json.Dict? then None
      else
        var server, port := GetMember(json, "Hostname"), GetMember(json, "Port");
        if port == "0" then None
        else
          match NetchBodyOf(json, GetMember(json, "Type"), GetMember(json, "EncryptMethod"),
                            GetMember(json, "Password"))
          case None => None
          case Some(body) =>
            Some(NetchFields(GroupOr(GetMember(json, "Group"), NetchDefaultGroup(body)),
                             RemarkOr(GetMember(json, "Remark"), server, port), server, port,
                             lib.tribool(GetMember(json, "EnableUDP")), lib.tribool(GetMember(json, "EnableTFO")),
                             lib.tribool(GetMember(json, "AllowInsecure")), body))
  }

  /**
   * The record after the constructor of the object's kind: the common fields (httpConstruct
   * takes no UDP setting), then what that constructor writes.
   */
  twostate predicate NetchNode(lib: Lib, node: Proxy, f: NetchFields)
    reads node
  {
    CommonFields(lib, node, NetchType(f.body), f.group, f.remarks, f.server, f.port,
                 if f.body.NetchHttp? then Indeterminate else f.udp, f.tfo, f.scv, Indeterminate, "")
    && match f.body
       case NetchSs(password, cipher, plugin, pluginOpts) =>
         node.Password == password && node.EncryptMethod == cipher && node.Plugin == plugin
         && node.PluginOption == pluginOpts
       case NetchSsr(protocol, cipher, obfs, password, obfsParam, protoParam) =>
         node.Password == password && node.EncryptMethod == cipher && node.Protocol == protocol
         && node.ProtocolParam == protoParam && node.OBFS == obfs && node.OBFSParam == obfsParam
       case NetchVmess(fakeType, id, aid, net, cipher, path, host, edge, tls, sni) =>
         node.UserId == (if id == "" then ZeroUuid else id) && node.AlterId == ToU16(lib.toInt(aid))
         && node.EncryptMethod == cipher && node.Edge == edge && node.ServerName == sni && node.FakeType == fakeType
         && node.TransferProtocol == (if net == "" then "tcp" else net) && (node.TLSSecure <==> tls == "tls")
         && (net == "quic" ==> node.QUICSecure == host && node.QUICSecret == path)
         && (net != "quic" ==>
               node.Host == (if host == "" && !lib.isIPv4(f.server) && !lib.isIPv6(f.server) then f.server
                             else lib.trim(host))
               && node.Path == (if path == "" then "/" else lib.trim(path)))
       case NetchSocks(username, password) =>
         node.Username == username && node.Password == password
       case NetchHttp(password, https) =>
         node.Username == "" && node.Password == password && node.TLSSecure == https
       case NetchTrojan(password, network, host, path, tls) =>
         node.Password == password && node.Host == host && node.TLSSecure == tls && node.Path == path
         && node.Network == (if network == "" then "tcp" else network) && node.TransferProtocol == node.Network
         && node.GrpcServiceName == (if network == "grpc" then path else old(node.GrpcServiceName))
         && node.WsPath == (if network == "ws" then path else old(node.WsPath))
         && node.WsHeaders == (if network == "ws" then host else old(node.WsHeaders))
       case NetchSnell(password, obfs, host, version) =>
         node.Password == password && node.OBFS == obfs && node.Host == host
         && node.SnellVersion == ToU16(lib.toInt(version))
  }

  /** The constructor call of explodeNetch's switch for a decoded object. */
  method NetchBuild(lib: Lib, node: Proxy, f: NetchFields)
    modifies node`Type, node`Group, node`Remark, node`Hostname, node`UnderlyingProxy, node`Port, node`UDP,
             node`TCPFastOpen, node`AllowInsecure, node`TLS13, node`Password, node`EncryptMethod, node`Plugin,
             node`PluginOption, node`Protocol, node`ProtocolParam, node`OBFS, node`OBFSParam, node`UserId,
             node`AlterId, node`TransferProtocol, node`Edge, node`ServerName, node`QUICSecure, node`QUICSecret,
             node`Host, node`Path, node`FakeType, node`TLSSecure, node`Username, node`Network,
             node`GrpcServiceName, node`WsPath, node`WsHeaders, node`SnellVersion
    ensures NetchNode(lib, node, f)
  {
    match f.body
    case NetchSs(password, cipher, plugin, pluginOpts) =>
      SsConstruct(lib, node, f.group, f.remarks, f.server, f.port, password, cipher, plugin, pluginOpts, f.udp,
                  f.tfo, f.scv, Indeterminate, "");
    case NetchSsr(protocol, cipher, obfs, password, obfsParam, protoParam) =>
      SsrConstruct(lib, node, f.group, f.remarks, f.server, f.port, protocol, cipher, obfs, password, obfsParam,
                   protoParam, f.udp, f.tfo, f.scv, "");
    case NetchVmess(fakeType, id, aid, net, cipher, path, host, edge, tls, sni) =>
      VmessConstruct(lib, node, f.group, f.remarks, f.server, f.port, fakeType, id, aid, net, cipher, path, host,
                     edge, tls, sni, f.udp, f.tfo, f.scv, Indeterminate, "");
    case NetchSocks(username, password) =>
      SocksConstruct(lib, node, f.group, f.remarks, f.server, f.port, username, password, f.udp, f.tfo, f.scv, "");
    case NetchHttp(password, https) =>
      HttpConstruct(lib, node, f.group, f.remarks, f.server, f.port, "", password, https, f.tfo, f.scv,
                    Indeterminate, "");
    case NetchTrojan(password, network, host, path, tls) =>
      TrojanConstruct(lib, node, f.group, f.remarks, f.server, f.port, password, network, host, path, tls, f.udp,
                      f.tfo, f.scv, Indeterminate, "");
    case NetchSnell(password, obfs, host, version) =>
      SnellConstruct(lib, node, f.group, f.remarks, f.server, f.port, password, obfs, host,
                     ToU16(lib.toInt(version)), f.udp, f.tfo, f.scv, "");
  }

  method ExplodeNetch(lib: Lib, link: string, node: Proxy)
    modifies node`Type, node`Group, node`Remark, node`Hostname, node`UnderlyingProxy, node`Port, node`UDP,
             node`TCPFastOpen, node`AllowInsecure, node`TLS13, node`Password, node`EncryptMethod, node`Plugin,
             node`PluginOption, node`Protocol, node`ProtocolParam, node`OBFS, node`OBFSParam, node`UserId,
             node`AlterId, node`TransferProtocol, node`Edge, node`ServerName, node`QUICSecure, node`QUICSecret,
             node`Host, node`Path, node`FakeType, node`TLSSecure, node`Username, node`Network,
             node`GrpcServiceName, node`WsPath, node`WsHeaders, node`SnellVersion
    ensures NetchLink(lib, link).None? ==> unchanged(node)
    ensures NetchLink(lib, link).Some? ==> NetchNode(lib, node, NetchLink(lib, link).value)
  {
    var parsed := NetchLink(lib, link);
    if parsed.Some? {
      NetchBuild(lib, node, parsed.value);
    }
  }

  /**
   * An SSR object whose cipher is a Shadowsocks cipher, with no obfs and no protocol (or
   * plain / origin), is decoded as a Shadowsocks record in the Shadowsocks group.
   */
  lemma NetchSsrAsSs(lib: Lib, link: string, json: Tree)
    requires lib.parseJson(lib.urlSafeBase64Decode(Drop(link, 8))) == Some(json) && json.Dict?
    requires GetMember(json, "Type") == "SSR" && GetMember(json, "Port") != "0"
    requires IsPlainSs(GetMember(json, "EncryptMethod"), GetMember(json, "OBFS"), GetMember(json, "Protocol"))
    ensures var r := NetchLink(lib, link);
            r.Some? && r.value.body.NetchSs? && NetchType(r.value.body) == Shadowsocks
            && (GetMember(json, "Group") == "" ==> r.value.group == SsDefaultGroup)
  {
  }

  /** An object of any other type is not decoded. */
  lemma NetchUnknownType(lib: Lib, link: string, json: Tree)
    requires lib.parseJson(lib.urlSafeBase64Decode(Drop(link, 8))) == Some(json)
    requires GetMember(json, "Type") !in {"SS", "SSR", "VMess", "Socks5", "HTTP", "HTTPS", "Trojan", "Snell"}
    ensures NetchLink(lib, link).None?
  {
  }
}
