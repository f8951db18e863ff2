// The vless:// share link of src/parser/subparser.cpp.  explodeStdVLESS reads the
// address either as uuid@host:port, as host:port with the uuid in the query, or
// as a URL-safe base64 "[x:]uuid@host:port"; it then copies the transport
// settings of the query into the record before vlessConstruct, which saves and
// restores them around commonConstruct and normalises them.

module VlessLinks {
  import opened Utils
  import opened Text
  import opened Proxies
  import opened Constructors
  import opened Links
  import opened QuicLinks

  /** The transport settings explodeStdVLESS copies from a non-empty query. */
  datatype VlessQuery = VlessQuery(network: string, tlsSecure: bool, clientFingerprint: string, echConfig: string,
                                   x25519: string, grpcServiceName: string, wsPath: string, wsHeaders: string,
                                   httpUpgrade: string, httpUpgradeFastOpen: string, udp: string,
                                   packetEncoding: string)

  /** The arguments explodeStdVLESS hands to vlessConstruct, and the query settings it applied before. */
  datatype VlessFields = VlessFields(remarks: string, server: string, port: string, uuid: string, sni: string,
                                     alpn: string, fingerprint: string, flow: string, xtls: string,
                                     publicKey: string, shortId: string, tfo: Tribool, scv: Tribool,
                                     query: Option<VlessQuery>)

  /** The network of a query: "type", then "network"; failing both, grpc when a service name is given, else tcp. */
  function VlessNetwork(lib: Lib, addition: string): (r: string)
    ensures r != ""
    ensures ArgOr(lib, addition, "type", "network") != "" ==> r == ArgOr(lib, addition, "type", "network")
    ensures ArgOr(lib, addition, "type", "network") == "" ==>
              (r == "grpc" <==> ArgOr(lib, addition, "serviceName", "grpc-service-name") != "")
    ensures ArgOr(lib, addition, "type", "network") == "" ==> r in {"grpc", "tcp"}
  {
    var network := ArgOr(lib, addition, "type", "network");
    if network != "" then network
    else if ArgOr(lib, addition, "serviceName", "grpc-service-name") != "" then "grpc"
    else "tcp"
  }

  /** The TLS flag of a query: "tls" is true or 1; else "security" is tls or reality; else on. */
  function VlessTlsFlag(lib: Lib, addition: string): (r: bool)
    ensures lib.getUrlArg(addition, "tls") != "" ==>
              (r <==> lib.getUrlArg(addition, "tls") in {"true", "1"})
    ensures lib.getUrlArg(addition, "tls") == "" && lib.getUrlArg(addition, "security") != "" ==>
              (r <==> lib.getUrlArg(addition, "security") in {"tls", "reality"})
    ensures lib.getUrlArg(addition, "tls") == "" && lib.getUrlArg(addition, "security") == "" ==> r
  {
    var tls := lib.getUrlArg(addition, "tls");
    var security := lib.getUrlArg(addition, "security");
    if tls != "" then tls == "true" || tls == "1"
    else if security != "" then security == "tls" || security == "reality"
    else true
  }

  /** All transport settings of a non-empty query. */
  function VlessQueryOf(lib: Lib, addition: string): (r: VlessQuery)
    ensures r.network == VlessNetwork(lib, addition) && r.tlsSecure == VlessTlsFlag(lib, addition)
    ensures r.grpcServiceName == ArgOr(lib, addition, "serviceName", "grpc-service-name")
    ensures r.wsPath == ArgOr(lib, addition, "path", "ws-path")
    ensures r.wsHeaders == ArgOr(lib, addition, "host", "ws-headers")
  {
    VlessQuery(VlessNetwork(lib, addition), VlessTlsFlag(lib, addition), ArgOr(lib, addition, "fp", "client-fingerprint"),
               ArgOr(lib, addition, "ech", "ech-config"), lib.getUrlArg(addition, "support-x25519mlkem768"),
               ArgOr(lib, addition, "serviceName", "grpc-service-name"), ArgOr(lib, addition, "path", "ws-path"),
               ArgOr(lib, addition, "host", "ws-headers"), lib.getUrlArg(addition, "v2ray-http-upgrade"),
               lib.getUrlArg(addition, "v2ray-http-upgrade-fast-open"), lib.getUrlArg(addition, "udp"),
               ArgOr(lib, addition, "packetEncoding", "packet-encoding"))
  }

  /**
   * The transport after the query settings are copied in: the network is replaced,
   * a service name, a WebSocket path and a host each fill their field and the legacy
   * one (path, path, host), the WebSocket path taking the legacy path last.
   */
  function VlessPrepared(t: Transport, q: VlessQuery): (r: Transport)
    ensures r.network == q.network
    ensures r.path == (if q.wsPath != "" then q.wsPath else if q.grpcServiceName != "" then q.grpcServiceName else t.path)
    ensures r.host == (if q.wsHeaders != "" then q.wsHeaders else t.host)
    ensures q.grpcServiceName != "" ==> r.grpcServiceName == q.grpcServiceName
    ensures q.grpcServiceName == "" ==> r.grpcServiceName == t.grpcServiceName
    ensures r.wsPath == (if q.wsPath != "" then q.wsPath else t.wsPath)
    ensures r.wsHeaders == (if q.wsHeaders != "" then q.wsHeaders else t.wsHeaders)
  {
    var grpc := if q.grpcServiceName != "" then q.grpcServiceName else t.grpcServiceName;
    var path0 := if q.grpcServiceName != "" then q.grpcServiceName else t.path;
    Transport(q.network, if q.wsPath != "" then q.wsPath else path0,
              if q.wsHeaders != "" then q.wsHeaders else t.host, grpc,
              if q.wsPath != "" then q.wsPath else t.wsPath,
              if q.wsHeaders != "" then q.wsHeaders else t.wsHeaders)
  }

  /** The transport handed to vlessConstruct: prepared when there was a query, as it was otherwise. */
  function VlessPreparedOr(t: Transport, q: Option<VlessQuery>): (r: Transport)
    ensures q.None? ==> r == t
    ensures q.Some? ==> r == VlessPrepared(t, q.value)
  {
    match q
    case None => t
    case Some(q) => VlessPrepared(t, q)
  }

  /** The non-transport settings of the query, each written only when given. */
  twostate predicate VlessExtras(lib: Lib, node: Proxy, q: VlessQuery)
    reads node`ClientFingerprint, node`EchConfig, node`SupportX25519Mlkem768, node`V2rayHttpUpgrade,
          node`V2rayHttpUpgradeFastOpen, node`PacketEncoding
  {
    node.ClientFingerprint == (if q.clientFingerprint != "" then q.clientFingerprint else old(node.ClientFingerprint))
    && node.EchConfig == (if q.echConfig != "" then q.echConfig else old(node.EchConfig))
    && node.SupportX25519Mlkem768 == (if q.x25519 != "" then lib.tribool(q.x25519) else old(node.SupportX25519Mlkem768))
    && node.V2rayHttpUpgrade == (if q.httpUpgrade != "" then lib.tribool(q.httpUpgrade) else old(node.V2rayHttpUpgrade))
    && node.V2rayHttpUpgradeFastOpen
       == (if q.httpUpgradeFastOpen != "" then lib.tribool(q.httpUpgradeFastOpen) else old(node.V2rayHttpUpgradeFastOpen))
    && node.PacketEncoding == (if q.packetEncoding != "" then q.packetEncoding else old(node.PacketEncoding))
  }

  /** The query settings explodeStdVLESS reads (subparser.cpp:2254-2375, without the remark). */
  method VlessReadQuery(lib: Lib, addition: string) returns (q: VlessQuery)
    ensures q == VlessQueryOf(lib, addition)
  {
    var network := lib.getUrlArg(addition, "type");
    if network == "" {
      network := lib.getUrlArg(addition, "network");
    }
    assert network == ArgOr(lib, addition, "type", "network");
    if network == "" {
      var grpcServiceName := lib.getUrlArg(addition, "serviceName");
      if grpcServiceName == "" {
        grpcServiceName := lib.getUrlArg(addition, "grpc-service-name");
      }
      if grpcServiceName != "" {
        network := "grpc";
      } else {
        network := "tcp";
      }
    }
    var security := lib.getUrlArg(addition, "security");
    var tlsParam := lib.getUrlArg(addition, "tls");
    var tlsSecure;
    if tlsParam != "" {
      tlsSecure := tlsParam == "true" || tlsParam == "1";
    } else if security != "" {
      tlsSecure := security == "tls" || security == "reality";
    } else {
      tlsSecure := true;
    }
    var clientFingerprint := lib.getUrlArg(addition, "fp");
    if clientFingerprint == "" {
      clientFingerprint := lib.getUrlArg(addition, "client-fingerprint");
    }
    assert clientFingerprint == ArgOr(lib, addition, "fp", "client-fingerprint");
    var echConfig := lib.getUrlArg(addition, "ech");
    if echConfig == "" {
      echConfig := lib.getUrlArg(addition, "ech-config");
    }
    assert echConfig == ArgOr(lib, addition, "ech", "ech-config");
    var x25519 := lib.getUrlArg(addition, "support-x25519mlkem768");
    var grpcServiceName := lib.getUrlArg(addition, "serviceName");
    if grpcServiceName == "" {
      grpcServiceName := lib.getUrlArg(addition, "grpc-service-name");
    }
    var wsPath := lib.getUrlArg(addition, "path");
    if wsPath == "" {
      wsPath := lib.getUrlArg(addition, "ws-path");
    }
    assert wsPath == ArgOr(lib, addition, "path", "ws-path");
    var wsHeaders := lib.getUrlArg(addition, "host");
    if wsHeaders == "" {
      wsHeaders := lib.getUrlArg(addition, "ws-headers");
    }
    assert wsHeaders == ArgOr(lib, addition, "host", "ws-headers");
    var httpUpgrade := lib.getUrlArg(addition, "v2ray-http-upgrade");
    var httpUpgradeFastOpen := lib.getUrlArg(addition, "v2ray-http-upgrade-fast-open");
    var udp := lib.getUrlArg(addition, "udp");
    var packetEncoding := lib.getUrlArg(addition, "packetEncoding");
    if packetEncoding == "" {
      packetEncoding := lib.getUrlArg(addition, "packet-encoding");
    }
    assert packetEncoding == ArgOr(lib, addition, "packetEncoding", "packet-encoding");
    q := VlessQuery(network, tlsSecure, clientFingerprint, echConfig, x25519, grpcServiceName, wsPath, wsHeaders,
                    httpUpgrade, httpUpgradeFastOpen, udp, packetEncoding);
  }

  /** The transport writes explodeStdVLESS makes before vlessConstruct (subparser.cpp:2269-2285, 2322-2347). */
  method VlessPrepareTransport(node: Proxy, q: VlessQuery)
    modifies node`Network, node`GrpcServiceName, node`Path, node`WsPath, node`WsHeaders, node`Host
    ensures TransportOf(node) == VlessPrepared(old(TransportOf(node)), q)
  {
    node.Network := q.network;
    if q.grpcServiceName != "" {
      node.GrpcServiceName := q.grpcServiceName;
      node.Path := q.grpcServiceName;
    }
    if q.wsPath != "" {
      node.WsPath := q.wsPath;
      node.Path := q.wsPath;
    }
    if q.wsHeaders != "" {
      node.WsHeaders := q.wsHeaders;
      node.Host := q.wsHeaders;
    }
  }

  /** The TLS-related writes explodeStdVLESS makes before vlessConstruct (subparser.cpp:2288-2320). */
  method VlessPrepareTls(lib: Lib, node: Proxy, q: VlessQuery)
    modifies node`TLSSecure, node`ClientFingerprint, node`EchConfig, node`SupportX25519Mlkem768
    ensures node.TLSSecure == q.tlsSecure
    ensures node.ClientFingerprint == (if q.clientFingerprint != "" then q.clientFingerprint else old(node.ClientFingerprint))
    ensures node.EchConfig == (if q.echConfig != "" then q.echConfig else old(node.EchConfig))
    ensures node.SupportX25519Mlkem768 == (if q.x25519 != "" then lib.tribool(q.x25519) else old(node.SupportX25519Mlkem768))
  {
    node.TLSSecure := q.tlsSecure;
    if q.clientFingerprint != "" {
      node.ClientFingerprint := q.clientFingerprint;
    }
    if q.echConfig != "" {
      node.EchConfig := q.echConfig;
    }
    if q.x25519 != "" {
      node.SupportX25519Mlkem768 := lib.tribool(q.x25519);
    }
  }

  /** The remaining writes explodeStdVLESS makes before vlessConstruct (subparser.cpp:2352-2375). */
  method VlessPrepareOptions(lib: Lib, node: Proxy, q: VlessQuery)
    modifies node`V2rayHttpUpgrade, node`V2rayHttpUpgradeFastOpen, node`UDP, node`PacketEncoding
    ensures node.V2rayHttpUpgrade == (if q.httpUpgrade != "" then lib.tribool(q.httpUpgrade) else old(node.V2rayHttpUpgrade))
    ensures node.V2rayHttpUpgradeFastOpen
            == (if q.httpUpgradeFastOpen != "" then lib.tribool(q.httpUpgradeFastOpen) else old(node.V2rayHttpUpgradeFastOpen))
    ensures node.UDP == (if q.udp != "" then lib.tribool(q.udp) else old(node.UDP))
    ensures node.PacketEncoding == (if q.packetEncoding != "" then q.packetEncoding else old(node.PacketEncoding))
  {
    if q.httpUpgrade != "" {
      node.V2rayHttpUpgrade := lib.tribool(q.httpUpgrade);
    }
    if q.httpUpgradeFastOpen != "" {
      node.V2rayHttpUpgradeFastOpen := lib.tribool(q.httpUpgradeFastOpen);
    }
    if q.udp != "" {
      node.UDP := lib.tribool(q.udp);
    }
    if q.packetEncoding != "" {
      node.PacketEncoding := q.packetEncoding;
    }
  }

  /** All the writes explodeStdVLESS makes to the record before vlessConstruct. */
  method VlessPrepare(lib: Lib, node: Proxy, q: VlessQuery)
    modifies node`Network, node`TLSSecure, node`ClientFingerprint, node`EchConfig, node`SupportX25519Mlkem768,
             node`GrpcServiceName, node`Path, node`WsPath, node`WsHeaders, node`Host, node`V2rayHttpUpgrade,
             node`V2rayHttpUpgradeFastOpen, node`UDP, node`PacketEncoding
    ensures TransportOf(node) == VlessPrepared(old(TransportOf(node)), q)
    ensures node.TLSSecure == q.tlsSecure
    ensures VlessExtras(lib, node, q)
    ensures node.UDP == (if q.udp != "" then lib.tribool(q.udp) else old(node.UDP))
  {
    VlessPrepareTransport(node, q);
    VlessPrepareTls(lib, node, q);
    VlessPrepareOptions(lib, node, q);
  }

  /**
   * The user id in the userinfo of a base64 body: the second ':'-separated part when
   * there is a ':' (nothing when there are fewer than two parts), else the whole of it.
   */
  function VlessUserId(lib: Lib, userinfo: string): (r: string)
    ensures ':' !in userinfo ==> r == userinfo
  {
    if ':' in userinfo then
      var parts := lib.split(userinfo, ":");
      if |parts| >= 2 then parts[1] else ""
    else userinfo
  }

  /**
   * The user id, host and port of a vless body: uuid@host:port; or host:port with the
   * uuid in the query; or, when the query has none, a URL-safe base64 userinfo@host:port.
   * An empty user id rejects the link.
   */
  function VlessAddress(lib: Lib, body: string, addition: string): (r: Option<(string, string, string)>)
    ensures r.Some? ==> r.value.0 != "" && r.value.2 != "" && AllDigits(r.value.2)
    ensures '@' in body ==> r == (match UserHostDigits(body)
                                  case None => None
                                  case Some((uuid, add, port)) => if uuid == "" then None else Some((uuid, add, port)))
  {
    var address :=
      if '@' in body then UserHostDigits(body)
      else
        var decoded := lib.urlSafeBase64Decode(body);
        var uuid := lib.getUrlArg(addition, "uuid");
        if uuid == "" && '@' in decoded && ':' in decoded then
          match UserHostDigits(decoded)
          case None => None
          case Some((userinfo, add, port)) => Some((VlessUserId(lib, userinfo), add, port))
        else
          match HostDigitsPort(body)
          case None => None
          case Some((add, port)) => Some((uuid, add, port));
    match address
    case None => None
    case Some((uuid, add, port)) => if uuid == "" then None else Some((uuid, add, port))
  }

  /** The remark of a query when the link has none: "remark", else "remarks", both URL-decoded. */
  function VlessQueryRemark(lib: Lib, addition: string): (r: string)
    ensures lib.urlDecode(lib.getUrlArg(addition, "remark")) != "" ==> r == lib.urlDecode(lib.getUrlArg(addition, "remark"))
  {
    var remarks := lib.urlDecode(lib.getUrlArg(addition, "remark"));
    if remarks != "" then remarks else lib.urlDecode(lib.getUrlArg(addition, "remarks"))
  }

  /** What explodeStdVLESS passes on once the address is known. */
  function VlessFromQuery(lib: Lib, addition: string, remarks: string, uuid: string, add: string, port: string)
    : (r: VlessFields)
    ensures r.uuid == uuid && r.server == add && r.port == port && r.remarks != ""
    ensures remarks != "" ==> r.remarks == remarks
    ensures addition == "" ==> r.query.None? && r.tfo == Indeterminate && r.scv == Indeterminate && r.sni == ""
    ensures addition != "" ==> r.query == Some(VlessQueryOf(lib, addition)) && r.sni == ArgOr(lib, addition, "sni", "peer")
  {
    if addition == "" then
      VlessFields(RemarkOr(remarks, add, port), add, port, uuid, "", "", "", "", "", "", "", Indeterminate,
                  Indeterminate, None)
    else
      var remarks' := if remarks != "" then remarks else VlessQueryRemark(lib, addition);
      VlessFields(RemarkOr(remarks', add, port), add, port, uuid, ArgOr(lib, addition, "sni", "peer"),
                  lib.getUrlArg(addition, "alpn"), lib.getUrlArg(addition, "hpkp"), lib.getUrlArg(addition, "flow"),
                  lib.getUrlArg(addition, "xtls"), lib.getUrlArg(addition, "pbk"), lib.getUrlArg(addition, "sid"),
                  lib.tribool(lib.getUrlArg(addition, "tfo")), lib.tribool(lib.getUrlArg(addition, "insecure")),
                  Some(VlessQueryOf(lib, addition)))
  }

  /** explodeStdVLESS (subparser.cpp:2200-2388) on a link that starts with an eight-character scheme. */
  function VlessStdLink(lib: Lib, link: string): (r: Option<VlessFields>)
    ensures r.Some? ==> r.value.uuid != "" && r.value.remarks != "" && AllDigits(r.value.port)
  {
    var cut := StdCut(lib, Drop(link, 8));
    match VlessAddress(lib, cut.0, cut.1)
    case None => None
    case Some((uuid, add, port)) => Some(VlessFromQuery(lib, cut.1, cut.2, uuid, add, port))
  }

  /**
   * The record after explodeStdVLESS: the common fields with UDP unset (commonConstruct
   * overwrites the "udp" setting of the query), TLS on, the query's transport
   * normalised, the identity fields and the query's remaining settings.
   */
  twostate predicate VlessNode(lib: Lib, node: Proxy, f: VlessFields)
    reads node
  {
    CommonFields(lib, node, VLESS, VlessDefaultGroup, f.remarks, f.server, f.port, Indeterminate, f.tfo, f.scv,
                 Indeterminate, "")
    && node.TLSSecure && node.TransferProtocol == node.Network
    && TransportOf(node) == VlessNormalize(VlessPreparedOr(old(TransportOf(node)), f.query))
    && node.UUID == f.uuid && node.SNI == f.sni && node.Fingerprint == f.fingerprint && node.Flow == f.flow
    && node.Alpn == (if f.alpn != "" then [f.alpn] else old(node.Alpn))
    && node.XTLS == ToU32(lib.toInt(f.xtls)) && node.PublicKey == f.publicKey && node.ShortID == f.shortId
    && (f.query.Some? ==> VlessExtras(lib, node, f.query.value))
    && (f.query.None? ==> node.ClientFingerprint == old(node.ClientFingerprint)
                          && node.PacketEncoding == old(node.PacketEncoding)
                          && node.EchConfig == old(node.EchConfig)
                          && node.SupportX25519Mlkem768 == old(node.SupportX25519Mlkem768)
                          && node.V2rayHttpUpgrade == old(node.V2rayHttpUpgrade)
                          && node.V2rayHttpUpgradeFastOpen == old(node.V2rayHttpUpgradeFastOpen))
  }

  /** The query writes, then vlessConstruct, as explodeStdVLESS makes them. */
  method VlessBuild(lib: Lib, node: Proxy, f: VlessFields)
    modifies node`Type, node`Group, node`Remark, node`Hostname, node`UnderlyingProxy, node`Port, node`UDP,
             node`TCPFastOpen, node`AllowInsecure, node`TLS13, node`Network, node`WsPath, node`WsHeaders,
             node`GrpcServiceName, node`Path, node`Host, node`TLSSecure, node`UUID, node`SNI, node`Alpn,
             node`Fingerprint, node`Flow, node`XTLS, node`PublicKey, node`ShortID, node`TransferProtocol,
             node`ClientFingerprint, node`EchConfig, node`SupportX25519Mlkem768, node`V2rayHttpUpgrade,
             node`V2rayHttpUpgradeFastOpen, node`PacketEncoding
    ensures VlessNode(lib, node, f)
  {
    if f.query.Some? {
      VlessBuildQueried(lib, node, f);
    } else {
      VlessBuildPlain(lib, node, f);
    }
  }

  /** A link with a query: its writes come first. */
  method VlessBuildQueried(lib: Lib, node: Proxy, f: VlessFields)
    requires f.query.Some?
    modifies node`Type, node`Group, node`Remark, node`Hostname, node`UnderlyingProxy, node`Port, node`UDP,
             node`TCPFastOpen, node`AllowInsecure, node`TLS13, node`Network, node`WsPath, node`WsHeaders,
             node`GrpcServiceName, node`Path, node`Host, node`TLSSecure, node`UUID, node`SNI, node`Alpn,
             node`Fingerprint, node`Flow, node`XTLS, node`PublicKey, node`ShortID, node`TransferProtocol,
             node`ClientFingerprint, node`EchConfig, node`SupportX25519Mlkem768, node`V2rayHttpUpgrade,
             node`V2rayHttpUpgradeFastOpen, node`PacketEncoding
    ensures VlessNode(lib, node, f)
  {
    VlessPrepare(lib, node, f.query.value);
    assert TransportOf(node) == VlessPreparedOr(old(TransportOf(node)), f.query);
    VlessConstruct(lib, node, VlessDefaultGroup, f.remarks, f.server, f.port, f.uuid, f.sni, f.alpn, f.fingerprint,
                   f.flow, f.xtls, f.publicKey, f.shortId, f.tfo, f.scv, "");
  }

  /** A link without a query goes straight to vlessConstruct. */
  method VlessBuildPlain(lib: Lib, node: Proxy, f: VlessFields)
    requires f.query.None?
    modifies node`Type, node`Group, node`Remark, node`Hostname, node`UnderlyingProxy, node`Port, node`UDP,
             node`TCPFastOpen, node`AllowInsecure, node`TLS13, node`Network, node`WsPath, node`WsHeaders,
             node`GrpcServiceName, node`Path, node`Host, node`TLSSecure, node`UUID, node`SNI, node`Alpn,
             node`Fingerprint, node`Flow, node`XTLS, node`PublicKey, node`ShortID, node`TransferProtocol
    ensures VlessNode(lib, node, f)
  {
    VlessConstruct(lib, node, VlessDefaultGroup, f.remarks, f.server, f.port, f.uuid, f.sni, f.alpn, f.fingerprint,
                   f.flow, f.xtls, f.publicKey, f.shortId, f.tfo, f.scv, "");
  }

  /** The address part of explodeStdVLESS (subparser.cpp:2221-2252). */
  method VlessReadAddress(lib: Lib, vless: string, addition: string) returns (r: Option<(string, string, string)>)
    ensures r == VlessAddress(lib, vless, addition)
  {
    var uuid, add, port := "", "", "";
    if '@' in vless {
      var m := UserHostDigits(vless);
      if m.None? {
        return None;
      }
      uuid, add, port := m.value.0, m.value.1, m.value.2;
    } else {
      var decoded := lib.urlSafeBase64Decode(vless);
      uuid := lib.getUrlArg(addition, "uuid");
      if uuid == "" && '@' in decoded && ':' in decoded {
        var parts := SplitFirst(decoded, '@');
        var userinfo, hostinfo := parts.value.0, parts.value.1;
        if ':' in userinfo {
          var userParts := lib.split(userinfo, ":");
          if |userParts| >= 2 {
            uuid := userParts[1];
          }
        } else {
          uuid := userinfo;
        }
        assert uuid == VlessUserId(lib, userinfo);
        var m := HostDigitsPort(hostinfo);
        if m.None? {
          return None;
        }
        add, port := m.value.0, m.value.1;
      } else {
        var m := HostDigitsPort(vless);
        if m.None? {
          return None;
        }
        add, port := m.value.0, m.value.1;
      }
    }
    if uuid == "" {
      return None;
    }
    r := Some((uuid, add, port));
  }

  /** The reading half of explodeStdVLESS (subparser.cpp:2200-2385): the arguments of vlessConstruct. */
  method VlessParse(lib: Lib, link: string) returns (r: Option<VlessFields>)
    ensures r == VlessStdLink(lib, link)
  {
    var vless := Drop(link, 8);
    var remarks, addition := "", "";
    var frag := SplitLast(vless, '#');
    if frag.Some? {
      remarks := lib.urlDecode(frag.value.1);
      vless := frag.value.0;
    }
    var q := SplitLast(vless, '?');
    if q.Some? {
      addition := q.value.1;
      vless := q.value.0;
    }
    assert StdCut(lib, Drop(link, 8)) == (vless, addition, remarks);
    var address := VlessReadAddress(lib, vless, addition);
    if address.None? {
      return None;
    }
    var (uuid, add, port) := address.value;
    ghost var remarks0 := remarks;
    var sni, alpn, fingerprint, flow, xtls, publicKey, shortId := "", "", "", "", "", "", "";
    var tfo, scv := Indeterminate, Indeterminate;
    var query := None;
    if addition != "" {
      sni := lib.getUrlArg(addition, "sni");
      if sni == "" {
        sni := lib.getUrlArg(addition, "peer");
      }
      alpn := lib.getUrlArg(addition, "alpn");
      fingerprint := lib.getUrlArg(addition, "hpkp");
      flow := lib.getUrlArg(addition, "flow");
      xtls := lib.getUrlArg(addition, "xtls");
      publicKey := lib.getUrlArg(addition, "pbk");
      shortId := lib.getUrlArg(addition, "sid");
      tfo := lib.tribool(lib.getUrlArg(addition, "tfo"));
      scv := lib.tribool(lib.getUrlArg(addition, "insecure"));
      var settings := VlessReadQuery(lib, addition);
      query := Some(settings);
      if remarks == "" {
        remarks := lib.urlDecode(lib.getUrlArg(addition, "remark"));
        if remarks == "" {
          remarks := lib.urlDecode(lib.getUrlArg(addition, "remarks"));
        }
      }
    }
    if remarks == "" {
      remarks := HostPort(add, port);
    }
    var f := VlessFields(remarks, add, port, uuid, sni, alpn, fingerprint, flow, xtls, publicKey, shortId, tfo, scv,
                         query);
    assert f == VlessFromQuery(lib, addition, remarks0, uuid, add, port);
    r := Some(f);
  }

  method ExplodeStdVless(lib: Lib, link: string, node: Proxy)
    modifies node`Type, node`Group, node`Remark, node`Hostname, node`UnderlyingProxy, node`Port, node`UDP,
             node`TCPFastOpen, node`AllowInsecure, node`TLS13, node`Network, node`WsPath, node`WsHeaders,
             node`GrpcServiceName, node`Path, node`Host, node`TLSSecure, node`UUID, node`SNI, node`Alpn,
             node`Fingerprint, node`Flow, node`XTLS, node`PublicKey, node`ShortID, node`TransferProtocol,
             node`ClientFingerprint, node`EchConfig, node`SupportX25519Mlkem768, node`V2rayHttpUpgrade,
             node`V2rayHttpUpgradeFastOpen, node`PacketEncoding
    ensures VlessStdLink(lib, link).None? ==> unchanged(node)
    ensures VlessStdLink(lib, link).Some? ==> VlessNode(lib, node, VlessStdLink(lib, link).value)
  {
    var parsed := VlessParse(lib, link);
    if parsed.Some? {
      VlessBuild(lib, node, parsed.value);
    }
  }

  /** explodeVLESS's rewriting: the scheme is normalised and "/?" becomes "?". */
  function VlessNormalized(lib: Lib, link: string): string
  {
    ReplaceAll(lib.regReplace(link, "(vless)://", "vless://"), "/?", "?")
  }

  /** explodeVLESS (subparser.cpp:2390-2395): the rewritten link goes to explodeStdVLESS unchecked. */
  function VlessLink(lib: Lib, link: string): (r: Option<VlessFields>)
    ensures r.Some? ==> r.value.uuid != "" && r.value.remarks != "" && AllDigits(r.value.port)
  {
    VlessStdLink(lib, VlessNormalized(lib, link))
  }

  method ExplodeVless(lib: Lib, link: string, node: Proxy)
    modifies node`Type, node`Group, node`Remark, node`Hostname, node`UnderlyingProxy, node`Port, node`UDP,
             node`TCPFastOpen, node`AllowInsecure, node`TLS13, node`Network, node`WsPath, node`WsHeaders,
             node`GrpcServiceName, node`Path, node`Host, node`TLSSecure, node`UUID, node`SNI, node`Alpn,
             node`Fingerprint, node`Flow, node`XTLS, node`PublicKey, node`ShortID, node`TransferProtocol,
             node`ClientFingerprint, node`EchConfig, node`SupportX25519Mlkem768, node`V2rayHttpUpgrade,
             node`V2rayHttpUpgradeFastOpen, node`PacketEncoding
    ensures VlessLink(lib, link).None? ==> unchanged(node)
    ensures VlessLink(lib, link).Some? ==> VlessNode(lib, node, VlessLink(lib, link).value)
  {
    var vless := lib.regReplace(link, "(vless)://", "vless://");
    vless := ReplaceAll(vless, "/?", "?");
    ExplodeStdVless(lib, vless, node);
  }

  /** A vless link built as uuid@host:port?query#name decodes back to its parts. */
  lemma VlessRoundTrip(lib: Lib, uuid: string, host: string, port: string, query: string, name: string)
    requires '@' !in uuid && uuid != "" && port != "" && AllDigits(port) && '?' !in query && '#' !in name
    ensures VlessStdLink(lib, "vless://" + (uuid + "@" + host + ":" + port) + "?" + query + "#" + name)
            == Some(VlessFromQuery(lib, query, lib.urlDecode(name), uuid, host, port))
  {
    StdCutOf(lib, "vless://", uuid + "@" + host + ":" + port, query, name);
    VlessAddressOf(lib, uuid, host, port, query);
  }

  /** A body uuid@host:port names its own user id, whatever the query says. */
  lemma VlessAddressOf(lib: Lib, uuid: string, host: string, port: string, addition: string)
    requires '@' !in uuid && uuid != "" && port != "" && AllDigits(port)
    ensures VlessAddress(lib, uuid + "@" + host + ":" + port, addition) == Some((uuid, host, port))
  {
    var body := uuid + "@" + host + ":" + port;
    assert '@' in body by {
      assert body == uuid + ['@'] + (host + ":" + port);
    }
    UserHostDigitsOf(uuid, host, port);
  }

  /**
   * Without an '@' and without a "uuid" argument, a body whose URL-safe base64 decoding
   * is uuid@host:port yields that user id and address.
   */
  lemma VlessBase64Address(lib: Lib, body: string, addition: string, uuid: string, host: string, port: string)
    requires '@' !in body && lib.getUrlArg(addition, "uuid") == ""
    requires lib.urlSafeBase64Decode(body) == uuid + "@" + host + ":" + port
    requires ':' !in uuid && '@' !in uuid && uuid != "" && port != "" && AllDigits(port)
    ensures VlessAddress(lib, body, addition) == Some((uuid, host, port))
  {
    var decoded := uuid + "@" + host + ":" + port;
    assert decoded[|uuid|] == '@';
    assert decoded[|uuid + "@" + host|] == ':';
    UserHostDigitsOf(uuid, host, port);
  }

  /** With a "uuid" argument, a body without '@' is read as host:port and the argument is the user id. */
  lemma VlessQueryAddress(lib: Lib, host: string, port: string, addition: string)
    requires '@' !in host + ":" + port && lib.getUrlArg(addition, "uuid") != "" && port != "" && AllDigits(port)
    ensures VlessAddress(lib, host + ":" + port, addition) == Some((lib.getUrlArg(addition, "uuid"), host, port))
  {
    HostDigitsPortOf(host, port);
  }

  /**
   * A WebSocket query with a path ends with that path in both the legacy and the
   * WebSocket field, and a given host in both host fields.
   */
  lemma VlessWebSocketTransport(t: Transport, q: VlessQuery)
    requires q.network == "ws" && q.wsPath != ""
    ensures var r := VlessNormalize(VlessPrepared(t, q));
            r.network == "ws" && r.path == q.wsPath && r.wsPath == q.wsPath
            && (q.wsHeaders != "" ==> r.host == q.wsHeaders && r.wsHeaders == q.wsHeaders)
  {
  }

  /** A gRPC query with a service name and no path ends with the name in both fields. */
  lemma VlessGrpcTransport(t: Transport, q: VlessQuery)
    requires q.network == "grpc" && q.grpcServiceName != "" && q.wsPath == ""
    ensures var r := VlessNormalize(VlessPrepared(t, q));
            r.network == "grpc" && r.path == q.grpcServiceName && r.grpcServiceName == q.grpcServiceName
  {
  }
}
