// The per-protocol constructors of src/parser/subparser.cpp (lines 28-511).  Each
// one fills the record it is handed field by field; none of them clears it first,
// so every field a constructor does not write keeps the caller's value.  The
// `modifies` clause of each constructor lists exactly the fields it may write.
// Defaulted trailing arguments of the C++ declarations are passed explicitly.

module Constructors {
  import opened Utils
  import opened Text
  import opened Proxies

  const ZeroUuid := "00000000-0000-0000-0000-000000000000"

  /** The ten fields commonConstruct writes hold the given values. */
  predicate CommonFields(lib: Lib, r: Proxy, t: ProxyType, group: string, remarks: string,
                         server: string, port: string, udp: Tribool, tfo: Tribool, scv: Tribool,
                         tls13: Tribool, underlyingProxy: string)
    reads r`Type, r`Group, r`Remark, r`Hostname, r`UnderlyingProxy, r`Port, r`UDP, r`TCPFastOpen,
          r`AllowInsecure, r`TLS13
  {
    r.Type == t && r.Group == group && r.Remark == remarks && r.Hostname == server
    && r.UnderlyingProxy == underlyingProxy && r.Port == ToU16(lib.toInt(port))
    && r.UDP == udp && r.TCPFastOpen == tfo && r.AllowInsecure == scv && r.TLS13 == tls13
  }

  /** commonConstruct: writes exactly the ten common fields. */
  method CommonConstruct(lib: Lib, node: Proxy, t: ProxyType, group: string, remarks: string,
                         server: string, port: string, udp: Tribool, tfo: Tribool, scv: Tribool,
                         tls13: Tribool, underlyingProxy: string)
    modifies node`Type, node`Group, node`Remark, node`Hostname, node`UnderlyingProxy, node`Port, node`UDP,
             node`TCPFastOpen, node`AllowInsecure, node`TLS13
    ensures CommonFields(lib, node, t, group, remarks, server, port, udp, tfo, scv, tls13, underlyingProxy)
  {
    node.Type := t;
    node.Group := group;
    node.Remark := remarks;
    node.Hostname := server;
    node.UnderlyingProxy := underlyingProxy;
    node.Port := ToU16(lib.toInt(port));
    node.UDP := udp;
    node.TCPFastOpen := tfo;
    node.AllowInsecure := scv;
    node.TLS13 := tls13;
  }

  /** The identity half of vmessConstruct: user id (all zeros when empty), alter id, cipher, SNI, camouflage type, TLS. */
  method VmessIdentity(lib: Lib, node: Proxy, fakeType: string, id: string, aid: string, cipher: string,
                       tls: string, sni: string)
    modifies node`UserId, node`AlterId, node`EncryptMethod, node`ServerName, node`FakeType, node`TLSSecure
    ensures node.UserId == (if id == "" then ZeroUuid else id) && node.UserId != ""
    ensures node.AlterId == ToU16(lib.toInt(aid))
    ensures node.EncryptMethod == cipher && node.ServerName == sni && node.FakeType == fakeType
    ensures node.TLSSecure <==> tls == "tls"
  {
    node.UserId := if id == "" then ZeroUuid else id;
    node.AlterId := ToU16(lib.toInt(aid));
    node.EncryptMethod := cipher;
    node.ServerName := sni;
    node.FakeType := fakeType;
    node.TLSSecure := tls == "tls";
  }

  /**
   * The transport half of vmessConstruct: the network defaults to tcp; QUIC keeps
   * host and path as its security and key, every other network as host and path,
   * the host falling back to the server name when that is not an IP literal.
   */
  method VmessTransport(lib: Lib, node: Proxy, add: string, net: string, path: string, host: string, edge: string)
    modifies node`TransferProtocol, node`Edge, node`QUICSecure, node`QUICSecret, node`Host, node`Path
    ensures node.TransferProtocol == (if net == "" then "tcp" else net) && node.TransferProtocol != ""
    ensures node.Edge == edge
    ensures net == "quic" ==> node.QUICSecure == host && node.QUICSecret == path
                              && node.Host == old(node.Host) && node.Path == old(node.Path)
    ensures net != "quic" ==>
              node.QUICSecure == old(node.QUICSecure) && node.QUICSecret == old(node.QUICSecret)
              && node.Host == (if host == "" && !lib.isIPv4(add) && !lib.isIPv6(add) then add else lib.trim(host))
              && node.Path == (if path == "" then "/" else lib.trim(path))
  {
    node.TransferProtocol := if net == "" then "tcp" else net;
    node.Edge := edge;
    if net == "quic" {
      node.QUICSecure := host;
      node.QUICSecret := path;
    } else {
      node.Host := if host == "" && !lib.isIPv4(add) && !lib.isIPv6(add) then add else lib.trim(host);
      node.Path := if path == "" then "/" else lib.trim(path);
    }
  }

  /** vmessConstruct (subparser.cpp:42-64). */
  method VmessConstruct(lib: Lib, node: Proxy, group: string, remarks: string, add: string, port: string,
                        fakeType: string, id: string, aid: string, net: string, cipher: string,
                        path: string, host: string, edge: string, tls: string, sni: string,
                        udp: Tribool, tfo: Tribool, scv: Tribool, tls13: Tribool, underlyingProxy: string)
    modifies node`Type, node`Group, node`Remark, node`Hostname, node`UnderlyingProxy, node`Port, node`UDP,
             node`TCPFastOpen, node`AllowInsecure, node`TLS13, node`UserId, node`AlterId, node`EncryptMethod,
             node`TransferProtocol, node`Edge, node`ServerName, node`QUICSecure, node`QUICSecret, node`Host,
             node`Path, node`FakeType, node`TLSSecure
    ensures CommonFields(lib, node, VMess, group, remarks, add, port, udp, tfo, scv, tls13, underlyingProxy)
    ensures node.UserId == (if id == "" then ZeroUuid else id) && node.UserId != ""
    ensures node.AlterId == ToU16(lib.toInt(aid))
    ensures node.EncryptMethod == cipher && node.Edge == edge && node.ServerName == sni && node.FakeType == fakeType
    ensures node.TransferProtocol == (if net == "" then "tcp" else net) && node.TransferProtocol != ""
    ensures net == "quic" ==> node.QUICSecure == host && node.QUICSecret == path
                              && node.Host == old(node.Host) && node.Path == old(node.Path)
    ensures net != "quic" ==>
              node.QUICSecure == old(node.QUICSecure) && node.QUICSecret == old(node.QUICSecret)
              && node.Host == (if host == "" && !lib.isIPv4(add) && !lib.isIPv6(add) then add else lib.trim(host))
              && node.Path == (if path == "" then "/" else lib.trim(path))
    ensures node.TLSSecure <==> tls == "tls"
  {
    CommonConstruct(lib, node, VMess, group, remarks, add, port, udp, tfo, scv, tls13, underlyingProxy);
    VmessIdentity(lib, node, fakeType, id, aid, cipher, tls, sni);
    VmessTransport(lib, node, add, net, path, host, edge);
  }

  /** ssrConstruct (subparser.cpp:66-75): TLS13 is left unspecified. */
  method SsrConstruct(lib: Lib, node: Proxy, group: string, remarks: string, server: string, port: string,
                      protocol: string, method_: string, obfs: string, password: string, obfsParam: string,
                      protoParam: string, udp: Tribool, tfo: Tribool, scv: Tribool, underlyingProxy: string)
    modifies node`Type, node`Group, node`Remark, node`Hostname, node`UnderlyingProxy, node`Port, node`UDP,
             node`TCPFastOpen, node`AllowInsecure, node`TLS13, node`Password, node`EncryptMethod,
             node`Protocol, node`ProtocolParam, node`OBFS, node`OBFSParam
    ensures CommonFields(lib, node, ShadowsocksR, group, remarks, server, port, udp, tfo, scv, Indeterminate, underlyingProxy)
    ensures node.Password == password && node.EncryptMethod == method_ && node.Protocol == protocol
    ensures node.ProtocolParam == protoParam && node.OBFS == obfs && node.OBFSParam == obfsParam
  {
    CommonConstruct(lib, node, ShadowsocksR, group, remarks, server, port, udp, tfo, scv, Indeterminate, underlyingProxy);
    node.Password := password;
    node.EncryptMethod := method_;
    node.Protocol := protocol;
    node.ProtocolParam := protoParam;
    node.OBFS := obfs;
    node.OBFSParam := obfsParam;
  }

  /** ssConstruct (subparser.cpp:77-84). */
  method SsConstruct(lib: Lib, node: Proxy, group: string, remarks: string, server: string, port: string,
                     password: string, method_: string, plugin: string, pluginOpts: string,
                     udp: Tribool, tfo: Tribool, scv: Tribool, tls13: Tribool, underlyingProxy: string)
    modifies node`Type, node`Group, node`Remark, node`Hostname, node`UnderlyingProxy, node`Port, node`UDP,
             node`TCPFastOpen, node`AllowInsecure, node`TLS13, node`Password, node`EncryptMethod,
             node`Plugin, node`PluginOption
    ensures CommonFields(lib, node, Shadowsocks, group, remarks, server, port, udp, tfo, scv, tls13, underlyingProxy)
    ensures node.Password == password && node.EncryptMethod == method_
    ensures node.Plugin == plugin && node.PluginOption == pluginOpts
  {
    CommonConstruct(lib, node, Shadowsocks, group, remarks, server, port, udp, tfo, scv, tls13, underlyingProxy);
    node.Password := password;
    node.EncryptMethod := method_;
    node.Plugin := plugin;
    node.PluginOption := pluginOpts;
  }

  /** socksConstruct (subparser.cpp:86-91): TLS13 is left unspecified. */
  method SocksConstruct(lib: Lib, node: Proxy, group: string, remarks: string, server: string, port: string,
                        username: string, password: string, udp: Tribool, tfo: Tribool, scv: Tribool,
                        underlyingProxy: string)
    modifies node`Type, node`Group, node`Remark, node`Hostname, node`UnderlyingProxy, node`Port, node`UDP,
             node`TCPFastOpen, node`AllowInsecure, node`TLS13, node`Username, node`Password
    ensures CommonFields(lib, node, SOCKS5, group, remarks, server, port, udp, tfo, scv, Indeterminate, underlyingProxy)
    ensures node.Username == username && node.Password == password
  {
    CommonConstruct(lib, node, SOCKS5, group, remarks, server, port, udp, tfo, scv, Indeterminate, underlyingProxy);
    node.Username := username;
    node.Password := password;
  }

  /** httpConstruct (subparser.cpp:93-99): HTTPS exactly when `tls`; UDP is left unspecified. */
  method HttpConstruct(lib: Lib, node: Proxy, group: string, remarks: string, server: string, port: string,
                       username: string, password: string, tls: bool, tfo: Tribool, scv: Tribool,
                       tls13: Tribool, underlyingProxy: string)
    modifies node`Type, node`Group, node`Remark, node`Hostname, node`UnderlyingProxy, node`Port, node`UDP,
             node`TCPFastOpen, node`AllowInsecure, node`TLS13, node`Username, node`Password, node`TLSSecure
    ensures CommonFields(lib, node, if tls then HTTPS else HTTP, group, remarks, server, port,
                         Indeterminate, tfo, scv, tls13, underlyingProxy)
    ensures node.Type == HTTPS <==> node.TLSSecure
    ensures node.Username == username && node.Password == password && node.TLSSecure == tls
  {
    CommonConstruct(lib, node, if tls then HTTPS else HTTP, group, remarks, server, port,
                         Indeterminate, tfo, scv, tls13, underlyingProxy);
    node.Username := username;
    node.Password := password;
    node.TLSSecure := tls;
  }

  /**
   * The transport part of trojanConstruct: the network (tcp when empty) is written
   * to both transport fields, and the path and host are mirrored into the gRPC or
   * WebSocket fields for those two networks.
   */
  method TrojanTransport(node: Proxy, network: string, host: string, path: string)
    modifies node`Host, node`TransferProtocol, node`Network, node`Path, node`GrpcServiceName, node`WsPath,
             node`WsHeaders
    ensures node.Host == host && node.Path == path
    ensures node.Network == (if network == "" then "tcp" else network)
    ensures node.TransferProtocol == node.Network && node.Network != ""
    ensures node.GrpcServiceName == (if network == "grpc" then path else old(node.GrpcServiceName))
    ensures node.WsPath == (if network == "ws" then path else old(node.WsPath))
    ensures node.WsHeaders == (if network == "ws" then host else old(node.WsHeaders))
  {
    node.Host := host;
    node.TransferProtocol := if network == "" then "tcp" else network;
    node.Network := if network == "" then "tcp" else network;
    node.Path := path;
    if network == "grpc" {
      node.GrpcServiceName := path;
    } else if network == "ws" {
      node.WsPath := path;
      node.WsHeaders := host;
    }
  }

  /** trojanConstruct (subparser.cpp:101-118). */
  method TrojanConstruct(lib: Lib, node: Proxy, group: string, remarks: string, server: string, port: string,
                         password: string, network: string, host: string, path: string, tlsSecure: bool,
                         udp: Tribool, tfo: Tribool, scv: Tribool, tls13: Tribool, underlyingProxy: string)
    modifies node`Type, node`Group, node`Remark, node`Hostname, node`UnderlyingProxy, node`Port, node`UDP,
             node`TCPFastOpen, node`AllowInsecure, node`TLS13, node`Password, node`Host, node`TLSSecure,
             node`TransferProtocol, node`Network, node`Path, node`GrpcServiceName, node`WsPath, node`WsHeaders
    ensures CommonFields(lib, node, Trojan, group, remarks, server, port, udp, tfo, scv, tls13, underlyingProxy)
    ensures node.Password == password && node.Host == host && node.TLSSecure == tlsSecure && node.Path == path
    ensures node.Network == (if network == "" then "tcp" else network)
    ensures node.TransferProtocol == node.Network && node.Network != ""
    ensures node.GrpcServiceName == (if network == "grpc" then path else old(node.GrpcServiceName))
    ensures node.WsPath == (if network == "ws" then path else old(node.WsPath))
    ensures node.WsHeaders == (if network == "ws" then host else old(node.WsHeaders))
  {
    CommonConstruct(lib, node, Trojan, group, remarks, server, port, udp, tfo, scv, tls13, underlyingProxy);
    node.Password := password;
    node.TLSSecure := tlsSecure;
    TrojanTransport(node, network, host, path);
  }

  /** snellConstruct (subparser.cpp:120-127): TLS13 is left unspecified. */
  method SnellConstruct(lib: Lib, node: Proxy, group: string, remarks: string, server: string, port: string,
                        password: string, obfs: string, host: string, version: U16,
                        udp: Tribool, tfo: Tribool, scv: Tribool, underlyingProxy: string)
    modifies node`Type, node`Group, node`Remark, node`Hostname, node`UnderlyingProxy, node`Port, node`UDP,
             node`TCPFastOpen, node`AllowInsecure, node`TLS13, node`Password, node`OBFS, node`Host,
             node`SnellVersion
    ensures CommonFields(lib, node, Snell, group, remarks, server, port, udp, tfo, scv, Indeterminate, underlyingProxy)
    ensures node.Password == password && node.OBFS == obfs && node.Host == host && node.SnellVersion == version
  {
    CommonConstruct(lib, node, Snell, group, remarks, server, port, udp, tfo, scv, Indeterminate, underlyingProxy);
    node.Password := password;
    node.OBFS := obfs;
    node.Host := host;
    node.SnellVersion := version;
  }

  /** The interface addresses and keys of wireguardConstruct. */
  method WireguardKeys(node: Proxy, selfIp: string, selfIpv6: string, privKey: string, pubKey: string, psk: string)
    modifies node`SelfIP, node`SelfIPv6, node`PrivateKey, node`PublicKey, node`PreSharedKey
    ensures node.SelfIP == selfIp && node.SelfIPv6 == selfIpv6 && node.PrivateKey == privKey
    ensures node.PublicKey == pubKey && node.PreSharedKey == psk
  {
    node.SelfIP := selfIp;
    node.SelfIPv6 := selfIpv6;
    node.PrivateKey := privKey;
    node.PublicKey := pubKey;
    node.PreSharedKey := psk;
  }

  /** The tunnel settings of wireguardConstruct; MTU and keep-alive are truncated to 16 bits. */
  method WireguardSettings(lib: Lib, node: Proxy, dns: seq<string>, mtu: string, keepalive: string,
                           testUrl: string, clientId: string)
    modifies node`DnsServers, node`Mtu, node`KeepAlive, node`TestUrl, node`ClientId
    ensures node.DnsServers == dns && node.TestUrl == testUrl && node.ClientId == clientId
    ensures node.Mtu == ToU16(lib.toInt(mtu)) && node.KeepAlive == ToU16(lib.toInt(keepalive))
  {
    node.DnsServers := dns;
    node.Mtu := ToU16(lib.toInt(mtu));
    node.KeepAlive := ToU16(lib.toInt(keepalive));
    node.TestUrl := testUrl;
    node.ClientId := clientId;
  }

  /** wireguardConstruct (subparser.cpp:129-142): TFO, certificate check and TLS13 are left unspecified. */
  method WireguardConstruct(lib: Lib, node: Proxy, group: string, remarks: string, server: string, port: string,
                            selfIp: string, selfIpv6: string, privKey: string, pubKey: string, psk: string,
                            dns: seq<string>, mtu: string, keepalive: string, testUrl: string, clientId: string,
                            udp: Tribool, underlyingProxy: string)
    modifies node`Type, node`Group, node`Remark, node`Hostname, node`UnderlyingProxy, node`Port, node`UDP,
             node`TCPFastOpen, node`AllowInsecure, node`TLS13, node`SelfIP, node`SelfIPv6, node`PrivateKey,
             node`PublicKey, node`PreSharedKey, node`DnsServers, node`Mtu, node`KeepAlive, node`TestUrl,
             node`ClientId
    ensures CommonFields(lib, node, WireGuard, group, remarks, server, port, udp, Indeterminate, Indeterminate,
                         Indeterminate, underlyingProxy)
    ensures node.SelfIP == selfIp && node.SelfIPv6 == selfIpv6 && node.PrivateKey == privKey
    ensures node.PublicKey == pubKey && node.PreSharedKey == psk && node.DnsServers == dns
    ensures node.Mtu == ToU16(lib.toInt(mtu)) && node.KeepAlive == ToU16(lib.toInt(keepalive))
    ensures node.TestUrl == testUrl && node.ClientId == clientId
  {
    CommonConstruct(lib, node, WireGuard, group, remarks, server, port, udp, Indeterminate, Indeterminate,
                    Indeterminate, underlyingProxy);
    WireguardKeys(node, selfIp, selfIpv6, privKey, pubKey, psk);
    WireguardSettings(lib, node, dns, mtu, keepalive, testUrl, clientId);
  }

  /** Hysteria's own unit test: longer than four characters and the first "bps" is the last three. */
  predicate EndsInBpsUnit(s: string)
  {
    |s| > 4 && Find(s, "bps") == |s| - 3
  }

  /** A value that ends in its only "bps" carries that unit as suffix. */
  lemma EndsInBpsUnitSuffix(s: string)
    requires EndsInBpsUnit(s)
    ensures EndsWith(s, "bps") && Contains(s, "bps")
  {
  }

  /**
   * One direction of hysteriaConstruct's bandwidth, as (text, rate): a value ending in its unit is
   * kept verbatim, a non-zero number gets " Mbps" and is also the rate, and an explicit speed
   * overrides the rate; otherwise text and rate keep `text0`/`rate0`, the record's current values.
   */
  function HysteriaBandwidth(lib: Lib, value: string, speed: string, text0: string, rate0: U32): (r: (string, U32))
    ensures value != "" && EndsInBpsUnit(value) ==> r.0 == value
    ensures value != "" && !EndsInBpsUnit(value) && lib.toInt(value) != 0 ==> r.0 == value + " Mbps"
    ensures (value == "" || (!EndsInBpsUnit(value) && lib.toInt(value) == 0)) ==> r.0 == text0
    ensures speed != "" ==> r.1 == ToU32(lib.toInt(speed))
    ensures speed == "" ==>
              r.1 == (if value != "" && !EndsInBpsUnit(value) && lib.toInt(value) != 0
                      then ToU32(lib.toInt(value)) else rate0)
  {
    var numeric := value != "" && !EndsInBpsUnit(value) && lib.toInt(value) != 0;
    (if value != "" && EndsInBpsUnit(value) then value else if numeric then value + " Mbps" else text0,
     if speed != "" then ToU32(lib.toInt(speed)) else if numeric then ToU32(lib.toInt(value)) else rate0)
  }

  /**
   * One direction of hysteriaConstruct's bandwidth handling (subparser.cpp:177-200):
   * `value` is the text ("up"/"down"), `speed` the explicit number ("up_speed"/"down_speed"),
   * `text0`/`rate0` the record's current Up/UpSpeed (or Down/DownSpeed).
   */
  method HysteriaRate(lib: Lib, value: string, speed: string, text0: string, rate0: U32)
    returns (text: string, rate: U32)
    ensures (text, rate) == HysteriaBandwidth(lib, value, speed, text0, rate0)
  {
    text, rate := text0, rate0;
    if value != "" {
      if |value| > 4 && Find(value, "bps") == |value| - 3 {
        text := value;
      } else if lib.toInt(value) != 0 {
        rate := ToU32(lib.toInt(value));
        text := value + " Mbps";
      }
    }
    if speed != "" {
      rate := ToU32(lib.toInt(speed));
    }
  }

  /** Stores the two bandwidth texts and rates computed by the Hysteria constructors. */
  method SetBandwidth(node: Proxy, upText: string, upRate: U32, downText: string, downRate: U32)
    modifies node`Up, node`UpSpeed, node`Down, node`DownSpeed
    ensures node.Up == upText && node.UpSpeed == upRate && node.Down == downText && node.DownSpeed == downRate
  {
    node.Up := upText;
    node.UpSpeed := upRate;
    node.Down := downText;
    node.DownSpeed := downRate;
  }

  /** The TLS identity shared by the Hysteria constructors; a non-empty ALPN replaces the list by itself. */
  method TlsIdentity(node: Proxy, sni: string, fingerprint: string, alpn: string, ca: string, caStr: string)
    modifies node`SNI, node`Fingerprint, node`Alpn, node`Ca, node`CaStr
    ensures node.SNI == sni && node.Fingerprint == fingerprint && node.Ca == ca && node.CaStr == caStr
    ensures node.Alpn == (if alpn != "" then [alpn] else old(node.Alpn))
  {
    node.SNI := sni;
    node.Fingerprint := fingerprint;
    if alpn != "" {
      node.Alpn := [alpn];
    }
    node.Ca := ca;
    node.CaStr := caStr;
  }

  /** The authentication of hysteriaConstruct: a non-empty `auth` is base64-decoded and wins over `authStr`. */
  method HysteriaAuth(lib: Lib, node: Proxy, auth: string, authStr: string, obfs: string)
    modifies node`AuthStr, node`OBFS
    ensures node.AuthStr == (if auth != "" then lib.base64Decode(auth) else authStr)
    ensures node.OBFS == obfs
  {
    node.AuthStr := authStr;
    if auth != "" {
      node.AuthStr := lib.base64Decode(auth);
    }
    node.OBFS := obfs;
  }

  /**
   * The first half of hysteriaConstruct after commonConstruct (subparser.cpp:174-199):
   * port range, protocol, obfuscation, the two bandwidths and the authentication.
   */
  method HysteriaLink(lib: Lib, node: Proxy, ports: string, protocol: string, obfsProtocol: string, up: string,
                      upSpeed: string, down: string, downSpeed: string, auth: string, authStr: string, obfs: string)
    modifies node`Ports, node`Protocol, node`OBFSParam, node`Up, node`UpSpeed, node`Down, node`DownSpeed,
             node`AuthStr, node`OBFS
    ensures node.Ports == ports && node.Protocol == protocol && node.OBFSParam == obfsProtocol
    ensures (node.Up, node.UpSpeed) == HysteriaBandwidth(lib, up, upSpeed, old(node.Up), old(node.UpSpeed))
    ensures (node.Down, node.DownSpeed) == HysteriaBandwidth(lib, down, downSpeed, old(node.Down), old(node.DownSpeed))
    ensures node.AuthStr == (if auth != "" then lib.base64Decode(auth) else authStr)
    ensures node.OBFS == obfs
  {
    node.Ports := ports;
    node.Protocol := protocol;
    node.OBFSParam := obfsProtocol;
    var upText, upRate := HysteriaRate(lib, up, upSpeed, node.Up, node.UpSpeed);
    var downText, downRate := HysteriaRate(lib, down, downSpeed, node.Down, node.DownSpeed);
    SetBandwidth(node, upText, upRate, downText, downRate);
    HysteriaAuth(lib, node, auth, authStr, obfs);
  }

  /** Receive windows, MTU discovery and port-hopping interval of hysteriaConstruct; numbers are truncated to 32 bits. */
  method HysteriaWindows(lib: Lib, node: Proxy, recvWindowConn: string, recvWindow: string,
                         disableMtuDiscovery: string, hopInterval: string)
    modifies node`RecvWindowConn, node`RecvWindow, node`DisableMtuDiscovery, node`HopInterval
    ensures node.RecvWindowConn == ToU32(lib.toInt(recvWindowConn)) && node.RecvWindow == ToU32(lib.toInt(recvWindow))
    ensures node.DisableMtuDiscovery == lib.tribool(disableMtuDiscovery)
    ensures node.HopInterval == ToU32(lib.toInt(hopInterval))
  {
    node.RecvWindowConn := ToU32(lib.toInt(recvWindowConn));
    node.RecvWindow := ToU32(lib.toInt(recvWindow));
    node.DisableMtuDiscovery := lib.tribool(disableMtuDiscovery);
    node.HopInterval := ToU32(lib.toInt(hopInterval));
  }

  /** The second half of hysteriaConstruct (subparser.cpp:200-217): TLS identity and QUIC tuning. */
  method HysteriaTuning(lib: Lib, node: Proxy, sni: string, fingerprint: string, ca: string, caStr: string,
                        recvWindowConn: string, recvWindow: string, disableMtuDiscovery: string,
                        hopInterval: string, alpn: string)
    modifies node`SNI, node`Fingerprint, node`Alpn, node`Ca, node`CaStr, node`RecvWindowConn, node`RecvWindow,
             node`DisableMtuDiscovery, node`HopInterval
    ensures node.SNI == sni && node.Fingerprint == fingerprint && node.Ca == ca && node.CaStr == caStr
    ensures node.RecvWindowConn == ToU32(lib.toInt(recvWindowConn)) && node.RecvWindow == ToU32(lib.toInt(recvWindow))
    ensures node.DisableMtuDiscovery == lib.tribool(disableMtuDiscovery)
    ensures node.HopInterval == ToU32(lib.toInt(hopInterval))
    ensures node.Alpn == (if alpn != "" then [alpn] else old(node.Alpn))
  {
    TlsIdentity(node, sni, fingerprint, alpn, ca, caStr);
    HysteriaWindows(lib, node, recvWindowConn, recvWindow, disableMtuDiscovery, hopInterval);
  }

  /** hysteriaConstruct (subparser.cpp:144-218). */
  method HysteriaConstruct(lib: Lib, node: Proxy, group: string, remarks: string, server: string, port: string,
                           ports: string, protocol: string, obfsProtocol: string, up: string, upSpeed: string,
                           down: string, downSpeed: string, auth: string, authStr: string, obfs: string,
                           sni: string, fingerprint: string, ca: string, caStr: string, recvWindowConn: string,
                           recvWindow: string, disableMtuDiscovery: string, hopInterval: string, alpn: string,
                           tfo: Tribool, scv: Tribool, underlyingProxy: string)
    modifies node`Type, node`Group, node`Remark, node`Hostname, node`UnderlyingProxy, node`Port, node`UDP,
             node`TCPFastOpen, node`AllowInsecure, node`TLS13, node`Ports, node`Protocol, node`OBFSParam,
             node`Up, node`UpSpeed, node`Down, node`DownSpeed, node`AuthStr, node`OBFS, node`SNI,
             node`Fingerprint, node`Ca, node`CaStr, node`RecvWindowConn, node`RecvWindow,
             node`DisableMtuDiscovery, node`HopInterval, node`Alpn
    ensures CommonFields(lib, node, Hysteria, group, remarks, server, port, Indeterminate, tfo, scv,
                         Indeterminate, underlyingProxy)
    ensures node.Ports == ports && node.Protocol == protocol && node.OBFSParam == obfsProtocol
    // bandwidth: a value ending in its unit is kept verbatim, a non-zero number gets " Mbps"
    ensures (node.Up, node.UpSpeed) == HysteriaBandwidth(lib, up, upSpeed, old(node.Up), old(node.UpSpeed))
    ensures (node.Down, node.DownSpeed) == HysteriaBandwidth(lib, down, downSpeed, old(node.Down), old(node.DownSpeed))
    ensures node.AuthStr == (if auth != "" then lib.base64Decode(auth) else authStr)
    ensures node.OBFS == obfs && node.SNI == sni && node.Fingerprint == fingerprint && node.Ca == ca && node.CaStr == caStr
    ensures node.RecvWindowConn == ToU32(lib.toInt(recvWindowConn)) && node.RecvWindow == ToU32(lib.toInt(recvWindow))
    ensures node.DisableMtuDiscovery == lib.tribool(disableMtuDiscovery)
    ensures node.HopInterval == ToU32(lib.toInt(hopInterval))
    ensures node.Alpn == (if alpn != "" then [alpn] else old(node.Alpn))
  {
    CommonConstruct(lib, node, Hysteria, group, remarks, server, port, Indeterminate, tfo, scv,
                    Indeterminate, underlyingProxy);
    HysteriaLink(lib, node, ports, protocol, obfsProtocol, up, upSpeed, down, downSpeed, auth, authStr, obfs);
    HysteriaTuning(lib, node, sni, fingerprint, ca, caStr, recvWindowConn, recvWindow, disableMtuDiscovery,
                   hopInterval, alpn);
  }

  /** The four unit tests of hysteria2Construct: "bps", "Mbps", "Kbps" or "Gbps" occurs. */
  predicate HasBandwidthUnit(s: string)
  {
    Contains(s, "bps") || Contains(s, "Mbps") || Contains(s, "Kbps") || Contains(s, "Gbps")
  }

  /** A prefixed unit contains "bps" one character later. */
  lemma UnitContainsBps(s: string, unit: string)
    requires |unit| == 4 && unit[1..] == "bps"
    ensures Contains(s, unit) ==> Contains(s, "bps")
  {
    if Contains(s, unit) {
      var i := Find(s, unit);
      assert s[i + 1..i + 4] == s[i..i + 4][1..];
      assert MatchAt(s, "bps", i + 1);
    }
  }

  /** The "Mbps", "Kbps" and "Gbps" tests are implied by the "bps" test. */
  lemma BandwidthUnitIsBps(s: string)
    ensures HasBandwidthUnit(s) <==> Contains(s, "bps")
  {
    UnitContainsBps(s, "Mbps");
    UnitContainsBps(s, "Kbps");
    UnitContainsBps(s, "Gbps");
  }

  /**
   * One direction of hysteria2Construct's bandwidth, as (text, rate): a value with any "bps" unit is
   * kept verbatim and its number is the rate; a bare number is the rate and, when positive, gets
   * " Mbps"; `text0`/`rate0` are the record's current values.
   */
  function Hysteria2Bandwidth(lib: Lib, value: string, text0: string, rate0: U32): (r: (string, U32))
    ensures value != "" && Contains(value, "bps") ==>
              r.0 == value && r.1 == ToU32(lib.toInt(lib.removeBpsUnit(value)))
    ensures value != "" && !Contains(value, "bps") ==>
              r.1 == ToU32(lib.toInt(value)) && r.0 == (if r.1 > 0 then value + " Mbps" else text0)
    ensures value == "" ==> r == (text0, rate0)
  {
    BandwidthUnitIsBps(value);
    if value == "" then (text0, rate0)
    else if HasBandwidthUnit(value) then (value, ToU32(lib.toInt(lib.removeBpsUnit(value))))
    else var rate := ToU32(lib.toInt(value)); (if rate > 0 then value + " Mbps" else text0, rate)
  }

  /**
   * One direction of hysteria2Construct's bandwidth handling (subparser.cpp:252-282):
   * `value` is "up" or "down", `text0`/`rate0` the record's current Up/UpSpeed (or Down/DownSpeed).
   */
  method Hysteria2Rate(lib: Lib, value: string, text0: string, rate0: U32) returns (text: string, rate: U32)
    ensures (text, rate) == Hysteria2Bandwidth(lib, value, text0, rate0)
  {
    text, rate := text0, rate0;
    BandwidthUnitIsBps(value);
    if value != "" {
      if Contains(value, "bps") || Contains(value, "Mbps") || Contains(value, "Kbps") || Contains(value, "Gbps") {
        text := value;
        var speedVal := lib.removeBpsUnit(value);
        rate := ToU32(lib.toInt(speedVal));
      } else {
        rate := ToU32(lib.toInt(value));
        if rate > 0 {
          text := value + " Mbps";
        }
      }
    }
  }

  /** Port range, password and obfuscation of hysteria2Construct; obfuscation only when it names a real scheme. */
  method Hysteria2Auth(node: Proxy, ports: string, password: string, obfs: string, obfsPassword: string)
    modifies node`Ports, node`Password, node`OBFS, node`OBFSParam
    ensures node.Ports == ports && node.Password == password
    ensures obfs != "" && obfs != "none" ==> node.OBFS == obfs && node.OBFSParam == obfsPassword
    ensures obfs == "" || obfs == "none" ==> node.OBFS == old(node.OBFS) && node.OBFSParam == old(node.OBFSParam)
  {
    node.Ports := ports;
    node.Password := password;
    if obfs != "" && obfs != "none" {
      node.OBFS := obfs;
      node.OBFSParam := obfsPassword;
    }
  }

  /** Congestion window, port hopping and ECH of hysteria2Construct; empty ECH settings leave the record alone. */
  method Hysteria2Quic(lib: Lib, node: Proxy, cwnd: string, hopInterval: string, echEnable: string, echConfig: string)
    modifies node`CWND, node`HopInterval, node`EchEnable, node`EchConfig
    ensures node.CWND == ToU32(lib.toInt(cwnd)) && node.HopInterval == ToU32(lib.toInt(hopInterval))
    ensures node.EchEnable == (if echEnable != "" then lib.tribool(echEnable) else old(node.EchEnable))
    ensures node.EchConfig == (if echConfig != "" then echConfig else old(node.EchConfig))
  {
    node.CWND := ToU32(lib.toInt(cwnd));
    node.HopInterval := ToU32(lib.toInt(hopInterval));
    if echEnable != "" {
      node.EchEnable := lib.tribool(echEnable);
    }
    if echConfig != "" {
      node.EchConfig := echConfig;
    }
  }

  /** The four quic-go receive windows of hysteria2Construct; each is written only when given. */
  method ReceiveWindows(lib: Lib, node: Proxy, initialStreamReceiveWindow: string, maxStreamReceiveWindow: string,
                        initialConnectionReceiveWindow: string, maxConnectionReceiveWindow: string)
    modifies node`InitialStreamReceiveWindow, node`MaxStreamReceiveWindow, node`InitialConnectionReceiveWindow,
             node`MaxConnectionReceiveWindow
    ensures node.InitialStreamReceiveWindow ==
              (if initialStreamReceiveWindow != "" then ToU32(lib.toInt(initialStreamReceiveWindow))
               else old(node.InitialStreamReceiveWindow))
    ensures node.MaxStreamReceiveWindow ==
              (if maxStreamReceiveWindow != "" then ToU32(lib.toInt(maxStreamReceiveWindow))
               else old(node.MaxStreamReceiveWindow))
    ensures node.InitialConnectionReceiveWindow ==
              (if initialConnectionReceiveWindow != "" then ToU32(lib.toInt(initialConnectionReceiveWindow))
               else old(node.InitialConnectionReceiveWindow))
    ensures node.MaxConnectionReceiveWindow ==
              (if maxConnectionReceiveWindow != "" then ToU32(lib.toInt(maxConnectionReceiveWindow))
               else old(node.MaxConnectionReceiveWindow))
  {
    if initialStreamReceiveWindow != "" {
      node.InitialStreamReceiveWindow := ToU32(lib.toInt(initialStreamReceiveWindow));
    }
    if maxStreamReceiveWindow != "" {
      node.MaxStreamReceiveWindow := ToU32(lib.toInt(maxStreamReceiveWindow));
    }
    if initialConnectionReceiveWindow != "" {
      node.InitialConnectionReceiveWindow := ToU32(lib.toInt(initialConnectionReceiveWindow));
    }
    if maxConnectionReceiveWindow != "" {
      node.MaxConnectionReceiveWindow := ToU32(lib.toInt(maxConnectionReceiveWindow));
    }
  }

  /** A 32-bit setting written only when its text is given; `v0` is the record's current value. */
  function GivenU32(lib: Lib, text: string, v0: U32): U32
  {
    if text != "" then ToU32(lib.toInt(text)) else v0
  }

  /**
   * The bandwidth, port range, password and obfuscation hysteria2Construct leaves in the record,
   * the previous values being `up0` .. `obfsParam0`: obfuscation is set only when it names a real scheme.
   */
  predicate Hysteria2LinkFields(lib: Lib, node: Proxy, ports: string, up: string, down: string, password: string,
                                obfs: string, obfsPassword: string, up0: string, upSpeed0: U32, down0: string,
                                downSpeed0: U32, obfs0: string, obfsParam0: string)
    reads node`Up, node`UpSpeed, node`Down, node`DownSpeed, node`Ports, node`Password, node`OBFS, node`OBFSParam
  {
    (node.Up, node.UpSpeed) == Hysteria2Bandwidth(lib, up, up0, upSpeed0)
    && (node.Down, node.DownSpeed) == Hysteria2Bandwidth(lib, down, down0, downSpeed0)
    && node.Ports == ports && node.Password == password
    && (if obfs != "" && obfs != "none" then node.OBFS == obfs && node.OBFSParam == obfsPassword
        else node.OBFS == obfs0 && node.OBFSParam == obfsParam0)
  }

  /**
   * The TLS identity and QUIC tuning hysteria2Construct leaves in the record, the previous values
   * being `alpn0` .. `maxConnWindow0`: ALPN, ECH and the receive windows are written only when given.
   */
  predicate Hysteria2TuningFields(lib: Lib, node: Proxy, sni: string, fingerprint: string, alpn: string, ca: string,
                                  caStr: string, cwnd: string, hopInterval: string, echEnable: string,
                                  echConfig: string, initialStreamReceiveWindow: string,
                                  maxStreamReceiveWindow: string, initialConnectionReceiveWindow: string,
                                  maxConnectionReceiveWindow: string, alpn0: seq<string>, echEnable0: Tribool,
                                  echConfig0: string, streamWindow0: U32, maxStreamWindow0: U32, connWindow0: U32,
                                  maxConnWindow0: U32)
    reads node`SNI, node`Fingerprint, node`Alpn, node`Ca, node`CaStr, node`CWND, node`HopInterval, node`EchEnable,
          node`EchConfig, node`InitialStreamReceiveWindow, node`MaxStreamReceiveWindow,
          node`InitialConnectionReceiveWindow, node`MaxConnectionReceiveWindow
  {
    node.SNI == sni && node.Fingerprint == fingerprint && node.Ca == ca && node.CaStr == caStr
    && node.Alpn == (if alpn != "" then [alpn] else alpn0)
    && node.CWND == ToU32(lib.toInt(cwnd)) && node.HopInterval == ToU32(lib.toInt(hopInterval))
    && node.EchEnable == (if echEnable != "" then lib.tribool(echEnable) else echEnable0)
    && node.EchConfig == (if echConfig != "" then echConfig else echConfig0)
    && node.InitialStreamReceiveWindow == GivenU32(lib, initialStreamReceiveWindow, streamWindow0)
    && node.MaxStreamReceiveWindow == GivenU32(lib, maxStreamReceiveWindow, maxStreamWindow0)
    && node.InitialConnectionReceiveWindow == GivenU32(lib, initialConnectionReceiveWindow, connWindow0)
    && node.MaxConnectionReceiveWindow == GivenU32(lib, maxConnectionReceiveWindow, maxConnWindow0)
  }

  /** Bandwidth, port range, password and obfuscation of hysteria2Construct. */
  method Hysteria2Link(lib: Lib, node: Proxy, ports: string, up: string, down: string, password: string, obfs: string,
                       obfsPassword: string)
    modifies node`Up, node`UpSpeed, node`Down, node`DownSpeed, node`Ports, node`Password, node`OBFS, node`OBFSParam
    ensures Hysteria2LinkFields(lib, node, ports, up, down, password, obfs, obfsPassword, old(node.Up),
                                old(node.UpSpeed), old(node.Down), old(node.DownSpeed), old(node.OBFS),
                                old(node.OBFSParam))
  {
    var upText, upRate := Hysteria2Rate(lib, up, node.Up, node.UpSpeed);
    var downText, downRate := Hysteria2Rate(lib, down, node.Down, node.DownSpeed);
    SetBandwidth(node, upText, upRate, downText, downRate);
    Hysteria2Auth(node, ports, password, obfs, obfsPassword);
  }

  /** TLS identity, QUIC tuning and receive windows of hysteria2Construct. */
  method Hysteria2Tuning(lib: Lib, node: Proxy, sni: string, fingerprint: string, alpn: string, ca: string,
                         caStr: string, cwnd: string, hopInterval: string, echEnable: string,
                         echConfig: string, initialStreamReceiveWindow: string,
                         maxStreamReceiveWindow: string, initialConnectionReceiveWindow: string,
                         maxConnectionReceiveWindow: string)
    modifies node`SNI, node`Fingerprint, node`Alpn, node`Ca, node`CaStr, node`CWND, node`HopInterval, node`EchEnable,
             node`EchConfig, node`InitialStreamReceiveWindow, node`MaxStreamReceiveWindow,
             node`InitialConnectionReceiveWindow, node`MaxConnectionReceiveWindow
    ensures Hysteria2TuningFields(lib, node, sni, fingerprint, alpn, ca, caStr, cwnd, hopInterval, echEnable,
                                  echConfig, initialStreamReceiveWindow, maxStreamReceiveWindow,
                                  initialConnectionReceiveWindow, maxConnectionReceiveWindow, old(node.Alpn),
                                  old(node.EchEnable), old(node.EchConfig), old(node.InitialStreamReceiveWindow),
                                  old(node.MaxStreamReceiveWindow), old(node.InitialConnectionReceiveWindow),
                                  old(node.MaxConnectionReceiveWindow))
  {
    TlsIdentity(node, sni, fingerprint, alpn, ca, caStr);
    Hysteria2Quic(lib, node, cwnd, hopInterval, echEnable, echConfig);
    ReceiveWindows(lib, node, initialStreamReceiveWindow, maxStreamReceiveWindow, initialConnectionReceiveWindow,
                   maxConnectionReceiveWindow);
  }

  /** Everything hysteria2Construct writes after commonConstruct (subparser.cpp:238-322). */
  method Hysteria2Settings(lib: Lib, node: Proxy, ports: string, up: string, down: string, password: string,
                           obfs: string, obfsPassword: string, sni: string, fingerprint: string, alpn: string,
                           ca: string, caStr: string, cwnd: string, hopInterval: string, echEnable: string,
                           echConfig: string, initialStreamReceiveWindow: string, maxStreamReceiveWindow: string,
                           initialConnectionReceiveWindow: string, maxConnectionReceiveWindow: string)
    modifies node`Up, node`UpSpeed, node`Down, node`DownSpeed, node`Ports, node`Password, node`OBFS,
             node`OBFSParam, node`SNI, node`Fingerprint, node`Alpn, node`Ca, node`CaStr, node`CWND,
             node`HopInterval, node`EchEnable, node`EchConfig, node`InitialStreamReceiveWindow,
             node`MaxStreamReceiveWindow, node`InitialConnectionReceiveWindow, node`MaxConnectionReceiveWindow
    ensures Hysteria2LinkFields(lib, node, ports, up, down, password, obfs, obfsPassword, old(node.Up),
                                old(node.UpSpeed), old(node.Down), old(node.DownSpeed), old(node.OBFS),
                                old(node.OBFSParam))
    ensures Hysteria2TuningFields(lib, node, sni, fingerprint, alpn, ca, caStr, cwnd, hopInterval, echEnable,
                                  echConfig, initialStreamReceiveWindow, maxStreamReceiveWindow,
                                  initialConnectionReceiveWindow, maxConnectionReceiveWindow, old(node.Alpn),
                                  old(node.EchEnable), old(node.EchConfig), old(node.InitialStreamReceiveWindow),
                                  old(node.MaxStreamReceiveWindow), old(node.InitialConnectionReceiveWindow),
                                  old(node.MaxConnectionReceiveWindow))
  {
    Hysteria2Link(lib, node, ports, up, down, password, obfs, obfsPassword);
    Hysteria2Tuning(lib, node, sni, fingerprint, alpn, ca, caStr, cwnd, hopInterval, echEnable, echConfig,
                    initialStreamReceiveWindow, maxStreamReceiveWindow, initialConnectionReceiveWindow,
                    maxConnectionReceiveWindow);
  }

  /** hysteria2Construct (subparser.cpp:220-323). */
  method Hysteria2Construct(lib: Lib, node: Proxy, group: string, remarks: string, server: string, port: string,
                            ports: string, up: string, down: string, password: string, obfs: string,
                            obfsPassword: string, sni: string, fingerprint: string, alpn: string, ca: string,
                            caStr: string, cwnd: string, hopInterval: string, echEnable: string,
                            echConfig: string, initialStreamReceiveWindow: string,
                            maxStreamReceiveWindow: string, initialConnectionReceiveWindow: string,
                            maxConnectionReceiveWindow: string, tfo: Tribool, scv: Tribool,
                            underlyingProxy: string)
    modifies node`Type, node`Group, node`Remark, node`Hostname, node`UnderlyingProxy, node`Port, node`UDP,
             node`TCPFastOpen, node`AllowInsecure, node`TLS13, node`Up, node`UpSpeed, node`Down,
             node`DownSpeed, node`Ports, node`Password, node`OBFS, node`OBFSParam, node`SNI,
             node`Fingerprint, node`Alpn, node`Ca, node`CaStr, node`CWND, node`HopInterval, node`EchEnable,
             node`EchConfig, node`InitialStreamReceiveWindow, node`MaxStreamReceiveWindow,
             node`InitialConnectionReceiveWindow, node`MaxConnectionReceiveWindow
    ensures CommonFields(lib, node, Hysteria2, group, remarks, server, port, Indeterminate, tfo, scv,
                         Indeterminate, underlyingProxy)
    ensures Hysteria2LinkFields(lib, node, ports, up, down, password, obfs, obfsPassword, old(node.Up),
                                old(node.UpSpeed), old(node.Down), old(node.DownSpeed), old(node.OBFS),
                                old(node.OBFSParam))
    ensures Hysteria2TuningFields(lib, node, sni, fingerprint, alpn, ca, caStr, cwnd, hopInterval, echEnable,
                                  echConfig, initialStreamReceiveWindow, maxStreamReceiveWindow,
                                  initialConnectionReceiveWindow, maxConnectionReceiveWindow, old(node.Alpn),
                                  old(node.EchEnable), old(node.EchConfig), old(node.InitialStreamReceiveWindow),
                                  old(node.MaxStreamReceiveWindow), old(node.InitialConnectionReceiveWindow),
                                  old(node.MaxConnectionReceiveWindow))
  {
    CommonConstruct(lib, node, Hysteria2, group, remarks, server, port, Indeterminate, tfo, scv,
                    Indeterminate, underlyingProxy);
    Hysteria2Settings(lib, node, ports, up, down, password, obfs, obfsPassword, sni, fingerprint, alpn, ca, caStr,
                      cwnd, hopInterval, echEnable, echConfig, initialStreamReceiveWindow, maxStreamReceiveWindow,
                      initialConnectionReceiveWindow, maxConnectionReceiveWindow);
  }

  /** The identity part of tuicConstruct. */
  method TuicIdentity(node: Proxy, uuid: string, password: string, ip: string, heartbeatInterval: string,
                      alpn: string, sni: string)
    modifies node`Password, node`UUID, node`IP, node`HeartbeatInterval, node`Alpn, node`SNI
    ensures node.Password == password && node.UUID == uuid && node.IP == ip && node.HeartbeatInterval == heartbeatInterval
    ensures node.Alpn == (if alpn != "" then [alpn] else old(node.Alpn))
    ensures node.SNI == sni
  {
    node.Password := password;
    node.UUID := uuid;
    node.IP := ip;
    node.HeartbeatInterval := heartbeatInterval;
    if alpn != "" {
      node.Alpn := [alpn];
    }
    node.SNI := sni;
  }

  /** The relay options of tuicConstruct; numbers are truncated to 32 bits. */
  method TuicOptions(lib: Lib, node: Proxy, disableSni: string, reduceRtt: string, requestTimeout: string,
                     udpRelayMode: string, congestionController: string, maxUdpRelayPacketSize: string,
                     maxOpenStreams: string, fastOpen: string)
    modifies node`DisableSNI, node`ReduceRTT, node`RequestTimeout, node`UdpRelayMode, node`CongestionController,
             node`MaxUdpRelayPacketSize, node`MaxOpenStreams, node`FastOpen
    ensures node.DisableSNI == lib.tribool(disableSni) && node.ReduceRTT == lib.tribool(reduceRtt)
    ensures node.RequestTimeout == ToU32(lib.toInt(requestTimeout))
    ensures node.UdpRelayMode == udpRelayMode && node.CongestionController == congestionController
    ensures node.MaxUdpRelayPacketSize == ToU32(lib.toInt(maxUdpRelayPacketSize))
    ensures node.MaxOpenStreams == ToU32(lib.toInt(maxOpenStreams))
    ensures node.FastOpen == lib.tribool(fastOpen)
  {
    node.DisableSNI := lib.tribool(disableSni);
    node.ReduceRTT := lib.tribool(reduceRtt);
    node.RequestTimeout := ToU32(lib.toInt(requestTimeout));
    node.UdpRelayMode := udpRelayMode;
    node.CongestionController := congestionController;
    node.MaxUdpRelayPacketSize := ToU32(lib.toInt(maxUdpRelayPacketSize));
    node.MaxOpenStreams := ToU32(lib.toInt(maxOpenStreams));
    node.FastOpen := lib.tribool(fastOpen);
  }

  /** tuicConstruct (subparser.cpp:325-367). */
  method TuicConstruct(lib: Lib, node: Proxy, group: string, remarks: string, server: string, port: string,
                       uuid: string, password: string, ip: string, heartbeatInterval: string, alpn: string,
                       disableSni: string, reduceRtt: string, requestTimeout: string, udpRelayMode: string,
                       congestionController: string, maxUdpRelayPacketSize: string, maxOpenStreams: string,
                       sni: string, fastOpen: string, tfo: Tribool, scv: Tribool, underlyingProxy: string)
    modifies node`Type, node`Group, node`Remark, node`Hostname, node`UnderlyingProxy, node`Port, node`UDP,
             node`TCPFastOpen, node`AllowInsecure, node`TLS13, node`Password, node`UUID, node`IP,
             node`HeartbeatInterval, node`Alpn, node`DisableSNI, node`ReduceRTT, node`RequestTimeout,
             node`UdpRelayMode, node`CongestionController, node`MaxUdpRelayPacketSize, node`MaxOpenStreams,
             node`SNI, node`FastOpen
    ensures CommonFields(lib, node, TUIC, group, remarks, server, port, Indeterminate, tfo, scv,
                         Indeterminate, underlyingProxy)
    ensures node.Password == password && node.UUID == uuid && node.IP == ip && node.HeartbeatInterval == heartbeatInterval
    ensures node.Alpn == (if alpn != "" then [alpn] else old(node.Alpn))
    ensures node.DisableSNI == lib.tribool(disableSni) && node.ReduceRTT == lib.tribool(reduceRtt)
    ensures node.RequestTimeout == ToU32(lib.toInt(requestTimeout))
    ensures node.UdpRelayMode == udpRelayMode && node.CongestionController == congestionController
    ensures node.MaxUdpRelayPacketSize == ToU32(lib.toInt(maxUdpRelayPacketSize))
    ensures node.MaxOpenStreams == ToU32(lib.toInt(maxOpenStreams))
    ensures node.SNI == sni && node.FastOpen == lib.tribool(fastOpen)
  {
    CommonConstruct(lib, node, TUIC, group, remarks, server, port, Indeterminate, tfo, scv,
                    Indeterminate, underlyingProxy);
    TuicIdentity(node, uuid, password, ip, heartbeatInterval, alpn, sni);
    TuicOptions(lib, node, disableSni, reduceRtt, requestTimeout, udpRelayMode, congestionController,
                maxUdpRelayPacketSize, maxOpenStreams, fastOpen);
  }

  /** The identity part of anytlsConstruct. */
  method AnyTlsIdentity(node: Proxy, password: string, sni: string, alpn: string, fingerprint: string)
    modifies node`Password, node`SNI, node`Alpn, node`Fingerprint
    ensures node.Password == password && node.SNI == sni && node.Fingerprint == fingerprint
    ensures node.Alpn == (if alpn != "" then [alpn] else old(node.Alpn))
  {
    node.Password := password;
    node.SNI := sni;
    if alpn != "" {
      node.Alpn := [alpn];
    }
    node.Fingerprint := fingerprint;
  }

  /** The idle-session settings of anytlsConstruct, truncated to 32 bits. */
  method AnyTlsSession(lib: Lib, node: Proxy, idleSessionCheckInterval: string, idleSessionTimeout: string,
                       minIdleSession: string)
    modifies node`IdleSessionCheckInterval, node`IdleSessionTimeout, node`MinIdleSession
    ensures node.IdleSessionCheckInterval == ToU32(lib.toInt(idleSessionCheckInterval))
    ensures node.IdleSessionTimeout == ToU32(lib.toInt(idleSessionTimeout))
    ensures node.MinIdleSession == ToU32(lib.toInt(minIdleSession))
  {
    node.IdleSessionCheckInterval := ToU32(lib.toInt(idleSessionCheckInterval));
    node.IdleSessionTimeout := ToU32(lib.toInt(idleSessionTimeout));
    node.MinIdleSession := ToU32(lib.toInt(minIdleSession));
  }

  /** anytlsConstruct (subparser.cpp:369-396). */
  method AnyTlsConstruct(lib: Lib, node: Proxy, group: string, remarks: string, server: string, port: string,
                         password: string, sni: string, alpn: string, fingerprint: string,
                         idleSessionCheckInterval: string, idleSessionTimeout: string, minIdleSession: string,
                         tfo: Tribool, scv: Tribool, underlyingProxy: string)
    modifies node`Type, node`Group, node`Remark, node`Hostname, node`UnderlyingProxy, node`Port, node`UDP,
             node`TCPFastOpen, node`AllowInsecure, node`TLS13, node`Password, node`SNI, node`Alpn,
             node`Fingerprint, node`IdleSessionCheckInterval, node`IdleSessionTimeout, node`MinIdleSession
    ensures CommonFields(lib, node, AnyTLS, group, remarks, server, port, Indeterminate, tfo, scv,
                         Indeterminate, underlyingProxy)
    ensures node.Password == password && node.SNI == sni && node.Fingerprint == fingerprint
    ensures node.Alpn == (if alpn != "" then [alpn] else old(node.Alpn))
    ensures node.IdleSessionCheckInterval == ToU32(lib.toInt(idleSessionCheckInterval))
    ensures node.IdleSessionTimeout == ToU32(lib.toInt(idleSessionTimeout))
    ensures node.MinIdleSession == ToU32(lib.toInt(minIdleSession))
  {
    CommonConstruct(lib, node, AnyTLS, group, remarks, server, port, Indeterminate, tfo, scv,
                    Indeterminate, underlyingProxy);
    AnyTlsIdentity(node, password, sni, alpn, fingerprint);
    AnyTlsSession(lib, node, idleSessionCheckInterval, idleSessionTimeout, minIdleSession);
  }

  /** The transport fields a VLESS node carries, taken together. */
  datatype Transport = Transport(network: string, path: string, host: string, grpcServiceName: string,
                                 wsPath: string, wsHeaders: string)

  function TransportOf(node: Proxy): (r: Transport)
    reads node`Network, node`Path, node`Host, node`GrpcServiceName, node`WsPath, node`WsHeaders
    ensures r.network == node.Network && r.path == node.Path && r.host == node.Host
    ensures r.grpcServiceName == node.GrpcServiceName && r.wsPath == node.WsPath && r.wsHeaders == node.WsHeaders
  {
    Transport(node.Network, node.Path, node.Host, node.GrpcServiceName, node.WsPath, node.WsHeaders)
  }

  /**
   * The normal form vlessConstruct brings a transport to: the network is never empty,
   * a gRPC path and service name agree whenever either is set, a WebSocket path and
   * host are mirrored into the WebSocket fields, and the host never changes.
   */
  function VlessNormalize(t: Transport): (r: Transport)
    ensures r.network == (if t.network == "" then "tcp" else t.network) && r.host == t.host
    ensures r.network == "grpc" && (t.path != "" || t.grpcServiceName != "") ==>
              r.path != "" && r.path == r.grpcServiceName
    ensures r.network == "ws" && t.path != "" ==> r.wsPath == r.path == t.path
    ensures r.network == "ws" && t.host != "" ==> r.wsHeaders == t.host
    ensures r.network !in {"grpc", "ws"} ==> r == t.(network := r.network)
  {
    var network := if t.network == "" then "tcp" else t.network;
    if network == "grpc" then
      if t.path != "" then t.(network := network, grpcServiceName := t.path)
      else t.(network := network, path := t.grpcServiceName)
    else if network == "ws" then
      t.(network := network, wsPath := if t.path != "" then t.path else t.wsPath,
         wsHeaders := if t.host != "" then t.host else t.wsHeaders)
    else t.(network := network)
  }

  /** Normalising twice changes nothing more: vlessConstruct's transport step is idempotent. */
  lemma VlessNormalizeIdempotent(t: Transport)
    ensures VlessNormalize(VlessNormalize(t)) == VlessNormalize(t)
  {
  }

  /**
   * The restore step of vlessConstruct: each saved transport field is written
   * back when it is non-empty (for the TLS flag: when it is set).
   */
  method VlessRestore(node: Proxy, network: string, wsPath: string, wsHeaders: string, grpcServiceName: string,
                      path: string, host: string, tlsSecure: bool)
    modifies node`Network, node`WsPath, node`WsHeaders, node`GrpcServiceName, node`Path, node`Host, node`TLSSecure
    ensures node.Network == (if network != "" then network else old(node.Network))
    ensures node.WsPath == (if wsPath != "" then wsPath else old(node.WsPath))
    ensures node.WsHeaders == (if wsHeaders != "" then wsHeaders else old(node.WsHeaders))
    ensures node.GrpcServiceName == (if grpcServiceName != "" then grpcServiceName else old(node.GrpcServiceName))
    ensures node.Path == (if path != "" then path else old(node.Path))
    ensures node.Host == (if host != "" then host else old(node.Host))
    ensures node.TLSSecure == (tlsSecure || old(node.TLSSecure))
  {
    if network != "" {
      node.Network := network;
    }
    if wsPath != "" {
      node.WsPath := wsPath;
    }
    if wsHeaders != "" {
      node.WsHeaders := wsHeaders;
    }
    if grpcServiceName != "" {
      node.GrpcServiceName := grpcServiceName;
    }
    if path != "" {
      node.Path := path;
    }
    if host != "" {
      node.Host := host;
    }
    if tlsSecure {
      node.TLSSecure := tlsSecure;
    }
  }

  /** The identity part of vlessConstruct: user id, TLS/Reality parameters and flow. */
  method VlessIdentity(lib: Lib, node: Proxy, uuid: string, sni: string, alpn: string, fingerprint: string,
                       flow: string, xtls: string, publicKey: string, shortId: string)
    modifies node`UUID, node`SNI, node`Alpn, node`Fingerprint, node`Flow, node`XTLS, node`PublicKey, node`ShortID
    ensures node.UUID == uuid && node.SNI == sni && node.Fingerprint == fingerprint && node.Flow == flow
    ensures node.Alpn == (if alpn != "" then [alpn] else old(node.Alpn))
    ensures node.XTLS == ToU32(lib.toInt(xtls)) && node.PublicKey == publicKey && node.ShortID == shortId
  {
    node.UUID := uuid;
    node.SNI := sni;
    if alpn != "" {
      node.Alpn := [alpn];
    }
    node.Fingerprint := fingerprint;
    node.Flow := flow;
    node.XTLS := ToU32(lib.toInt(xtls));
    node.PublicKey := publicKey;
    node.ShortID := shortId;
  }

  /**
   * The transport normalisation of vlessConstruct: an empty network becomes tcp;
   * for gRPC the path and the service name fill each other (the path wins), for
   * WebSocket the path and host are mirrored into the WebSocket fields; the
   * network is then copied to the legacy transport field.
   */
  method VlessTransport(node: Proxy)
    modifies node`Network, node`GrpcServiceName, node`Path, node`WsPath, node`WsHeaders, node`TransferProtocol
    ensures TransportOf(node) == VlessNormalize(old(TransportOf(node)))
    ensures node.Network == (if old(node.Network) == "" then "tcp" else old(node.Network)) && node.Network != ""
    ensures node.TransferProtocol == node.Network
    ensures node.Path == (if node.Network == "grpc" && old(node.Path) == "" then old(node.GrpcServiceName) else old(node.Path))
    ensures node.GrpcServiceName == (if node.Network == "grpc" && old(node.Path) != "" then old(node.Path) else old(node.GrpcServiceName))
    ensures node.WsPath == (if node.Network == "ws" && old(node.Path) != "" then old(node.Path) else old(node.WsPath))
    ensures node.WsHeaders == (if node.Network == "ws" && node.Host != "" then node.Host else old(node.WsHeaders))
  {
    if node.Network == "" {
      node.Network := "tcp";
    }
    if node.Network == "grpc" {
      if node.Path != "" {
        node.GrpcServiceName := node.Path;
      } else if node.GrpcServiceName != "" {
        node.Path := node.GrpcServiceName;
      }
    } else if node.Network == "ws" {
      if node.Path != "" {
        node.WsPath := node.Path;
      }
      if node.Host != "" {
        node.WsHeaders := node.Host;
      }
    }
    if node.Network != "" {
      node.TransferProtocol := node.Network;
    }
  }

  /**
   * The TLS decision of vlessConstruct: an unset flag is switched on for Reality
   * keys, a vision flow, an SNI, and otherwise by default, so it always ends set.
   */
  method VlessTls(node: Proxy, sni: string, flow: string, publicKey: string, shortId: string)
    modifies node`TLSSecure
    ensures node.TLSSecure
  {
    if !node.TLSSecure {
      if publicKey != "" && shortId != "" {
        node.TLSSecure := true;
      } else if flow != "" && Contains(flow, "vision") {
        node.TLSSecure := true;
      } else if sni != "" {
        node.TLSSecure := true;
      } else {
        node.TLSSecure := true;
      }
    }
  }

  /**
   * The opening of vlessConstruct (subparser.cpp:398-430): the transport fields the
   * caller set are saved, commonConstruct runs, and the saved values are written
   * back.  Since commonConstruct does not touch them, the restore changes nothing.
   */
  method VlessCommon(lib: Lib, node: Proxy, group: string, remarks: string, server: string, port: string,
                     tfo: Tribool, scv: Tribool, underlyingProxy: string)
    modifies node`Type, node`Group, node`Remark, node`Hostname, node`UnderlyingProxy, node`Port, node`UDP,
             node`TCPFastOpen, node`AllowInsecure, node`TLS13, node`Network, node`WsPath, node`WsHeaders,
             node`GrpcServiceName, node`Path, node`Host, node`TLSSecure
    ensures CommonFields(lib, node, VLESS, group, remarks, server, port, Indeterminate, tfo, scv,
                         Indeterminate, underlyingProxy)
    ensures node.Network == old(node.Network) && node.WsPath == old(node.WsPath)
    ensures node.WsHeaders == old(node.WsHeaders) && node.GrpcServiceName == old(node.GrpcServiceName)
    ensures node.Path == old(node.Path) && node.Host == old(node.Host) && node.TLSSecure == old(node.TLSSecure)
  {
    var preservedNetwork := node.Network;
    var preservedWsPath := node.WsPath;
    var preservedWsHeaders := node.WsHeaders;
    var preservedGrpcServiceName := node.GrpcServiceName;
    var preservedPath := node.Path;
    var preservedHost := node.Host;
    var preservedTlsSecure := node.TLSSecure;

    CommonConstruct(lib, node, VLESS, group, remarks, server, port, Indeterminate, tfo, scv,
                    Indeterminate, underlyingProxy);
    VlessRestore(node, preservedNetwork, preservedWsPath, preservedWsHeaders, preservedGrpcServiceName,
                 preservedPath, preservedHost, preservedTlsSecure);
  }

  /** The rest of vlessConstruct (subparser.cpp:431-510): identity, transport normalisation and TLS. */
  method VlessFinish(lib: Lib, node: Proxy, uuid: string, sni: string, alpn: string, fingerprint: string,
                     flow: string, xtls: string, publicKey: string, shortId: string)
    modifies node`Network, node`WsPath, node`WsHeaders, node`GrpcServiceName, node`Path, node`TLSSecure,
             node`UUID, node`SNI, node`Alpn, node`Fingerprint, node`Flow, node`XTLS, node`PublicKey, node`ShortID,
             node`TransferProtocol
    ensures node.TLSSecure
    ensures TransportOf(node) == VlessNormalize(old(TransportOf(node)))
    ensures node.Network == (if old(node.Network) == "" then "tcp" else old(node.Network)) && node.Network != ""
    ensures node.TransferProtocol == node.Network
    ensures node.Path == (if node.Network == "grpc" && old(node.Path) == "" then old(node.GrpcServiceName) else old(node.Path))
    ensures node.GrpcServiceName == (if node.Network == "grpc" && old(node.Path) != "" then old(node.Path) else old(node.GrpcServiceName))
    ensures node.WsPath == (if node.Network == "ws" && old(node.Path) != "" then old(node.Path) else old(node.WsPath))
    ensures node.WsHeaders == (if node.Network == "ws" && node.Host != "" then node.Host else old(node.WsHeaders))
    ensures node.UUID == uuid && node.SNI == sni && node.Fingerprint == fingerprint && node.Flow == flow
    ensures node.Alpn == (if alpn != "" then [alpn] else old(node.Alpn))
    ensures node.XTLS == ToU32(lib.toInt(xtls)) && node.PublicKey == publicKey && node.ShortID == shortId
  {
    VlessIdentity(lib, node, uuid, sni, alpn, fingerprint, flow, xtls, publicKey, shortId);
    VlessTransport(node);
    VlessTls(node, sni, flow, publicKey, shortId);
  }

  /**
   * vlessConstruct (subparser.cpp:398-511).  The transport is normalised and TLS is
   * switched on in every case.
   */
  method VlessConstruct(lib: Lib, node: Proxy, group: string, remarks: string, server: string, port: string,
                        uuid: string, sni: string, alpn: string, fingerprint: string, flow: string, xtls: string,
                        publicKey: string, shortId: string, tfo: Tribool, scv: Tribool, underlyingProxy: string)
    modifies node`Type, node`Group, node`Remark, node`Hostname, node`UnderlyingProxy, node`Port, node`UDP,
             node`TCPFastOpen, node`AllowInsecure, node`TLS13, node`Network, node`WsPath, node`WsHeaders,
             node`GrpcServiceName, node`Path, node`Host, node`TLSSecure, node`UUID, node`SNI, node`Alpn,
             node`Fingerprint, node`Flow, node`XTLS, node`PublicKey, node`ShortID, node`TransferProtocol
    ensures CommonFields(lib, node, VLESS, group, remarks, server, port, Indeterminate, tfo, scv,
                         Indeterminate, underlyingProxy)
    ensures node.TLSSecure
    ensures TransportOf(node) == VlessNormalize(old(TransportOf(node)))
    ensures node.Network == (if old(node.Network) == "" then "tcp" else old(node.Network)) && node.Network != ""
    ensures node.TransferProtocol == node.Network
    ensures node.Host == old(node.Host)
    ensures node.Path == (if node.Network == "grpc" && old(node.Path) == "" then old(node.GrpcServiceName) else old(node.Path))
    ensures node.GrpcServiceName == (if node.Network == "grpc" && old(node.Path) != "" then old(node.Path) else old(node.GrpcServiceName))
    ensures node.WsPath == (if node.Network == "ws" && old(node.Path) != "" then old(node.Path) else old(node.WsPath))
    ensures node.WsHeaders == (if node.Network == "ws" && old(node.Host) != "" then old(node.Host) else old(node.WsHeaders))
    ensures node.Network == "ws" && node.Path != "" ==> node.WsPath == node.Path
    ensures node.Network == "grpc" && node.Path != "" ==> node.GrpcServiceName == node.Path
    ensures node.UUID == uuid && node.SNI == sni && node.Fingerprint == fingerprint && node.Flow == flow
    ensures node.Alpn == (if alpn != "" then [alpn] else old(node.Alpn))
    ensures node.XTLS == ToU32(lib.toInt(xtls)) && node.PublicKey == publicKey && node.ShortID == shortId
  {
    VlessCommon(lib, node, group, remarks, server, port, tfo, scv, underlyingProxy);
    VlessFinish(lib, node, uuid, sni, alpn, fingerprint, flow, xtls, publicKey, shortId);
  }
}
