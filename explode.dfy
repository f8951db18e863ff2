// The prefix dispatcher `explode` (src/parser/subparser.cpp:3277-3303): one link is
// handed to the first decoder whose scheme test it passes.  The scheme tests are
// prefix tests, except for Hysteria2, TUIC, AnyTLS and VLESS, which look for their
// scheme anywhere in the link.

module Dispatch {
  import opened Utils
  import opened Text
  import opened Proxies
  import opened Constructors
  import opened Links
  import opened VmessLinks
  import opened QuicLinks
  import opened VlessLinks
  import opened NetchLinks

  /** The decoder `explode` picks for a link. */
  datatype Decoder =
    | SsrDecoder | VmessDecoder | SsDecoder | SocksDecoder | HttpDecoder | NetchDecoder | TrojanDecoder
    | Hysteria2Decoder | TuicDecoder | AnyTlsDecoder | VlessDecoder | HttpSubDecoder | NoDecoder

  /**
   * The scheme tests of explode in their order.  Because "ssr://" is tested first,
   * an "ss://" decoder is picked exactly for the links that start with "ss://";
   * every prefix scheme wins over the substring schemes tested after it.
   */
  function DecoderOf(lib: Lib, link: string): (d: Decoder)
    ensures d == SsrDecoder <==> StartsWith(link, "ssr://")
    ensures d == NoDecoder ==> !lib.isLink(link)
  {
    if StartsWith(link, "ssr://") then SsrDecoder
    else if StartsWith(link, "vmess://") || StartsWith(link, "vmess1://") then VmessDecoder
    else if StartsWith(link, "ss://") then SsDecoder
    else if StartsWith(link, "socks://") || StartsWith(link, "https://t.me/socks") || StartsWith(link, "tg://socks")
    then SocksDecoder
    else if StartsWith(link, "https://t.me/http") || StartsWith(link, "tg://http") then HttpDecoder
    else if StartsWith(link, "Netch://") then NetchDecoder
    else if StartsWith(link, "trojan://") then TrojanDecoder
    else if Contains(link, "hysteria2://") || Contains(link, "hy2://") then Hysteria2Decoder
    else if Contains(link, "tuic://") then TuicDecoder
    else if Contains(link, "anytls://") then AnyTlsDecoder
    else if Contains(link, "vless://") then VlessDecoder
    else if lib.isLink(link) then HttpSubDecoder
    else NoDecoder
  }

  /** The record a link decodes to, tagged with the decoder that produced it. */
  datatype LinkRecord =
    | SsrRecord(ssr: SsrFields)
    | VmessRecord(vmess: VmessFields)
    | SsRecord(ss: SsFields)
    | SocksRecord(socks: SocksFields)
    | HttpRecord(http: HttpFields)
    | NetchRecord(netch: NetchFields)
    | TrojanRecord(trojan: TrojanFields)
    | Hysteria2Record(hysteria2: Hysteria2Fields)
    | TuicRecord(tuic: TuicFields)
    | AnyTlsRecord(anytls: AnyTlsFields)
    | VlessRecord(vless: VlessFields)
    | HttpSubRecord(httpSub: HttpFields)

  /** What decoder `d` makes of a link: None when it rejects the link. */
  function DecodedBy(lib: Lib, d: Decoder, link: string): (r: Option<LinkRecord>)
    ensures r.Some? && r.value.SsrRecord? ==> r.value.ssr.port != "0"
    ensures r.Some? && r.value.SsRecord? ==> r.value.ss.port != "0"
  {
    match d
    case SsrDecoder => var r := SsrLink(lib, link); if r.Some? then Some(SsrRecord(r.value)) else None
    case VmessDecoder => var r := VmessLink(lib, link); if r.Some? then Some(VmessRecord(r.value)) else None
    case SsDecoder => var r := SsLink(lib, link); if r.Some? then Some(SsRecord(r.value)) else None
    case SocksDecoder => var r := SocksLink(lib, link); if r.Some? then Some(SocksRecord(r.value)) else None
    case HttpDecoder => var r := HttpLink(lib, link); if r.Some? then Some(HttpRecord(r.value)) else None
    case NetchDecoder => var r := NetchLink(lib, link); if r.Some? then Some(NetchRecord(r.value)) else None
    case TrojanDecoder => var r := TrojanLink(lib, link); if r.Some? then Some(TrojanRecord(r.value)) else None
    case Hysteria2Decoder =>
      var r := QuicLinks.Hysteria2Link(lib, link); if r.Some? then Some(Hysteria2Record(r.value)) else None
    case TuicDecoder => var r := TuicLink(lib, link); if r.Some? then Some(TuicRecord(r.value)) else None
    case AnyTlsDecoder => var r := AnyTlsLink(lib, link); if r.Some? then Some(AnyTlsRecord(r.value)) else None
    case VlessDecoder => var r := VlessLink(lib, link); if r.Some? then Some(VlessRecord(r.value)) else None
    case HttpSubDecoder => var r := HttpSubLink(lib, link); if r.Some? then Some(HttpSubRecord(r.value)) else None
    case NoDecoder => None
  }

  /** What explode makes of a link: what the decoder its scheme picks makes of it. */
  function ExplodedLink(lib: Lib, link: string): (r: Option<LinkRecord>)
    ensures DecoderOf(lib, link) == NoDecoder ==> r.None?
  {
    DecodedBy(lib, DecoderOf(lib, link), link)
  }

  /** The part every decoder writes through commonConstruct: type, group, remark, server and port. */
  datatype Summary = Summary(kind: ProxyType, group: string, remark: string, server: string, port: U16)

  function SummaryOf(node: Proxy): (s: Summary)
    reads node`Type, node`Group, node`Remark, node`Hostname, node`Port
    ensures s.kind == node.Type && s.port == node.Port
  {
    Summary(node.Type, node.Group, node.Remark, node.Hostname, node.Port)
  }

  /** The summary of the record `r` stands for; its type is never Unknown. */
  function RecordSummary(lib: Lib, r: LinkRecord): (s: Summary)
    ensures s.kind != Unknown
  {
    match r
    case SsrRecord(f) =>
      Summary(if IsPlainSs(f.cipher, f.obfs, f.protocol) then Shadowsocks else ShadowsocksR, f.group, f.remarks,
              f.server, ToU16(lib.toInt(f.port)))
    case VmessRecord(f) => Summary(VMess, f.group, f.remarks, f.add, ToU16(lib.toInt(f.port)))
    case SsRecord(f) => Summary(Shadowsocks, f.group, f.remarks, f.server, ToU16(lib.toInt(f.port)))
    case SocksRecord(f) => Summary(SOCKS5, f.group, f.remarks, f.server, ToU16(lib.toInt(f.port)))
    case HttpRecord(f) => Summary(if f.tls then HTTPS else HTTP, f.group, f.remarks, f.server, ToU16(lib.toInt(f.port)))
    case NetchRecord(f) => Summary(NetchType(f.body), f.group, f.remarks, f.server, ToU16(lib.toInt(f.port)))
    case TrojanRecord(f) => Summary(Trojan, f.group, f.remark, f.server, ToU16(lib.toInt(f.port)))
    case Hysteria2Record(f) =>
      Summary(Hysteria2, Hysteria2DefaultGroup, f.remarks, f.server, ToU16(lib.toInt(f.port)))
    case TuicRecord(f) => Summary(TUIC, TuicDefaultGroup, f.remarks, f.server, ToU16(lib.toInt(f.port)))
    case AnyTlsRecord(f) => Summary(AnyTLS, "AnyTLS", f.remarks, f.server, ToU16(lib.toInt(f.port)))
    case VlessRecord(f) => Summary(VLESS, VlessDefaultGroup, f.remarks, f.server, ToU16(lib.toInt(f.port)))
    case HttpSubRecord(f) => Summary(if f.tls then HTTPS else HTTP, f.group, f.remarks, f.server, ToU16(lib.toInt(f.port)))
  }

  /** The fields the decoder behind `r` wrote into the record, its summary first. */
  twostate predicate LinkNode(lib: Lib, node: Proxy, r: LinkRecord)
    reads node
  {
    SummaryOf(node) == RecordSummary(lib, r)
    && match r
    case SsrRecord(f) =>
      (node.Type == Shadowsocks <==> IsPlainSs(f.cipher, f.obfs, f.protocol))
      && (IsPlainSs(f.cipher, f.obfs, f.protocol) ==> SsNode(lib, node, SsrAsSs(f)))
      && (!IsPlainSs(f.cipher, f.obfs, f.protocol) ==> SsrNode(lib, node, f))
    case VmessRecord(f) => VmessNode(lib, node, f)
    case SsRecord(f) => SsNode(lib, node, f)
    case SocksRecord(f) => SocksNode(lib, node, f)
    case HttpRecord(f) => HttpNode(lib, node, f)
    case NetchRecord(f) => NetchNode(lib, node, f)
    case TrojanRecord(f) => TrojanNode(lib, node, f)
    case Hysteria2Record(f) => Hysteria2Node(lib, node, f)
    case TuicRecord(f) => TuicNode(lib, node, f)
    case AnyTlsRecord(f) => AnyTlsNode(lib, node, f)
    case VlessRecord(f) => VlessNode(lib, node, f)
    case HttpSubRecord(f) => HttpNode(lib, node, f)
  }

  /**
   * explode: the record is left as it was when no decoder accepts the link;
   * otherwise it holds what the chosen decoder writes, summed up by `RecordSummary`.
   * No decoder writes the number, the group id, the WireGuard keys, DNS servers,
   * MTU, keep-alive, allowed IPs, test URL, client id, auth string, receive
   * windows or DisableMtuDiscovery, so those keep their values.
   */
  method ExplodeLink(lib: Lib, link: string, node: Proxy)
    modifies node`Type, node`Group, node`Remark, node`Hostname, node`Port, node`Username, node`Password,
             node`EncryptMethod, node`Plugin, node`PluginOption, node`Protocol, node`ProtocolParam, node`OBFS,
             node`OBFSParam, node`UserId, node`AlterId, node`TransferProtocol, node`FakeType, node`TLSSecure,
             node`Host, node`Path, node`Edge, node`QUICSecure, node`QUICSecret, node`UDP, node`TCPFastOpen,
             node`AllowInsecure, node`TLS13, node`UnderlyingProxy, node`SnellVersion, node`ServerName, node`PublicKey,
             node`Ports, node`Up, node`UpSpeed, node`Down, node`DownSpeed, node`SNI, node`Fingerprint, node`Ca,
             node`CaStr, node`HopInterval, node`Alpn, node`CWND, node`UUID, node`IP, node`HeartbeatInterval,
             node`DisableSNI, node`ReduceRTT, node`RequestTimeout, node`UdpRelayMode, node`CongestionController,
             node`MaxUdpRelayPacketSize, node`FastOpen, node`MaxOpenStreams, node`IdleSessionCheckInterval,
             node`IdleSessionTimeout, node`MinIdleSession, node`Flow, node`XTLS, node`PacketEncoding, node`ShortID,
             node`Network, node`ClientFingerprint, node`EchConfig, node`SupportX25519Mlkem768, node`GrpcServiceName,
             node`WsPath, node`WsHeaders, node`V2rayHttpUpgrade, node`V2rayHttpUpgradeFastOpen, node`EchEnable,
             node`InitialStreamReceiveWindow, node`MaxStreamReceiveWindow, node`InitialConnectionReceiveWindow,
             node`MaxConnectionReceiveWindow
    ensures ExplodedLink(lib, link).None? ==> unchanged(node)
    ensures ExplodedLink(lib, link).Some? ==> LinkNode(lib, node, ExplodedLink(lib, link).value)
  {
    ExplodeWith(lib, DecoderOf(lib, link), link, node);
  }

  /** The decoder `d` run on the record. */
  method ExplodeWith(lib: Lib, d: Decoder, link: string, node: Proxy)
    modifies node`Type, node`Group, node`Remark, node`Hostname, node`Port, node`Username, node`Password,
             node`EncryptMethod, node`Plugin, node`PluginOption, node`Protocol, node`ProtocolParam, node`OBFS,
             node`OBFSParam, node`UserId, node`AlterId, node`TransferProtocol, node`FakeType, node`TLSSecure,
             node`Host, node`Path, node`Edge, node`QUICSecure, node`QUICSecret, node`UDP, node`TCPFastOpen,
             node`AllowInsecure, node`TLS13, node`UnderlyingProxy, node`SnellVersion, node`ServerName, node`PublicKey,
             node`Ports, node`Up, node`UpSpeed, node`Down, node`DownSpeed, node`SNI, node`Fingerprint, node`Ca,
             node`CaStr, node`HopInterval, node`Alpn, node`CWND, node`UUID, node`IP, node`HeartbeatInterval,
             node`DisableSNI, node`ReduceRTT, node`RequestTimeout, node`UdpRelayMode, node`CongestionController,
             node`MaxUdpRelayPacketSize, node`FastOpen, node`MaxOpenStreams, node`IdleSessionCheckInterval,
             node`IdleSessionTimeout, node`MinIdleSession, node`Flow, node`XTLS, node`PacketEncoding, node`ShortID,
             node`Network, node`ClientFingerprint, node`EchConfig, node`SupportX25519Mlkem768, node`GrpcServiceName,
             node`WsPath, node`WsHeaders, node`V2rayHttpUpgrade, node`V2rayHttpUpgradeFastOpen, node`EchEnable,
             node`InitialStreamReceiveWindow, node`MaxStreamReceiveWindow, node`InitialConnectionReceiveWindow,
             node`MaxConnectionReceiveWindow
    ensures DecodedBy(lib, d, link).None? ==> unchanged(node)
    ensures DecodedBy(lib, d, link).Some? ==> LinkNode(lib, node, DecodedBy(lib, d, link).value)
  {
    if d.SsrDecoder? || d.VmessDecoder? || d.SsDecoder? || d.SocksDecoder? {
      ExplodeShadowsocksFamily(lib, d, link, node);
    } else if d.HttpDecoder? || d.NetchDecoder? || d.TrojanDecoder? || d.HttpSubDecoder? {
      ExplodeOtherFamily(lib, d, link, node);
    } else if !d.NoDecoder? {
      ExplodeQuicFamily(lib, d, link, node);
    }
  }

  // The wrappers below only group the decoders of explode's chain so that each proof
  // stays small; they add no behaviour of their own.

  method ExplodeShadowsocksFamily(lib: Lib, d: Decoder, link: string, node: Proxy)
    requires d.SsrDecoder? || d.VmessDecoder? || d.SsDecoder? || d.SocksDecoder?
    modifies node`Type, node`Group, node`Remark, node`Hostname, node`Port, node`Username, node`Password,
             node`EncryptMethod, node`Plugin, node`PluginOption, node`Protocol, node`ProtocolParam, node`OBFS,
             node`OBFSParam, node`UserId, node`AlterId, node`TransferProtocol, node`FakeType, node`TLSSecure,
             node`Host, node`Path, node`Edge, node`QUICSecure, node`QUICSecret, node`UDP, node`TCPFastOpen,
             node`AllowInsecure, node`TLS13, node`UnderlyingProxy, node`ServerName
    ensures DecodedBy(lib, d, link).None? ==> unchanged(node)
    ensures DecodedBy(lib, d, link).Some? ==> LinkNode(lib, node, DecodedBy(lib, d, link).value)
  {
    match d
    case SsrDecoder => ExplodeSSR(lib, link, node);
    case VmessDecoder => ExplodeVmess(lib, link, node);
    case SsDecoder => ExplodeSS(lib, link, node);
    case SocksDecoder => ExplodeSocks(lib, link, node);
  }

  method ExplodeOtherFamily(lib: Lib, d: Decoder, link: string, node: Proxy)
    requires d.HttpDecoder? || d.NetchDecoder? || d.TrojanDecoder? || d.HttpSubDecoder?
    modifies node`Type, node`Group, node`Remark, node`Hostname, node`Port, node`Username, node`Password,
             node`EncryptMethod, node`Plugin, node`PluginOption, node`Protocol, node`ProtocolParam, node`OBFS,
             node`OBFSParam, node`UserId, node`AlterId, node`TransferProtocol, node`FakeType, node`TLSSecure,
             node`Host, node`Path, node`Edge, node`QUICSecure, node`QUICSecret, node`UDP, node`TCPFastOpen,
             node`AllowInsecure, node`TLS13, node`UnderlyingProxy, node`SnellVersion, node`ServerName,
             node`Fingerprint, node`Alpn, node`Flow, node`Network, node`ClientFingerprint, node`GrpcServiceName,
             node`WsPath, node`WsHeaders
    ensures DecodedBy(lib, d, link).None? ==> unchanged(node)
    ensures DecodedBy(lib, d, link).Some? ==> LinkNode(lib, node, DecodedBy(lib, d, link).value)
  {
    if d.HttpDecoder? || d.HttpSubDecoder? {
      ExplodeHttpPair(lib, d, link, node);
    } else {
      ExplodeTrojanPair(lib, d, link, node);
    }
  }

  method ExplodeHttpPair(lib: Lib, d: Decoder, link: string, node: Proxy)
    requires d.HttpDecoder? || d.HttpSubDecoder?
    modifies node`Type, node`Group, node`Remark, node`Hostname, node`Port, node`Username, node`Password,
             node`TLSSecure, node`UDP, node`TCPFastOpen, node`AllowInsecure, node`TLS13, node`UnderlyingProxy
    ensures DecodedBy(lib, d, link).None? ==> unchanged(node)
    ensures DecodedBy(lib, d, link).Some? ==> LinkNode(lib, node, DecodedBy(lib, d, link).value)
  {
    if d.HttpDecoder? {
      ExplodeHTTP(lib, link, node);
    } else {
      ExplodeHTTPSub(lib, link, node);
    }
  }

  method ExplodeTrojanPair(lib: Lib, d: Decoder, link: string, node: Proxy)
    requires d.NetchDecoder? || d.TrojanDecoder?
    modifies node`Type, node`Group, node`Remark, node`Hostname, node`Port, node`Username, node`Password,
             node`EncryptMethod, node`Plugin, node`PluginOption, node`Protocol, node`ProtocolParam, node`OBFS,
             node`OBFSParam, node`UserId, node`AlterId, node`TransferProtocol, node`FakeType, node`TLSSecure,
             node`Host, node`Path, node`Edge, node`QUICSecure, node`QUICSecret, node`UDP, node`TCPFastOpen,
             node`AllowInsecure, node`TLS13, node`UnderlyingProxy, node`SnellVersion, node`ServerName,
             node`Fingerprint, node`Alpn, node`Flow, node`Network, node`ClientFingerprint, node`GrpcServiceName,
             node`WsPath, node`WsHeaders
    ensures DecodedBy(lib, d, link).None? ==> unchanged(node)
    ensures DecodedBy(lib, d, link).Some? ==> LinkNode(lib, node, DecodedBy(lib, d, link).value)
  {
    if d.NetchDecoder? {
      ExplodeNetch(lib, link, node);
    } else {
      ExplodeTrojan(lib, link, node);
    }
  }

  method ExplodeQuicFamily(lib: Lib, d: Decoder, link: string, node: Proxy)
    requires d.Hysteria2Decoder? || d.TuicDecoder? || d.AnyTlsDecoder? || d.VlessDecoder?
    modifies node`Type, node`Group, node`Remark, node`Hostname, node`Port, node`Password, node`OBFS, node`OBFSParam,
             node`TransferProtocol, node`TLSSecure, node`Host, node`Path, node`UDP, node`TCPFastOpen,
             node`AllowInsecure, node`TLS13, node`UnderlyingProxy, node`PublicKey, node`Ports, node`Up, node`UpSpeed,
             node`Down, node`DownSpeed, node`SNI, node`Fingerprint, node`Ca, node`CaStr, node`HopInterval, node`Alpn,
             node`CWND, node`UUID, node`IP, node`HeartbeatInterval, node`DisableSNI, node`ReduceRTT,
             node`RequestTimeout, node`UdpRelayMode, node`CongestionController, node`MaxUdpRelayPacketSize,
             node`FastOpen, node`MaxOpenStreams, node`IdleSessionCheckInterval, node`IdleSessionTimeout,
             node`MinIdleSession, node`Flow, node`XTLS, node`PacketEncoding, node`ShortID, node`Network,
             node`ClientFingerprint, node`EchConfig, node`SupportX25519Mlkem768, node`GrpcServiceName, node`WsPath,
             node`WsHeaders, node`V2rayHttpUpgrade, node`V2rayHttpUpgradeFastOpen, node`EchEnable,
             node`InitialStreamReceiveWindow, node`MaxStreamReceiveWindow, node`InitialConnectionReceiveWindow,
             node`MaxConnectionReceiveWindow
    ensures DecodedBy(lib, d, link).None? ==> unchanged(node)
    ensures DecodedBy(lib, d, link).Some? ==> LinkNode(lib, node, DecodedBy(lib, d, link).value)
  {
    if d.Hysteria2Decoder? {
      ExplodeAsHysteria2(lib, d, link, node);
    } else if d.TuicDecoder? {
      ExplodeAsTuic(lib, d, link, node);
    } else {
      ExplodeTlsPair(lib, d, link, node);
    }
  }

  method ExplodeAsHysteria2(lib: Lib, d: Decoder, link: string, node: Proxy)
    requires d.Hysteria2Decoder?
    modifies node`Type, node`Group, node`Remark, node`Hostname, node`Port, node`Password, node`OBFS, node`OBFSParam,
             node`UDP, node`TCPFastOpen, node`AllowInsecure, node`TLS13, node`UnderlyingProxy, node`Ports, node`Up,
             node`UpSpeed, node`Down, node`DownSpeed, node`SNI, node`Fingerprint, node`Ca, node`CaStr,
             node`HopInterval, node`Alpn, node`CWND, node`EchConfig, node`EchEnable, node`InitialStreamReceiveWindow,
             node`MaxStreamReceiveWindow, node`InitialConnectionReceiveWindow, node`MaxConnectionReceiveWindow
    ensures DecodedBy(lib, d, link).None? ==> unchanged(node)
    ensures DecodedBy(lib, d, link).Some? ==> LinkNode(lib, node, DecodedBy(lib, d, link).value)
  {
    ExplodeHysteria2(lib, link, node);
  }

  method ExplodeAsTuic(lib: Lib, d: Decoder, link: string, node: Proxy)
    requires d.TuicDecoder?
    modifies node`Type, node`Group, node`Remark, node`Hostname, node`Port, node`Password, node`UDP, node`TCPFastOpen,
             node`AllowInsecure, node`TLS13, node`UnderlyingProxy, node`SNI, node`Alpn, node`UUID, node`IP,
             node`HeartbeatInterval, node`DisableSNI, node`ReduceRTT, node`RequestTimeout, node`UdpRelayMode,
             node`CongestionController, node`MaxUdpRelayPacketSize, node`FastOpen, node`MaxOpenStreams
    ensures DecodedBy(lib, d, link).None? ==> unchanged(node)
    ensures DecodedBy(lib, d, link).Some? ==> LinkNode(lib, node, DecodedBy(lib, d, link).value)
  {
    ExplodeTuic(lib, link, node);
  }

  method ExplodeTlsPair(lib: Lib, d: Decoder, link: string, node: Proxy)
    requires d.AnyTlsDecoder? || d.VlessDecoder?
    modifies node`Type, node`Group, node`Remark, node`Hostname, node`Port, node`Password, node`TransferProtocol,
             node`TLSSecure, node`Host, node`Path, node`UDP, node`TCPFastOpen, node`AllowInsecure, node`TLS13,
             node`UnderlyingProxy, node`PublicKey, node`SNI, node`Fingerprint, node`Alpn, node`UUID,
             node`IdleSessionCheckInterval, node`IdleSessionTimeout, node`MinIdleSession, node`Flow, node`XTLS,
             node`PacketEncoding, node`ShortID, node`Network, node`ClientFingerprint, node`EchConfig,
             node`SupportX25519Mlkem768, node`GrpcServiceName, node`WsPath, node`WsHeaders, node`V2rayHttpUpgrade,
             node`V2rayHttpUpgradeFastOpen
    ensures DecodedBy(lib, d, link).None? ==> unchanged(node)
    ensures DecodedBy(lib, d, link).Some? ==> LinkNode(lib, node, DecodedBy(lib, d, link).value)
  {
    if d.AnyTlsDecoder? {
      ExplodeAnyTls(lib, link, node);
    } else {
      ExplodeAsVless(lib, d, link, node);
    }
  }

  method ExplodeAsVless(lib: Lib, d: Decoder, link: string, node: Proxy)
    requires d.VlessDecoder?
    modifies node`Type, node`Group, node`Remark, node`Hostname, node`Port, node`TransferProtocol, node`TLSSecure,
             node`Host, node`Path, node`UDP, node`TCPFastOpen, node`AllowInsecure, node`TLS13, node`UnderlyingProxy,
             node`PublicKey, node`SNI, node`Fingerprint, node`Alpn, node`UUID, node`Flow, node`XTLS,
             node`PacketEncoding, node`ShortID, node`Network, node`ClientFingerprint, node`EchConfig,
             node`SupportX25519Mlkem768, node`GrpcServiceName, node`WsPath, node`WsHeaders, node`V2rayHttpUpgrade,
             node`V2rayHttpUpgradeFastOpen
    ensures DecodedBy(lib, d, link).None? ==> unchanged(node)
    ensures DecodedBy(lib, d, link).Some? ==> LinkNode(lib, node, DecodedBy(lib, d, link).value)
  {
    ExplodeVless(lib, link, node);
  }

  /** A pattern found in `body` is found in any text that ends with `body`. */
  lemma ContainsAfter(pre: string, body: string, p: string)
    requires Contains(body, p)
    ensures Contains(pre + body, p)
  {
    var i := Find(body, p);
    var s := pre + body;
    assert s[|pre| + i..|pre| + i + |p|] == body[i..i + |p|];
    assert MatchAt(s, p, |pre| + i);
  }

  /** A text whose character at `i` differs from the pattern's does not start with the pattern. */
  lemma NotPrefix(s: string, p: string, i: nat)
    requires i < |p| && (i < |s| ==> s[i] != p[i])
    ensures !StartsWith(s, p)
  {
  }

  /** The characters of a prefix are the first characters of the text. */
  lemma PrefixAt(s: string, p: string, i: nat)
    requires StartsWith(s, p) && i < |p|
    ensures s[i] == p[i]
  {
    assert s[..|p|][i] == s[i];
  }

  /**
   * Testing "ssr://" before "ss://" is never needed to tell the two apart: the
   * Shadowsocks decoder gets exactly the links that start with "ss://".
   */
  lemma SsDecoderExactly(lib: Lib, link: string)
    ensures DecoderOf(lib, link) == SsDecoder <==> StartsWith(link, "ss://")
  {
    if StartsWith(link, "ss://") {
      PrefixAt(link, "ss://", 0);
      PrefixAt(link, "ss://", 2);
      NotPrefix(link, "ssr://", 2);
      NotPrefix(link, "vmess://", 0);
      NotPrefix(link, "vmess1://", 0);
    }
  }

  /** A trojan:// link always reaches the Trojan decoder, whatever it mentions later. */
  lemma TrojanPrefixWins(lib: Lib, link: string)
    requires StartsWith(link, "trojan://")
    ensures DecoderOf(lib, link) == TrojanDecoder
  {
    PrefixAt(link, "trojan://", 0);
    PrefixAt(link, "trojan://", 1);
    NotPrefix(link, "ssr://", 0);
    NotPrefix(link, "vmess://", 0);
    NotPrefix(link, "vmess1://", 0);
    NotPrefix(link, "ss://", 0);
    NotPrefix(link, "socks://", 0);
    NotPrefix(link, "https://t.me/socks", 0);
    NotPrefix(link, "tg://socks", 1);
    NotPrefix(link, "https://t.me/http", 0);
    NotPrefix(link, "tg://http", 1);
    NotPrefix(link, "Netch://", 0);
  }

  /** No earlier prefix test accepts a link that starts with "vless://". */
  lemma VlessPassesPrefixes(link: string)
    requires StartsWith(link, "vless://")
    ensures !StartsWith(link, "ssr://") && !StartsWith(link, "vmess://") && !StartsWith(link, "vmess1://")
    ensures !StartsWith(link, "ss://") && !StartsWith(link, "socks://") && !StartsWith(link, "https://t.me/socks")
    ensures !StartsWith(link, "tg://socks") && !StartsWith(link, "https://t.me/http") && !StartsWith(link, "tg://http")
    ensures !StartsWith(link, "Netch://") && !StartsWith(link, "trojan://")
  {
    PrefixAt(link, "vless://", 0);
    PrefixAt(link, "vless://", 1);
    NotPrefix(link, "ssr://", 0);
    NotPrefix(link, "vmess://", 1);
    NotPrefix(link, "vmess1://", 1);
    NotPrefix(link, "ss://", 0);
    NotPrefix(link, "socks://", 0);
    NotPrefix(link, "https://t.me/socks", 0);
    NotPrefix(link, "tg://socks", 0);
    NotPrefix(link, "https://t.me/http", 0);
    NotPrefix(link, "tg://http", 0);
    NotPrefix(link, "Netch://", 0);
    NotPrefix(link, "trojan://", 0);
  }

  /**
   * The substring tests are not anchored: a vless:// link that mentions "hy2://"
   * anywhere, in its remark say, goes to the Hysteria2 decoder.
   */
  lemma Hy2MentionWins(lib: Lib, body: string)
    requires Contains(body, "hy2://")
    ensures DecoderOf(lib, "vless://" + body) == Hysteria2Decoder
  {
    var link := "vless://" + body;
    ContainsAfter("vless://", body, "hy2://");
    assert link[..8] == "vless://";
    VlessPassesPrefixes(link);
  }

  /** A link that names no scheme and is not a URL produces nothing. */
  lemma UnknownSchemeKeepsRecord(lib: Lib, link: string)
    requires DecoderOf(lib, link) == NoDecoder
    ensures ExplodedLink(lib, link) == None
  {
  }
}
