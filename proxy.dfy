// The proxy record of src/parser/config/proxy.h: the protocol enumeration, its
// display names, the record with its field defaults, and the default group names.

module Proxies {
  import opened Utils

  datatype ProxyType =
    | Unknown
    | Shadowsocks
    | ShadowsocksR
    | VMess
    | VLESS
    | Trojan
    | Snell
    | HTTP
    | HTTPS
    | SOCKS5
    | WireGuard
    | Hysteria
    | Hysteria2
    | TUIC
    | AnyTLS

  /** getProxyTypeName: the display name of a protocol. */
  function ProxyTypeName(t: ProxyType): (r: string)
    ensures r != ""
    ensures r == "Unknown" <==> t == Unknown
  {
    match t
    case Shadowsocks => "SS"
    case ShadowsocksR => "SSR"
    case VMess => "VMess"
    case VLESS => "VLESS"
    case Trojan => "Trojan"
    case Snell => "Snell"
    case HTTP => "HTTP"
    case HTTPS => "HTTPS"
    case SOCKS5 => "SOCKS5"
    case WireGuard => "WireGuard"
    case Hysteria => "Hysteria"
    case Hysteria2 => "Hysteria2"
    case TUIC => "TUIC"
    case AnyTLS => "AnyTLS"
    case Unknown => "Unknown"
  }

  /** Distinct protocols have distinct display names. */
  lemma ProxyTypeNameInjective(a: ProxyType, b: ProxyType)
    ensures ProxyTypeName(a) == ProxyTypeName(b) ==> a == b
  {
  }

  const AllowedIPsDefault := "0.0.0.0/0, ::/0"

  /**
   * One decoded proxy node (struct Proxy).  The decoders fill it in place, so it is
   * a class; integer fields keep the width of the C++ struct.
   */
  class Proxy {
    var Type: ProxyType
    var Id: U32
    var GroupId: U32
    var Group: string
    var Remark: string
    var Hostname: string
    var Port: U16
    var Username: string
    var Password: string
    var EncryptMethod: string
    var Plugin: string
    var PluginOption: string
    var Protocol: string
    var ProtocolParam: string
    var OBFS: string
    var OBFSParam: string
    var UserId: string
    var AlterId: U16
    var TransferProtocol: string
    var FakeType: string
    var TLSSecure: bool
    var Host: string
    var Path: string
    var Edge: string
    var QUICSecure: string
    var QUICSecret: string
    var UDP: Tribool
    var TCPFastOpen: Tribool
    var AllowInsecure: Tribool
    var TLS13: Tribool
    var UnderlyingProxy: string
    var SnellVersion: U16
    var ServerName: string
    var SelfIP: string
    var SelfIPv6: string
    var PublicKey: string
    var PrivateKey: string
    var PreSharedKey: string
    var DnsServers: seq<string>
    var Mtu: U16
    var AllowedIPs: string
    var KeepAlive: U16
    var TestUrl: string
    var ClientId: string
    var Ports: string
    var Up: string
    var UpSpeed: U32
    var Down: string
    var DownSpeed: U32
    var AuthStr: string
    var SNI: string
    var Fingerprint: string
    var Ca: string
    var CaStr: string
    var RecvWindowConn: U32
    var RecvWindow: U32
    var DisableMtuDiscovery: Tribool
    var HopInterval: U32
    var Alpn: seq<string>
    var CWND: U32
    var UUID: string
    var IP: string
    var HeartbeatInterval: string
    var DisableSNI: Tribool
    var ReduceRTT: Tribool
    var RequestTimeout: U32
    var UdpRelayMode: string
    var CongestionController: string
    var MaxUdpRelayPacketSize: U32
    var FastOpen: Tribool
    var MaxOpenStreams: U32
    var IdleSessionCheckInterval: U32
    var IdleSessionTimeout: U32
    var MinIdleSession: U32
    var Flow: string
    var XTLS: U32
    var PacketEncoding: string
    var ShortID: string
    var Network: string
    var ClientFingerprint: string
    var EchConfig: string
    var SupportX25519Mlkem768: Tribool
    var GrpcServiceName: string
    var WsPath: string
    var WsHeaders: string
    var V2rayHttpUpgrade: Tribool
    var V2rayHttpUpgradeFastOpen: Tribool
    var EchEnable: Tribool
    var InitialStreamReceiveWindow: U32
    var MaxStreamReceiveWindow: U32
    var InitialConnectionReceiveWindow: U32
    var MaxConnectionReceiveWindow: U32

    /**
     * A default-constructed record (`Proxy node;`): every string empty, every
     * tribool unset, every initialised number 0.  The uint32_t fields the struct
     * leaves without an initialiser (RecvWindowConn, RecvWindow, HopInterval,
     * RequestTimeout, MaxUdpRelayPacketSize, MaxOpenStreams, the idle-session
     * settings and XTLS) are given 0 here, and nothing is promised about them.
     */
    constructor ()
      ensures Type == Unknown && Id == 0 && GroupId == 0
      ensures Port == 0 && AlterId == 0 && SnellVersion == 0 && Mtu == 0 && KeepAlive == 0
      ensures !TLSSecure
      ensures AllowedIPs == AllowedIPsDefault
      ensures UDP == Indeterminate && TCPFastOpen == Indeterminate
      ensures AllowInsecure == Indeterminate && TLS13 == Indeterminate
      ensures Group == "" && Remark == "" && Hostname == "" && Password == "" && Username == ""
      ensures Network == "" && Path == "" && Host == "" && WsPath == "" && WsHeaders == ""
      ensures GrpcServiceName == "" && Alpn == [] && DnsServers == []
      ensures UpSpeed == 0 && DownSpeed == 0 && CWND == 0
      ensures QUICSecure == "" && QUICSecret == "" && ClientFingerprint == "" && Up == "" && Down == ""
      ensures OBFS == "" && OBFSParam == "" && EchEnable == Indeterminate && EchConfig == ""
      ensures InitialStreamReceiveWindow == 0 && MaxStreamReceiveWindow == 0
      ensures InitialConnectionReceiveWindow == 0 && MaxConnectionReceiveWindow == 0
      ensures EncryptMethod == "" && Plugin == "" && PluginOption == "" && Protocol == "" && ProtocolParam == ""
      ensures UserId == "" && TransferProtocol == "" && FakeType == "" && Edge == "" && UnderlyingProxy == ""
      ensures ServerName == "" && SelfIP == "" && SelfIPv6 == "" && PublicKey == "" && PrivateKey == ""
      ensures PreSharedKey == "" && TestUrl == "" && ClientId == "" && Ports == "" && AuthStr == ""
      ensures SNI == "" && Fingerprint == "" && Ca == "" && CaStr == "" && UUID == "" && IP == ""
      ensures HeartbeatInterval == "" && UdpRelayMode == "" && CongestionController == ""
      ensures Flow == "" && PacketEncoding == "" && ShortID == ""
      ensures DisableMtuDiscovery == Indeterminate && DisableSNI == Indeterminate && ReduceRTT == Indeterminate
      ensures FastOpen == Indeterminate && SupportX25519Mlkem768 == Indeterminate
      ensures V2rayHttpUpgrade == Indeterminate && V2rayHttpUpgradeFastOpen == Indeterminate
    {
      Type := Unknown;
      Id := 0;
      GroupId := 0;
      Group := "";
      Remark := "";
      Hostname := "";
      Port := 0;
      Username := "";
      Password := "";
      EncryptMethod := "";
      Plugin := "";
      PluginOption := "";
      Protocol := "";
      ProtocolParam := "";
      OBFS := "";
      OBFSParam := "";
      UserId := "";
      AlterId := 0;
      TransferProtocol := "";
      FakeType := "";
      TLSSecure := false;
      Host := "";
      Path := "";
      Edge := "";
      QUICSecure := "";
      QUICSecret := "";
      UDP := Indeterminate;
      TCPFastOpen := Indeterminate;
      AllowInsecure := Indeterminate;
      TLS13 := Indeterminate;
      UnderlyingProxy := "";
      SnellVersion := 0;
      ServerName := "";
      SelfIP := "";
      SelfIPv6 := "";
      PublicKey := "";
      PrivateKey := "";
      PreSharedKey := "";
      DnsServers := [];
      Mtu := 0;
      AllowedIPs := AllowedIPsDefault;
      KeepAlive := 0;
      TestUrl := "";
      ClientId := "";
      Ports := "";
      Up := "";
      UpSpeed := 0;
      Down := "";
      DownSpeed := 0;
      AuthStr := "";
      SNI := "";
      Fingerprint := "";
      Ca := "";
      CaStr := "";
      RecvWindowConn := 0;
      RecvWindow := 0;
      DisableMtuDiscovery := Indeterminate;
      HopInterval := 0;
      Alpn := [];
      CWND := 0;
      UUID := "";
      IP := "";
      HeartbeatInterval := "";
      DisableSNI := Indeterminate;
      ReduceRTT := Indeterminate;
      RequestTimeout := 0;
      UdpRelayMode := "";
      CongestionController := "";
      MaxUdpRelayPacketSize := 0;
      FastOpen := Indeterminate;
      MaxOpenStreams := 0;
      IdleSessionCheckInterval := 0;
      IdleSessionTimeout := 0;
      MinIdleSession := 0;
      Flow := "";
      XTLS := 0;
      PacketEncoding := "";
      ShortID := "";
      Network := "";
      ClientFingerprint := "";
      EchConfig := "";
      SupportX25519Mlkem768 := Indeterminate;
      GrpcServiceName := "";
      WsPath := "";
      WsHeaders := "";
      V2rayHttpUpgrade := Indeterminate;
      V2rayHttpUpgradeFastOpen := Indeterminate;
      EchEnable := Indeterminate;
      InitialStreamReceiveWindow := 0;
      MaxStreamReceiveWindow := 0;
      InitialConnectionReceiveWindow := 0;
      MaxConnectionReceiveWindow := 0;
    }
  }

  const SsDefaultGroup := "SSProvider"
  const SsrDefaultGroup := "SSRProvider"
  const V2RayDefaultGroup := "V2RayProvider"
  const VlessDefaultGroup := "VLESSProvider"
  const SocksDefaultGroup := "SocksProvider"
  const HttpDefaultGroup := "HTTPProvider"
  const TrojanDefaultGroup := "TrojanProvider"
  const SnellDefaultGroup := "SnellProvider"
  const WgDefaultGroup := "WireGuardProvider"
  const HysteriaDefaultGroup := "HysteriaProvider"
  const Hysteria2DefaultGroup := "Hysteria2Provider"
  const TuicDefaultGroup := "TUICProvider"
  const AnyTlsDefaultGroup := "AnyTLSProvider"

  /** The thirteen default group names, one per protocol family. */
  function DefaultGroups(): (gs: seq<string>)
    ensures |gs| == 13
    ensures forall i, j :: 0 <= i < j < |gs| ==> gs[i] != gs[j]
  {
    [SsDefaultGroup, SsrDefaultGroup, V2RayDefaultGroup, VlessDefaultGroup, SocksDefaultGroup,
     HttpDefaultGroup, TrojanDefaultGroup, SnellDefaultGroup, WgDefaultGroup, HysteriaDefaultGroup,
     Hysteria2DefaultGroup, TuicDefaultGroup, AnyTlsDefaultGroup]
  }
}
