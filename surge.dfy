// explodeSurge (src/parser/subparser.cpp:2432-3147): the [Proxy] section of a Surge
// configuration.  Each line reads "name = kind, server, port, key=value, ...", or, in
// the Quantumult X form the same loop accepts, "shadowsocks = host:port, key=value, ...".
//
// Every local of the loop body is declared inside the loop, so each line is read on
// its own: a line yields the arguments of one constructor call, or nothing.  The
// loops over the key=value items are methods proved against the folds that specify
// them; the switch each item goes through is a function of the item.

module SurgeConfig {
  import opened Utils
  import opened Text
  import opened Proxies
  import opened Constructors
  import Links

  // ---------------------------------------------------------------------------
  // The branch a line takes

  datatype SurgeKind =
    | Custom | SurgeSs | SurgeSocks5 | SurgeVmess | SurgeHttp | SurgeTrojan | SurgeSnell | SurgeWireguard
    | QxShadowsocks | QxVmess | QxTrojan | QxHttp

  /** The Quantumult X forms, chosen by the line's name rather than its first item. */
  predicate IsQx(kind: SurgeKind)
  {
    kind.QxShadowsocks? || kind.QxVmess? || kind.QxTrojan? || kind.QxHttp?
  }

  /** The first items that name a Surge proxy kind. */
  const SurgeHeads: set<string> := {"custom", "ss", "socks5", "vmess", "http", "trojan", "snell", "wireguard"}

  /** The first items of lines that are not proxies. */
  const SkippedHeads: set<string> := {"direct", "reject", "reject-tinygif"}

  /** The line names of the Quantumult X forms. */
  const QxNames: set<string> := {"shadowsocks", "vmess", "trojan", "http"}

  /**
   * The branch of a line by its first item `head`, and failing that by its name:
   * the three non-proxy heads and anything unrecognised are skipped.
   */
  function KindOf(head: string, name: string): (r: Option<SurgeKind>)
    ensures r.Some? <==> head in SurgeHeads || (head !in SkippedHeads && name in QxNames)
    ensures r.Some? ==> (IsQx(r.value) <==> head !in SurgeHeads)
  {
    if head == "direct" || head == "reject" || head == "reject-tinygif" then None
    else if head == "custom" then Some(Custom)
    else if head == "ss" then Some(SurgeSs)
    else if head == "socks5" then Some(SurgeSocks5)
    else if head == "vmess" then Some(SurgeVmess)
    else if head == "http" then Some(SurgeHttp)
    else if head == "trojan" then Some(SurgeTrojan)
    else if head == "snell" then Some(SurgeSnell)
    else if head == "wireguard" then Some(SurgeWireguard)
    else if name == "shadowsocks" then Some(QxShadowsocks)
    else if name == "vmess" then Some(QxVmess)
    else if name == "trojan" then Some(QxTrojan)
    else if name == "http" then Some(QxHttp)
    else None
  }

  // ---------------------------------------------------------------------------
  // The locals the key=value items set

  datatype SurgeOpts = SurgeOpts(
    remarks: string, cipher: string, password: string, username: string, plugin: string,
    obfsMode: string, obfsHost: string, id: string, net: string, tls: string, path: string,
    host: string, edge: string, aead: string, version: string, protocol: string, protoParam: string,
    section: string, testUrl: string, udp: Tribool, tfo: Tribool, scv: Tribool, tls13: Tribool)

  /** The locals as declared: all empty and unspecified, except `aead` ("1") and the remark (the line's name). */
  function NoOpts(name: string): (o: SurgeOpts)
    ensures o.remarks == name && o.aead == "1" && o.net == "" && o.section == ""
  {
    SurgeOpts(name, "", "", "", "", "", "", "", "", "", "", "", "", "1", "", "", "", "", "",
              Indeterminate, Indeterminate, Indeterminate, Indeterminate)
  }

  /**
   * The locals when the item loop starts: custom reads cipher and password from the
   * fourth and fifth items, socks5 its user and password when there are five items,
   * and both vmess forms start on tcp, the Surge one with the cipher "auto".
   */
  function StartOpts(lib: Lib, kind: SurgeKind, name: string, configs: seq<string>): (o: SurgeOpts)
    ensures o.remarks == name
    ensures kind.SurgeVmess? || kind.QxVmess? ==> o.net == "tcp"
  {
    var o := NoOpts(name);
    if kind.Custom? && |configs| >= 5 then o.(cipher := lib.trim(configs[3]), password := lib.trim(configs[4]))
    else if kind.SurgeSocks5? && |configs| >= 5 then o.(username := lib.trim(configs[3]), password := lib.trim(configs[4]))
    else if kind.SurgeVmess? then o.(net := "tcp", cipher := "auto")
    else if kind.QxVmess? then o.(net := "tcp")
    else o
  }

  /** The index of the first key=value item of each branch. */
  function FirstOption(kind: SurgeKind): (n: nat)
    ensures n >= 1
  {
    match kind
    case Custom => 6
    case SurgeSocks5 => 5
    case SurgeWireguard => 1
    case QxShadowsocks => 1
    case QxVmess => 1
    case QxTrojan => 1
    case QxHttp => 1
    case _ => 3
  }

  /** The items from index `n` on (none when there are fewer). */
  function Tail(xs: seq<string>, n: nat): (r: seq<string>)
    ensures n <= |xs| ==> r == xs[n..]
    ensures |xs| < n ==> r == []
  {
    if n <= |xs| then xs[n..] else []
  }

  /**
   * An item split at "=" into name and value, both trimmed.  The custom, ss, socks5
   * and http branches accept two or more parts; the others exactly two, and the
   * wireguard and Quantumult X branches trim the item before splitting it.
   */
  function OptionPair(lib: Lib, kind: SurgeKind, item: string): (r: Option<(string, string)>)
  {
    var v := if kind.SurgeWireguard? || IsQx(kind) then lib.split(lib.trim(item), "=") else lib.split(item, "=");
    var loose := kind.Custom? || kind.SurgeSs? || kind.SurgeSocks5? || kind.SurgeHttp?;
    if (loose && |v| < 2) || (!loose && |v| != 2) then None
    else Some((lib.trim(v[0]), lib.trim(v[1])))
  }

  /** The simple-obfs items shared by custom and ss. */
  function ObfsOption(lib: Lib, o: SurgeOpts, name: string, v: string): (r: SurgeOpts)
    ensures r.remarks == o.remarks && r.net == o.net
  {
    if name == "obfs" then o.(plugin := "simple-obfs", obfsMode := v)
    else if name == "obfs-host" then o.(obfsHost := v)
    else if name == "udp-relay" then o.(udp := lib.tribool(v))
    else if name == "tfo" then o.(tfo := lib.tribool(v))
    else o
  }

  /** One "ws-headers" entry: "Host: x" sets the host and "Edge: x" the edge (names in any case). */
  function WsHeader(lib: Lib, o: SurgeOpts, y: string): (r: SurgeOpts)
    ensures r == o.(host := r.host, edge := r.edge)
  {
    var header := lib.split(lib.trim(y), ":");
    if |header| != 2 then o
    else if lib.regMatch(header[0], "(?i)host") then o.(host := lib.trimQuote(header[1]))
    else if lib.regMatch(header[0], "(?i)edge") then o.(edge := lib.trimQuote(header[1]))
    else o
  }

  function WsHeaders(lib: Lib, o: SurgeOpts, ys: seq<string>): (r: SurgeOpts)
    ensures r == o.(host := r.host, edge := r.edge)
    decreases |ys|
  {
    if ys == [] then o else WsHeaders(lib, WsHeader(lib, o, ys[0]), ys[1..])
  }

  function VmessOption(lib: Lib, o: SurgeOpts, name: string, v: string): (r: SurgeOpts)
    ensures r.remarks == o.remarks
    ensures r.net == o.net || r.net in {"tcp", "ws"}
  {
    if name == "username" then o.(id := v)
    else if name == "ws" then o.(net := if v == "true" then "ws" else "tcp")
    else if name == "tls" then o.(tls := if v == "true" then "tls" else "")
    else if name == "ws-path" then o.(path := v)
    else if name == "obfs-host" then o.(host := v)
    else if name == "ws-headers" then WsHeaders(lib, o, lib.split(v, "|"))
    else if name == "udp-relay" then o.(udp := lib.tribool(v))
    else if name == "tfo" then o.(tfo := lib.tribool(v))
    else if name == "skip-cert-verify" then o.(scv := lib.tribool(v))
    else if name == "tls13" then o.(tls13 := lib.tribool(v))
    else if name == "vmess-aead" then o.(aead := if v == "true" then "0" else "1")
    else o
  }

  /** The Quantumult X "obfs" item of a shadowsocks line. */
  function QxSsObfs(o: SurgeOpts, v: string): (r: SurgeOpts)
    ensures r.remarks == o.remarks && r.protocol == o.protocol
    ensures v == "http" || v == "tls" ==> r.plugin == "simple-obfs" && r.obfsMode == v
    ensures v == "ws" || v == "wss" ==> r.plugin == "v2ray-plugin" && r.obfsMode == "websocket"
    ensures v == "wss" ==> r.tls == "tls"
  {
    if v == "http" || v == "tls" then o.(plugin := "simple-obfs", obfsMode := v)
    else if v == "wss" then o.(tls := "tls", obfsMode := "websocket", plugin := "v2ray-plugin")
    else if v == "ws" then o.(obfsMode := "websocket", plugin := "v2ray-plugin")
    else o.(obfsMode := v)
  }

  function QxSsOption(lib: Lib, o: SurgeOpts, name: string, v: string): (r: SurgeOpts)
  {
    if name == "method" then o.(cipher := v)
    else if name == "password" then o.(password := v)
    else if name == "tag" then o.(remarks := v)
    else if name == "ssr-protocol" then o.(protocol := v)
    else if name == "ssr-protocol-param" then o.(protoParam := v)
    else if name == "obfs" then QxSsObfs(o, v)
    else if name == "obfs-host" then o.(obfsHost := v)
    else if name == "obfs-uri" then o.(path := v)
    else if name == "udp-relay" then o.(udp := lib.tribool(v))
    else if name == "fast-open" then o.(tfo := lib.tribool(v))
    else if name == "tls13" then o.(tls13 := lib.tribool(v))
    else o
  }

  function QxVmessOption(lib: Lib, o: SurgeOpts, name: string, v: string): (r: SurgeOpts)
    ensures r.net == o.net || r.net == "ws"
  {
    if name == "method" then o.(cipher := v)
    else if name == "password" then o.(id := v)
    else if name == "tag" then o.(remarks := v)
    else if name == "obfs" then
      if v == "ws" then o.(net := "ws")
      else if v == "over-tls" then o.(tls := "tls")
      else if v == "wss" then o.(net := "ws", tls := "tls")
      else o
    else if name == "obfs-host" then o.(host := v)
    else if name == "obfs-uri" then o.(path := v)
    else if name == "over-tls" then o.(tls := if v == "true" then "tls" else "")
    else if name == "udp-relay" then o.(udp := lib.tribool(v))
    else if name == "fast-open" then o.(tfo := lib.tribool(v))
    else if name == "tls13" then o.(tls13 := lib.tribool(v))
    else if name == "aead" then o.(aead := if v == "true" then "0" else "1")
    else o
  }

  function QxTrojanOption(lib: Lib, o: SurgeOpts, name: string, v: string): (r: SurgeOpts)
  {
    if name == "password" then o.(password := v)
    else if name == "tag" then o.(remarks := v)
    else if name == "over-tls" then o.(tls := v)
    else if name == "tls-host" then o.(host := v)
    else if name == "udp-relay" then o.(udp := lib.tribool(v))
    else if name == "fast-open" then o.(tfo := lib.tribool(v))
    else if name == "tls-verification" then o.(scv := Set(v == "false"))
    else if name == "tls13" then o.(tls13 := lib.tribool(v))
    else o
  }

  function QxHttpOption(lib: Lib, o: SurgeOpts, name: string, v: string): (r: SurgeOpts)
  {
    if name == "username" then o.(username := v)
    else if name == "password" then o.(password := v)
    else if name == "tag" then o.(remarks := v)
    else if name == "over-tls" then o.(tls := v)
    else if name == "tls-verification" then o.(scv := Set(v == "false"))
    else if name == "tls13" then o.(tls13 := lib.tribool(v))
    else if name == "fast-open" then o.(tfo := lib.tribool(v))
    else o
  }

  /** The switch of each branch over one named item. */
  function KindOption(lib: Lib, kind: SurgeKind, o: SurgeOpts, name: string, v: string): (r: SurgeOpts)
    ensures !IsQx(kind) ==> r.remarks == o.remarks
    ensures kind.SurgeVmess? || kind.QxVmess? ==> r.net == o.net || r.net in {"tcp", "ws"}
  {
    match kind
    case Custom => ObfsOption(lib, o, name, v)
    case SurgeSs =>
      if name == "encrypt-method" then o.(cipher := v)
      else if name == "password" then o.(password := v)
      else ObfsOption(lib, o, name, v)
    case SurgeSocks5 =>
      if name == "udp-relay" then o.(udp := lib.tribool(v))
      else if name == "tfo" then o.(tfo := lib.tribool(v))
      else if name == "skip-cert-verify" then o.(scv := lib.tribool(v))
      else o
    case SurgeVmess => VmessOption(lib, o, name, v)
    case SurgeHttp =>
      if name == "username" then o.(username := v)
      else if name == "password" then o.(password := v)
      else if name == "skip-cert-verify" then o.(scv := lib.tribool(v))
      else o
    case SurgeTrojan =>
      if name == "password" then o.(password := v)
      else if name == "sni" then o.(host := v)
      else if name == "udp-relay" then o.(udp := lib.tribool(v))
      else if name == "tfo" then o.(tfo := lib.tribool(v))
      else if name == "skip-cert-verify" then o.(scv := lib.tribool(v))
      else o
    case SurgeSnell =>
      if name == "psk" then o.(password := v)
      else if name == "obfs" then o.(plugin := v)
      else if name == "obfs-host" then o.(host := v)
      else if name == "udp-relay" then o.(udp := lib.tribool(v))
      else if name == "tfo" then o.(tfo := lib.tribool(v))
      else if name == "skip-cert-verify" then o.(scv := lib.tribool(v))
      else if name == "version" then o.(version := v)
      else o
    case SurgeWireguard =>
      if name == "section-name" then o.(section := v)
      else if name == "test-url" then o.(testUrl := v)
      else o
    case QxShadowsocks => QxSsOption(lib, o, name, v)
    case QxVmess => QxVmessOption(lib, o, name, v)
    case QxTrojan => QxTrojanOption(lib, o, name, v)
    case QxHttp => QxHttpOption(lib, o, name, v)
  }

  /** One item of the loop: an item that is not a name=value pair changes nothing. */
  function SurgeOption(lib: Lib, kind: SurgeKind, o: SurgeOpts, item: string): (r: SurgeOpts)
    ensures OptionPair(lib, kind, item).None? ==> r == o
    ensures !IsQx(kind) ==> r.remarks == o.remarks
    ensures kind.SurgeVmess? || kind.QxVmess? ==> r.net == o.net || r.net in {"tcp", "ws"}
  {
    match OptionPair(lib, kind, item)
    case None => o
    case Some((name, v)) => KindOption(lib, kind, o, name, v)
  }

  /** The items applied in order, each seeing what the ones before it set. */
  function SurgeOptions(lib: Lib, kind: SurgeKind, o: SurgeOpts, items: seq<string>): SurgeOpts
    decreases |items|
  {
    if items == [] then o else SurgeOptions(lib, kind, SurgeOption(lib, kind, o, items[0]), items[1..])
  }

  /** The item loop of every branch. */
  method ReadOptions(lib: Lib, kind: SurgeKind, items: seq<string>, start: SurgeOpts) returns (o: SurgeOpts)
    ensures o == SurgeOptions(lib, kind, start, items)
  {
    o := start;
    var i := 0;
    assert items[0..] == items;
    while i < |items|
      invariant 0 <= i <= |items|
      invariant SurgeOptions(lib, kind, start, items) == SurgeOptions(lib, kind, o, items[i..])
    {
      assert items[i..][1..] == items[i + 1..];
      o := SurgeOption(lib, kind, o, items[i]);
      i := i + 1;
    }
  }

  /** Two runs of items applied in turn are the runs applied joined. */
  lemma {:induction false} SurgeOptionsAppend(lib: Lib, kind: SurgeKind, o: SurgeOpts, xs: seq<string>, ys: seq<string>)
    ensures SurgeOptions(lib, kind, o, xs + ys) == SurgeOptions(lib, kind, SurgeOptions(lib, kind, o, xs), ys)
    decreases |xs|
  {
    if xs == [] {
      assert xs + ys == ys;
    } else {
      assert (xs + ys)[1..] == xs[1..] + ys;
      SurgeOptionsAppend(lib, kind, SurgeOption(lib, kind, o, xs[0]), xs[1..], ys);
    }
  }

  /** Items that are not name=value pairs leave every local as it was. */
  lemma {:induction false} SurgeOptionsSkip(lib: Lib, kind: SurgeKind, o: SurgeOpts, items: seq<string>)
    requires forall i :: 0 <= i < |items| ==> OptionPair(lib, kind, items[i]).None?
    ensures SurgeOptions(lib, kind, o, items) == o
    decreases |items|
  {
    if items != [] {
      SurgeOptionsSkip(lib, kind, o, items[1..]);
    }
  }

  /** Only the Quantumult X forms rename a line (by "tag"): a Surge line keeps its name. */
  lemma {:induction false} SurgeKeepsName(lib: Lib, kind: SurgeKind, o: SurgeOpts, items: seq<string>)
    requires !IsQx(kind)
    ensures SurgeOptions(lib, kind, o, items).remarks == o.remarks
    decreases |items|
  {
    if items != [] {
      SurgeKeepsName(lib, kind, SurgeOption(lib, kind, o, items[0]), items[1..]);
    }
  }

  /** Both vmess forms only ever switch the network between tcp and ws. */
  lemma {:induction false} VmessNetTcpOrWs(lib: Lib, kind: SurgeKind, o: SurgeOpts, items: seq<string>)
    requires kind.SurgeVmess? || kind.QxVmess?
    requires o.net in {"tcp", "ws"}
    ensures SurgeOptions(lib, kind, o, items).net in {"tcp", "ws"}
    decreases |items|
  {
    if items != [] {
      VmessNetTcpOrWs(lib, kind, SurgeOption(lib, kind, o, items[0]), items[1..]);
    }
  }

  // ---------------------------------------------------------------------------
  // The WireGuard section a wireguard line names

  datatype WgOpts = WgOpts(ip: string, ipv6: string, privateKey: string, dns: seq<string>, mtu: string,
                           peer: string, keepalive: string)

  const WgStart := WgOpts("", "", "", [], "", "", "")

  /** Each part trimmed, in order. */
  function TrimAll(lib: Lib, xs: seq<string>): (r: seq<string>)
    ensures |r| == |xs| && forall i :: 0 <= i < |xs| ==> r[i] == lib.trim(xs[i])
  {
    seq(|xs|, i requires 0 <= i < |xs| => lib.trim(xs[i]))
  }

  /** One item of the section; "dns-server" adds its comma-separated servers to those before. */
  function WgItem(lib: Lib, w: WgOpts, item: (string, string)): (r: WgOpts)
    ensures |r.dns| >= |w.dns| && r.dns[..|w.dns|] == w.dns
  {
    var name, v := lib.trim(item.0), lib.trim(item.1);
    if name == "self-ip" then w.(ip := v)
    else if name == "self-ip-v6" then w.(ipv6 := v)
    else if name == "private-key" then w.(privateKey := v)
    else if name == "dns-server" then w.(dns := w.dns + TrimAll(lib, lib.split(v, ",")))
    else if name == "mtu" then w.(mtu := v)
    else if name == "peer" then w.(peer := v)
    else if name == "keepalive" then w.(keepalive := v)
    else w
  }

  function WgItems(lib: Lib, w: WgOpts, items: seq<(string, string)>): (r: WgOpts)
    ensures |r.dns| >= |w.dns| && r.dns[..|w.dns|] == w.dns
    decreases |items|
  {
    if items == [] then w
    else
      var r := WgItems(lib, WgItem(lib, w, items[0]), items[1..]);
      assert r.dns[..|w.dns|] == r.dns[..|WgItem(lib, w, items[0]).dns|][..|w.dns|];
      r
  }

  /** The loop over the items of the named section. */
  method ReadWireguardSection(lib: Lib, items: seq<(string, string)>) returns (w: WgOpts)
    ensures w == WgItems(lib, WgStart, items)
  {
    w := WgStart;
    var i := 0;
    assert items[0..] == items;
    while i < |items|
      invariant 0 <= i <= |items|
      invariant WgItems(lib, WgStart, items) == WgItems(lib, w, items[i..])
    {
      assert items[i..][1..] == items[i + 1..];
      w := WgItem(lib, w, items[i]);
      i := i + 1;
    }
  }

  // ---------------------------------------------------------------------------
  // The peer of a WireGuard proxy (parsePeers, subparser.cpp:2398-2430)

  /** The fields parsePeers writes. */
  datatype Peer = Peer(publicKey: string, hostname: string, port: U16, clientId: string, allowedIps: string)

  function PeerOf(node: Proxy): Peer
    reads node
  {
    Peer(node.PublicKey, node.Hostname, node.Port, node.ClientId, node.AllowedIPs)
  }

  /**
   * `s.substr(0, s.rfind(c))` and `s.substr(s.rfind(c) + 1)`: the text around the last
   * `c`; without one, both are the whole text (npos + 1 wraps to 0).
   */
  function AroundLast(s: string, c: char): (r: (string, string))
    ensures c in s ==> r.0 + [c] + r.1 == s && c !in r.1
    ensures c !in s ==> r == (s, s)
  {
    match Links.SplitLast(s, c)
    case None => (s, s)
    case Some(p) =>
      var i := LastIndexOf(s, c);
      assert p == (s[..i], s[i + 1..]);
      assert s == s[..i] + [c] + s[i + 1..];
      p
  }

  /** The name/value list of the first parenthesised peer; None when there is none or the list is odd. */
  function PeerData(lib: Lib, data: string): (r: Option<seq<string>>)
    ensures r.Some? ==> |r.value| % 2 == 0
  {
    var peers := lib.regGetAllMatch(data, "\\((.*?)\\)");
    if peers == [] then None
    else
      var peerdata := lib.regGetAllMatch(peers[0], "([a-z-]+) ?= ?([^\" ),]+|\".*?\"),? ?");
      if |peerdata| % 2 != 0 then None else Some(peerdata)
  }

  /** One name/value pair of the peer. */
  function PeerItem(lib: Lib, p: Peer, key: string, v: string): (r: Peer)
    ensures key == "endpoint" ==> r.hostname == AroundLast(v, ':').0
                                  && r.port == ToU16(lib.toInt(AroundLast(v, ':').1))
    ensures key !in {"public-key", "endpoint", "client-id", "allowed-ips"} ==> r == p
  {
    if key == "public-key" then p.(publicKey := v)
    else if key == "endpoint" then
      var (host, port) := AroundLast(v, ':');
      p.(hostname := host, port := ToU16(lib.toInt(port)))
    else if key == "client-id" then p.(clientId := v)
    else if key == "allowed-ips" then p.(allowedIps := lib.trimOf(v, '"'))
    else p
  }

  function PeerItems(lib: Lib, p: Peer, data: seq<string>): Peer
    decreases |data|
  {
    if |data| < 2 then p else PeerItems(lib, PeerItem(lib, p, data[0], data[1]), data[2..])
  }

  /** What parsePeers leaves, from the fields before it. */
  function PeersApplied(lib: Lib, data: string, p: Peer): Peer
  {
    match PeerData(lib, data)
    case None => p
    case Some(d) => PeerItems(lib, p, d)
  }

  /** One name/value pair written into the record. */
  method ApplyPeerItem(lib: Lib, node: Proxy, key: string, v: string)
    modifies node`PublicKey, node`Hostname, node`Port, node`ClientId, node`AllowedIPs
    ensures PeerOf(node) == PeerItem(lib, old(PeerOf(node)), key, v)
  {
    if key == "public-key" {
      node.PublicKey := v;
    } else if key == "endpoint" {
      var (host, port) := AroundLast(v, ':');
      node.Hostname := host;
      node.Port := ToU16(lib.toInt(port));
    } else if key == "client-id" {
      node.ClientId := v;
    } else if key == "allowed-ips" {
      node.AllowedIPs := lib.trimOf(v, '"');
    }
  }

  /** parsePeers: writes the five peer fields, pair by pair, and nothing else. */
  method ParsePeers(lib: Lib, node: Proxy, data: string)
    modifies node`PublicKey, node`Hostname, node`Port, node`ClientId, node`AllowedIPs
    ensures PeerOf(node) == PeersApplied(lib, data, old(PeerOf(node)))
  {
    var peerdata := PeerData(lib, data);
    if peerdata.None? {
      return;
    }
    var d := peerdata.value;
    ghost var p0 := PeerOf(node);
    ghost var pairs := |d| / 2;
    assert |d| == 2 * pairs;
    var i := 0;
    ghost var j := 0;
    assert d[0..] == d;
    while i < |d|
      invariant 0 <= j <= pairs && i == 2 * j
      invariant PeerItems(lib, p0, d) == PeerItems(lib, PeerOf(node), d[i..])
    {
      assert d[i..][0] == d[i] && d[i..][1] == d[i + 1] && d[i..][2..] == d[i + 2..];
      ApplyPeerItem(lib, node, d[i], d[i + 1]);
      i, j := i + 2, j + 1;
    }
  }

  /** An endpoint with a colon is split into a host and a port text that join back into it. */
  lemma EndpointSplit(lib: Lib, p: Peer, v: string)
    requires ':' in v
    ensures var r := PeerItem(lib, p, "endpoint", v);
            r.hostname + ":" + AroundLast(v, ':').1 == v && r.port == ToU16(lib.toInt(AroundLast(v, ':').1))
  {
  }

  // ---------------------------------------------------------------------------
  // The constructor call of a line

  /** The arguments of the constructor a line reaches (group and fixed arguments left out). */
  datatype NodeSpec =
    | SsSpec(remarks: string, server: string, port: string, password: string, cipher: string, plugin: string,
             pluginOpts: string, udp: Tribool, tfo: Tribool, scv: Tribool, tls13: Tribool)
    | SsrSpec(remarks: string, server: string, port: string, protocol: string, cipher: string, obfs: string,
              password: string, obfsParam: string, protoParam: string, udp: Tribool, tfo: Tribool, scv: Tribool)
    | SocksSpec(remarks: string, server: string, port: string, username: string, password: string,
                udp: Tribool, tfo: Tribool, scv: Tribool)
    | VmessSpec(remarks: string, server: string, port: string, id: string, aid: string, net: string,
                cipher: string, path: string, host: string, edge: string, tls: string,
                udp: Tribool, tfo: Tribool, scv: Tribool, tls13: Tribool)
    | HttpSpec(remarks: string, server: string, port: string, username: string, password: string, https: bool,
               tfo: Tribool, scv: Tribool, tls13: Tribool)
    | TrojanSpec(remarks: string, server: string, port: string, password: string, host: string, tlsSecure: bool,
                 udp: Tribool, tfo: Tribool, scv: Tribool, tls13: Tribool)
    | SnellSpec(remarks: string, server: string, port: string, password: string, obfs: string, host: string,
                version: string, udp: Tribool, tfo: Tribool, scv: Tribool)
    | WireguardSpec(remarks: string, ip: string, ipv6: string, privateKey: string, dns: seq<string>,
                    mtu: string, keepalive: string, testUrl: string, udp: Tribool, peer: string)

  /** The simple-obfs plugin options: the mode, then the host when there is one. */
  function ObfsOpts(mode: string, host: string): (r: string)
    ensures StartsWith(r, "obfs=")
    ensures host == "" ==> r == "obfs=" + mode
  {
    StartsWithConcat("obfs=", mode + (if host == "" then "" else ";obfs-host=" + host));
    "obfs=" + (mode + (if host == "" then "" else ";obfs-host=" + host))
  }

  /** The plugin options of the Surge custom and ss forms: none without a plugin. */
  function SurgeObfsOpts(o: SurgeOpts): (r: string)
    ensures r == "" <==> o.plugin == ""
    ensures o.plugin != "" ==> StartsWith(r, "obfs=")
  {
    if o.plugin != "" then ObfsOpts(o.obfsMode, o.obfsHost) else ""
  }

  /** The Quantumult X obfs host: v2ray-plugin falls back to a server that is not an IP literal. */
  function QxObfsHost(lib: Lib, o: SurgeOpts, server: string): string
  {
    if o.plugin == "v2ray-plugin" && o.obfsHost == "" && !lib.isIPv4(server) && !lib.isIPv6(server) then server
    else o.obfsHost
  }

  /**
   * The Quantumult X plugin options: simple-obfs as in Surge; v2ray-plugin as mode,
   * host, path and then ";" and the tls local even when that is empty; none otherwise.
   */
  function QxPluginOpts(lib: Lib, o: SurgeOpts, server: string): (r: string)
    ensures o.plugin == "simple-obfs" ==> r == ObfsOpts(o.obfsMode, o.obfsHost)
    ensures o.plugin == "v2ray-plugin" ==> StartsWith(r, "mode=") && EndsWith(r, ";" + o.tls)
    ensures o.plugin !in {"simple-obfs", "v2ray-plugin"} ==> r == ""
  {
    if o.plugin == "simple-obfs" then ObfsOpts(o.obfsMode, o.obfsHost)
    else if o.plugin == "v2ray-plugin" then
      var host := QxObfsHost(lib, o, server);
      var middle := o.obfsMode + (if host != "" then ";host=" + host else "") + (if o.path != "" then ";path=" + o.path else "");
      var head, tail := "mode=" + middle, ";" + o.tls;
      assert head[..5] == "mode=";
      assert (head + tail)[..5] == head[..5];
      assert (head + tail)[|head|..|head| + |tail|] == tail;
      head + tail
    else ""
  }

  /** "none" stands for an empty user or password in the Quantumult X http form. */
  function NoneAsEmpty(s: string): (r: string)
    ensures r != "none" && (s != "none" ==> r == s)
  {
    if s == "none" then "" else s
  }

  function SpecRemarks(s: NodeSpec): string
  {
    s.remarks
  }

  /** The port a constructor is given: wireguard is given "0" (its peer may set the port later). */
  function SpecPort(s: NodeSpec): string
  {
    if s.WireguardSpec? then "0" else s.port
  }

  /**
   * The constructor call once the items are read.  A wireguard line needs a
   * "section-name" whose section has items; the Quantumult X forms default their
   * remark to "server:port".
   */
  function Finish(lib: Lib, text: string, kind: SurgeKind, server: string, port: string, o: SurgeOpts,
                  wg: WgOpts): (r: Option<NodeSpec>)
    ensures r.None? <==> kind.SurgeWireguard? && (o.section == "" || lib.iniSection(text, "WireGuard " + o.section) == [])
    ensures r.Some? ==> (r.value.WireguardSpec? <==> kind.SurgeWireguard?)
    ensures r.Some? && !kind.SurgeWireguard? ==> SpecPort(r.value) == port
    ensures r.Some? && IsQx(kind) ==> SpecRemarks(r.value) != ""
    ensures r.Some? && !IsQx(kind) ==> SpecRemarks(r.value) == o.remarks
    ensures r.Some? && kind.QxShadowsocks? ==> (r.value.SsrSpec? <==> o.protocol != "")
  {
    var named := Links.RemarkOr(o.remarks, server, port);
    match kind
    case Custom =>
      Some(SsSpec(o.remarks, server, port, o.password, o.cipher, o.plugin, SurgeObfsOpts(o), o.udp, o.tfo, o.scv, o.tls13))
    case SurgeSs =>
      Some(SsSpec(o.remarks, server, port, o.password, o.cipher, o.plugin, SurgeObfsOpts(o), o.udp, o.tfo, o.scv, o.tls13))
    case SurgeSocks5 => Some(SocksSpec(o.remarks, server, port, o.username, o.password, o.udp, o.tfo, o.scv))
    case SurgeVmess =>
      Some(VmessSpec(o.remarks, server, port, o.id, o.aead, o.net, o.cipher, o.path, o.host, o.edge, o.tls,
                     o.udp, o.tfo, o.scv, o.tls13))
    case SurgeHttp => Some(HttpSpec(o.remarks, server, port, o.username, o.password, false, o.tfo, o.scv, Indeterminate))
    case SurgeTrojan =>
      Some(TrojanSpec(o.remarks, server, port, o.password, o.host, true, o.udp, o.tfo, o.scv, Indeterminate))
    case SurgeSnell =>
      Some(SnellSpec(o.remarks, server, port, o.password, o.plugin, o.host, o.version, o.udp, o.tfo, o.scv))
    case SurgeWireguard =>
      if o.section == "" || lib.iniSection(text, "WireGuard " + o.section) == [] then None
      else Some(WireguardSpec(o.remarks, wg.ip, wg.ipv6, wg.privateKey, wg.dns, wg.mtu, wg.keepalive, o.testUrl,
                              o.udp, wg.peer))
    case QxShadowsocks =>
      if o.protocol != "" then
        Some(SsrSpec(named, server, port, o.protocol, o.cipher, o.obfsMode, o.password, QxObfsHost(lib, o, server),
                     o.protoParam, o.udp, o.tfo, o.scv))
      else
        Some(SsSpec(named, server, port, o.password, o.cipher, o.plugin, QxPluginOpts(lib, o, server),
                    o.udp, o.tfo, o.scv, o.tls13))
    case QxVmess =>
      Some(VmessSpec(named, server, port, o.id, o.aead, o.net, o.cipher, o.path, o.host, "", o.tls,
                     o.udp, o.tfo, o.scv, o.tls13))
    case QxTrojan =>
      Some(TrojanSpec(named, server, port, o.password, o.host, o.tls == "true", o.udp, o.tfo, o.scv, o.tls13))
    case QxHttp =>
      Some(HttpSpec(named, server, port, NoneAsEmpty(o.username), NoneAsEmpty(o.password), o.tls == "true",
                    o.tfo, o.scv, o.tls13))
  }

  // ---------------------------------------------------------------------------
  // One line

  const ProxyPattern := "(.*?)\\s*=\\s*(.*)"

  /** The name and the comma-separated items of a line; both empty when the line has no "=". */
  function LineHead(lib: Lib, line: string): (r: (string, seq<string>))
  {
    var m := Links.Captures(lib, line, ProxyPattern, 2);
    if m.Some? then (m.value[0], lib.split(m.value[1], ",")) else ("", lib.split("", ","))
  }

  /**
   * Server and port: the second and third items in the Surge forms, the text around
   * the last ':' of the first item in the Quantumult X forms; wireguard has neither.
   */
  function ServerPort(lib: Lib, kind: SurgeKind, configs: seq<string>): (r: (string, string))
    requires |configs| >= 3
  {
    if IsQx(kind) then
      var (server, port) := AroundLast(configs[0], ':');
      (lib.trim(server), lib.trim(port))
    else if kind.SurgeWireguard? then ("", "0")
    else (lib.trim(configs[1]), lib.trim(configs[2]))
  }

  /** The checks before the item loop: custom needs five items, and no branch but wireguard takes the port "0". */
  predicate Admitted(lib: Lib, kind: SurgeKind, configs: seq<string>)
    requires |configs| >= 3
  {
    (kind.Custom? ==> |configs| >= 5)
    && (kind.SurgeWireguard? || ServerPort(lib, kind, configs).1 != "0")
  }

  /** The section items of a wireguard line, read once its section is known. */
  function WgOf(lib: Lib, text: string, kind: SurgeKind, o: SurgeOpts): WgOpts
  {
    if kind.SurgeWireguard? && o.section != "" then WgItems(lib, WgStart, lib.iniSection(text, "WireGuard " + o.section))
    else WgStart
  }

  /** What one line of the section yields: the constructor call it reaches, if any. */
  function LineEntry(lib: Lib, text: string, line: string): (r: Option<NodeSpec>)
    ensures var configs := LineHead(lib, line).1;
            r.Some? ==> |configs| >= 3 && configs[0] !in SkippedHeads
    ensures r.Some? && !r.value.WireguardSpec? ==> SpecPort(r.value) != "0"
  {
    var (name, configs) := LineHead(lib, line);
    if |configs| < 3 then None
    else
      match KindOf(configs[0], name)
      case None => None
      case Some(kind) =>
        if !Admitted(lib, kind, configs) then None
        else
          var (server, port) := ServerPort(lib, kind, configs);
          var o := SurgeOptions(lib, kind, StartOpts(lib, kind, name, configs), Tail(configs, FirstOption(kind)));
          Finish(lib, text, kind, server, port, o, WgOf(lib, text, kind, o))
  }

  /** The loop body of explodeSurge up to the constructor call. */
  method ReadLine(lib: Lib, text: string, line: string) returns (r: Option<NodeSpec>)
    ensures r == LineEntry(lib, text, line)
  {
    var (name, configs) := LineHead(lib, line);
    if |configs| < 3 {
      return None;
    }
    var kind := KindOf(configs[0], name);
    if kind.None? || !Admitted(lib, kind.value, configs) {
      return None;
    }
    var (server, port) := ServerPort(lib, kind.value, configs);
    var o := ReadOptions(lib, kind.value, Tail(configs, FirstOption(kind.value)), StartOpts(lib, kind.value, name, configs));
    var wg := WgStart;
    if kind.value.SurgeWireguard? && o.section != "" {
      wg := ReadWireguardSection(lib, lib.iniSection(text, "WireGuard " + o.section));
    }
    r := Finish(lib, text, kind.value, server, port, o, wg);
  }

  /** A Quantumult X line always ends up with a remark: its tag, its name, or "server:port". */
  lemma QxLineNamed(lib: Lib, text: string, line: string)
    requires LineEntry(lib, text, line).Some?
    requires var (name, configs) := LineHead(lib, line); |configs| >= 3 && configs[0] !in SurgeHeads
    ensures SpecRemarks(LineEntry(lib, text, line).value) != ""
  {
    var (name, configs) := LineHead(lib, line);
    var kind := KindOf(configs[0], name).value;
    assert IsQx(kind);
  }

  /** A Surge line is named by the text before its '='. */
  lemma SurgeLineNamed(lib: Lib, text: string, line: string)
    requires LineEntry(lib, text, line).Some?
    requires var (name, configs) := LineHead(lib, line); |configs| >= 3 && configs[0] in SurgeHeads
    ensures SpecRemarks(LineEntry(lib, text, line).value) == LineHead(lib, line).0
  {
    var (name, configs) := LineHead(lib, line);
    var kind := KindOf(configs[0], name).value;
    assert !IsQx(kind);
    SurgeKeepsName(lib, kind, StartOpts(lib, kind, name, configs), Tail(configs, FirstOption(kind)));
  }

  // ---------------------------------------------------------------------------
  // The section

  function LineSpecs(lib: Lib, text: string, line: string): (r: seq<NodeSpec>)
    ensures |r| <= 1
  {
    var e := LineEntry(lib, text, line);
    if e.Some? then [e.value] else []
  }

  /** The constructor calls of the lines, in order. */
  function SurgeEntries(lib: Lib, text: string, lines: seq<string>): seq<NodeSpec>
    decreases |lines|
  {
    if lines == [] then [] else LineSpecs(lib, text, lines[0]) + SurgeEntries(lib, text, lines[1..])
  }

  lemma SurgeEntriesTurn(lib: Lib, text: string, lines: seq<string>, i: nat, done: seq<NodeSpec>)
    requires i < |lines|
    ensures done + SurgeEntries(lib, text, lines[i..])
            == (done + LineSpecs(lib, text, lines[i])) + SurgeEntries(lib, text, lines[i + 1..])
  {
    assert lines[i..][0] == lines[i] && lines[i..][1..] == lines[i + 1..];
    Associative(done, LineSpecs(lib, text, lines[i]), SurgeEntries(lib, text, lines[i + 1..]));
  }

  /** Only wireguard lines hand the port "0" to a constructor, and no line yields more than one call. */
  lemma {:induction false} SurgeEntriesPorts(lib: Lib, text: string, lines: seq<string>)
    ensures |SurgeEntries(lib, text, lines)| <= |lines|
    ensures forall s :: s in SurgeEntries(lib, text, lines) && !s.WireguardSpec? ==> SpecPort(s) != "0"
    decreases |lines|
  {
    if lines != [] {
      SurgeEntriesPorts(lib, text, lines[1..]);
    }
  }

  /** The calls one line contributes: none, or the one ReadLine finds. */
  method ReadLineSpecs(lib: Lib, text: string, line: string) returns (got: seq<NodeSpec>)
    ensures got == LineSpecs(lib, text, line)
  {
    var r := ReadLine(lib, text, line);
    got := if r.Some? then [r.value] else [];
  }

  /** The reading half of the loop. */
  method ReadSurgeEntries(lib: Lib, text: string, lines: seq<string>) returns (entries: seq<NodeSpec>)
    ensures entries == SurgeEntries(lib, text, lines)
  {
    entries := [];
    var i := 0;
    assert lines[0..] == lines;
    while i < |lines|
      invariant 0 <= i <= |lines|
      invariant entries + SurgeEntries(lib, text, lines[i..]) == SurgeEntries(lib, text, lines)
    {
      SurgeEntriesTurn(lib, text, lines, i, entries);
      var got := ReadLineSpecs(lib, text, lines[i]);
      entries := entries + got;
      i := i + 1;
    }
  }

  // ---------------------------------------------------------------------------
  // The records

  /** The record a constructor call leaves in a default-constructed Proxy. */
  predicate SpecNode(lib: Lib, node: Proxy, s: NodeSpec)
    reads node
  {
    match s
    case SsSpec(remarks, server, port, password, cipher, plugin, pluginOpts, udp, tfo, scv, tls13) =>
      CommonFields(lib, node, Shadowsocks, SsDefaultGroup, remarks, server, port, udp, tfo, scv, tls13, "")
      && node.Password == password && node.EncryptMethod == cipher && node.Plugin == plugin
      && node.PluginOption == pluginOpts
    case SsrSpec(remarks, server, port, protocol, cipher, obfs, password, obfsParam, protoParam, udp, tfo, scv) =>
      CommonFields(lib, node, ShadowsocksR, SsrDefaultGroup, remarks, server, port, udp, tfo, scv, Indeterminate, "")
      && node.Password == password && node.EncryptMethod == cipher && node.Protocol == protocol
      && node.ProtocolParam == protoParam && node.OBFS == obfs && node.OBFSParam == obfsParam
    case SocksSpec(remarks, server, port, username, password, udp, tfo, scv) =>
      CommonFields(lib, node, SOCKS5, SocksDefaultGroup, remarks, server, port, udp, tfo, scv, Indeterminate, "")
      && node.Username == username && node.Password == password
    case VmessSpec(remarks, server, port, id, aid, net, cipher, path, host, edge, tls, udp, tfo, scv, tls13) =>
      CommonFields(lib, node, VMess, V2RayDefaultGroup, remarks, server, port, udp, tfo, scv, tls13, "")
      && node.UserId == (if id == "" then ZeroUuid else id) && node.AlterId == ToU16(lib.toInt(aid))
      && node.EncryptMethod == cipher && node.Edge == edge && node.ServerName == "" && node.FakeType == ""
      && node.TransferProtocol == (if net == "" then "tcp" else net) && (node.TLSSecure <==> tls == "tls")
      && (net == "quic" ==> node.QUICSecure == host && node.QUICSecret == path && node.Host == "" && node.Path == "")
      && (net != "quic" ==>
            node.QUICSecure == "" && node.QUICSecret == ""
            && node.Host == (if host == "" && !lib.isIPv4(server) && !lib.isIPv6(server) then server else lib.trim(host))
            && node.Path == (if path == "" then "/" else lib.trim(path)))
    case HttpSpec(remarks, server, port, username, password, https, tfo, scv, tls13) =>
      CommonFields(lib, node, if https then HTTPS else HTTP, HttpDefaultGroup, remarks, server, port,
                   Indeterminate, tfo, scv, tls13, "")
      && node.Username == username && node.Password == password && node.TLSSecure == https
    case TrojanSpec(remarks, server, port, password, host, tlsSecure, udp, tfo, scv, tls13) =>
      CommonFields(lib, node, Trojan, TrojanDefaultGroup, remarks, server, port, udp, tfo, scv, tls13, "")
      && node.Password == password && node.Host == host && node.TLSSecure == tlsSecure && node.Path == ""
      && node.Network == "tcp" && node.TransferProtocol == "tcp"
      && node.GrpcServiceName == "" && node.WsPath == "" && node.WsHeaders == ""
    case SnellSpec(remarks, server, port, password, obfs, host, version, udp, tfo, scv) =>
      CommonFields(lib, node, Snell, SnellDefaultGroup, remarks, server, port, udp, tfo, scv, Indeterminate, "")
      && node.Password == password && node.OBFS == obfs && node.Host == host
      && node.SnellVersion == ToU16(lib.toInt(version))
    case WireguardSpec(_, _, _, _, _, _, _, _, _, _) =>
      WireguardBase(lib, node, s)
      && PeerOf(node) == PeersApplied(lib, s.peer, Peer("", "", ToU16(lib.toInt("0")), "", AllowedIPsDefault))
  }

  /** The fields of a WireGuard record that its peer does not write. */
  predicate WireguardBase(lib: Lib, node: Proxy, s: NodeSpec)
    requires s.WireguardSpec?
    reads node
  {
    node.Type == WireGuard && node.Group == WgDefaultGroup && node.Remark == s.remarks && node.UnderlyingProxy == ""
    && node.UDP == s.udp && node.TCPFastOpen == Indeterminate && node.AllowInsecure == Indeterminate
    && node.TLS13 == Indeterminate
    && node.SelfIP == s.ip && node.SelfIPv6 == s.ipv6 && node.PrivateKey == s.privateKey && node.PreSharedKey == ""
    && node.DnsServers == s.dns && node.Mtu == ToU16(lib.toInt(s.mtu)) && node.KeepAlive == ToU16(lib.toInt(s.keepalive))
    && node.TestUrl == s.testUrl
  }

  method BuildVmess(lib: Lib, s: NodeSpec, id: U32) returns (node: Proxy)
    requires s.VmessSpec?
    ensures fresh(node) && node.Id == id && SpecNode(lib, node, s)
  {
    node := new Proxy();
    node.Id := id;
    VmessConstruct(lib, node, V2RayDefaultGroup, s.remarks, s.server, s.port, "", s.id, s.aid, s.net, s.cipher,
                   s.path, s.host, s.edge, s.tls, "", s.udp, s.tfo, s.scv, s.tls13, "");
  }

  method BuildTrojan(lib: Lib, s: NodeSpec, id: U32) returns (node: Proxy)
    requires s.TrojanSpec?
    ensures fresh(node) && node.Id == id && SpecNode(lib, node, s)
  {
    node := new Proxy();
    node.Id := id;
    TrojanConstruct(lib, node, TrojanDefaultGroup, s.remarks, s.server, s.port, s.password, "", s.host, "",
                    s.tlsSecure, s.udp, s.tfo, s.scv, s.tls13, "");
  }

  /** The wireguardConstruct call, before the peer is parsed. */
  method NewWireguard(lib: Lib, s: NodeSpec, id: U32) returns (node: Proxy)
    requires s.WireguardSpec?
    ensures fresh(node) && node.Id == id && WireguardBase(lib, node, s)
    ensures PeerOf(node) == Peer("", "", ToU16(lib.toInt("0")), "", AllowedIPsDefault)
  {
    node := new Proxy();
    node.Id := id;
    WireguardConstruct(lib, node, WgDefaultGroup, s.remarks, "", "0", s.ip, s.ipv6, s.privateKey, "", "", s.dns,
                       s.mtu, s.keepalive, s.testUrl, "", s.udp, "");
  }

  method BuildWireguard(lib: Lib, s: NodeSpec, id: U32) returns (node: Proxy)
    requires s.WireguardSpec?
    ensures fresh(node) && node.Id == id && SpecNode(lib, node, s)
  {
    node := NewWireguard(lib, s, id);
    ParsePeers(lib, node, s.peer);
    assert WireguardBase(lib, node, s);
  }

  /** A fresh record numbered `id`, filled by the constructor call `s`. */
  method BuildSurgeNode(lib: Lib, s: NodeSpec, id: U32) returns (node: Proxy)
    ensures fresh(node) && node.Id == id && SpecNode(lib, node, s)
  {
    match s
    case SsSpec(remarks, server, port, password, cipher, plugin, pluginOpts, udp, tfo, scv, tls13) =>
      node := new Proxy();
      node.Id := id;
      SsConstruct(lib, node, SsDefaultGroup, remarks, server, port, password, cipher, plugin, pluginOpts,
                  udp, tfo, scv, tls13, "");
    case SsrSpec(remarks, server, port, protocol, cipher, obfs, password, obfsParam, protoParam, udp, tfo, scv) =>
      node := new Proxy();
      node.Id := id;
      SsrConstruct(lib, node, SsrDefaultGroup, remarks, server, port, protocol, cipher, obfs, password,
                   obfsParam, protoParam, udp, tfo, scv, "");
    case SocksSpec(remarks, server, port, username, password, udp, tfo, scv) =>
      node := new Proxy();
      node.Id := id;
      SocksConstruct(lib, node, SocksDefaultGroup, remarks, server, port, username, password, udp, tfo, scv, "");
    case VmessSpec(_, _, _, _, _, _, _, _, _, _, _, _, _, _, _) => node := BuildVmess(lib, s, id);
    case HttpSpec(remarks, server, port, username, password, https, tfo, scv, tls13) =>
      node := new Proxy();
      node.Id := id;
      HttpConstruct(lib, node, HttpDefaultGroup, remarks, server, port, username, password, https, tfo, scv, tls13, "");
    case TrojanSpec(_, _, _, _, _, _, _, _, _, _) => node := BuildTrojan(lib, s, id);
    case SnellSpec(remarks, server, port, password, obfs, host, version, udp, tfo, scv) =>
      node := new Proxy();
      node.Id := id;
      SnellConstruct(lib, node, SnellDefaultGroup, remarks, server, port, password, obfs, host,
                     ToU16(lib.toInt(version)), udp, tfo, scv, "");
    case WireguardSpec(_, _, _, _, _, _, _, _, _, _) => node := BuildWireguard(lib, s, id);
  }

  /** The building half: one fresh record per call, numbered on from the list's length. */
  method AppendSurgeNodes(lib: Lib, entries: seq<NodeSpec>, nodes: seq<Proxy>) returns (result: seq<Proxy>)
    ensures |result| == |nodes| + |entries| && result[..|nodes|] == nodes
    ensures forall k :: |nodes| <= k < |result| ==> fresh(result[k])
    ensures forall k :: |nodes| <= k < |result| ==>
              result[k].Id == ToU32(k) && SpecNode(lib, result[k], entries[k - |nodes|])
  {
    result := nodes;
    var i := 0;
    while i < |entries|
      invariant 0 <= i <= |entries|
      invariant |result| == |nodes| + i && result[..|nodes|] == nodes
      invariant forall k :: |nodes| <= k < |result| ==> fresh(result[k])
      invariant forall k :: |nodes| <= k < |result| ==>
                  result[k].Id == ToU32(k) && SpecNode(lib, result[k], entries[k - |nodes|])
    {
      var node := BuildSurgeNode(lib, entries[i], ToU32(|result|));
      result := result + [node];
      i := i + 1;
    }
  }

  /** The text the INI reader parses: everything before the first '[' is cut when there is a "[Proxy]". */
  function SurgeText(lib: Lib, surge: string): string
  {
    if Contains(surge, "[Proxy]") then lib.regReplace(surge, "^[\\S\\s]*?\\[", "[") else surge
  }

  /** The calls of a whole configuration; none without a [Proxy] section. */
  function SurgeCalls(lib: Lib, surge: string): seq<NodeSpec>
  {
    var text := SurgeText(lib, surge);
    match lib.surgeProxySection(text)
    case None => []
    case Some(lines) => SurgeEntries(lib, text, lines)
  }

  /**
   * explodeSurge (subparser.cpp:2432-3147).  The source reads and builds in one pass;
   * reading never looks at the records built, so the model reads the calls first.
   * The answer is whether the list ends non-empty, so a list that already had records
   * gives true even when the configuration added none.
   */
  method ExplodeSurge(lib: Lib, surge: string, nodes: seq<Proxy>) returns (ok: bool, result: seq<Proxy>)
    ensures |result| == |nodes| + |SurgeCalls(lib, surge)| && result[..|nodes|] == nodes
    ensures forall k :: |nodes| <= k < |result| ==> fresh(result[k])
    ensures forall k :: |nodes| <= k < |result| ==>
              result[k].Id == ToU32(k) && SpecNode(lib, result[k], SurgeCalls(lib, surge)[k - |nodes|])
    ensures ok <==> lib.surgeProxySection(SurgeText(lib, surge)).Some? && |result| != 0
    ensures lib.surgeProxySection(SurgeText(lib, surge)).None? ==> !ok && result == nodes
  {
    var text := SurgeText(lib, surge);
    var lines := lib.surgeProxySection(text);
    if lines.None? {
      return false, nodes;
    }
    var entries := ReadSurgeEntries(lib, text, lines.value);
    result := AppendSurgeNodes(lib, entries, nodes);
    ok := |result| != 0;
  }
}
