// The share links of the QUIC-era protocols in src/parser/subparser.cpp:
// hysteria2:// (or hy2://), tuic:// and anytls://.  All three are cut the same
// way (remark after the last '#', query after the last '?') and accept either
// user@host:port or host:port with the credentials in the query; unlike the
// older decoders they have no port "0" test.

module QuicLinks {
  import opened Utils
  import opened Text
  import opened Proxies
  import opened Constructors
  import opened Links

  /** The link after its scheme cut into (body, query, remark): the remark after the last '#' is URL-decoded. */
  function StdCut(lib: Lib, s: string): (r: (string, string, string))
    ensures '#' !in s && '?' !in s ==> r == (s, "", "")
  {
    var frag := SplitLast(s, '#');
    var rest := if frag.Some? then frag.value.0 else s;
    var remarks := if frag.Some? then lib.urlDecode(frag.value.1) else "";
    match SplitLast(rest, '?')
    case None => (rest, "", remarks)
    case Some((body, addition)) => (body, addition, remarks)
  }

  /** Cutting scheme + body?query#name gives its three parts back. */
  lemma StdCutOf(lib: Lib, scheme: string, body: string, query: string, name: string)
    requires '#' !in name && '?' !in query
    ensures StdCut(lib, Drop(scheme + body + "?" + query + "#" + name, |scheme|)) == (body, query, lib.urlDecode(name))
  {
    var tail := body + "?" + query;
    assert scheme + body + "?" + query + "#" + name == scheme + (tail + ['#'] + name) by {
      ConcatAssociative(scheme, body + "?" + query, "#");
      ConcatAssociative(scheme, body + "?", query);
      ConcatAssociative(scheme, body, "?");
      ConcatAssociative(scheme, tail + "#", name);
    }
    SplitLastOf(tail, '#', name);
    SplitLastOf(body, '?', query);
  }

  /** `^(.*)[:](\d+)$`: host and a non-empty all-digit port either side of the last ':'. */
  function HostDigitsPort(s: string): (r: Option<(string, string)>)
    ensures r.Some? ==> r.value.1 != "" && AllDigits(r.value.1) && s == r.value.0 + ":" + r.value.1
  {
    match SplitLast(s, ':')
    case None => None
    case Some((host, port)) =>
      if port != "" && AllDigits(port) then
        assert s == host + ":" + port by {
          var i := LastIndexOf(s, ':');
          assert s == s[..i] + [':'] + s[i + 1..];
        }
        Some((host, port))
      else None
  }

  /** The split above undoes the joining of host and digits. */
  lemma HostDigitsPortOf(host: string, port: string)
    requires port != "" && AllDigits(port)
    ensures HostDigitsPort(host + ":" + port) == Some((host, port))
  {
    SplitLastOf(host, ':', port);
  }

  /** `^(.*?)@(.*)[:](\d+)$`: user before the first '@', then host and digits. */
  function UserHostDigits(s: string): (r: Option<(string, string, string)>)
    ensures r.Some? ==> '@' !in r.value.0 && r.value.2 != "" && AllDigits(r.value.2)
  {
    match SplitFirst(s, '@')
    case None => None
    case Some((user, rest)) =>
      match HostDigitsPort(rest)
      case None => None
      case Some((host, port)) => Some((user, host, port))
  }

  lemma UserHostDigitsOf(user: string, host: string, port: string)
    requires '@' !in user && port != "" && AllDigits(port)
    ensures UserHostDigits(user + "@" + host + ":" + port) == Some((user, host, port))
  {
    var rest := host + ":" + port;
    assert user + "@" + host + ":" + port == user + ['@'] + rest;
    SplitFirstOf(user, '@', rest);
    HostDigitsPortOf(host, port);
  }

  /** A query argument, or a second one when the first is missing or empty. */
  function ArgOr(lib: Lib, addition: string, name: string, fallback: string): (r: string)
    ensures lib.getUrlArg(addition, name) != "" ==> r == lib.getUrlArg(addition, name)
    ensures lib.getUrlArg(addition, name) == "" ==> r == lib.getUrlArg(addition, fallback)
  {
    var v := lib.getUrlArg(addition, name);
    if v != "" then v else lib.getUrlArg(addition, fallback)
  }

  /**
   * Credentials and address of a std link body: user@host:port, or host:port with the
   * secret taken from the query argument `secret` (no record when it is missing).
   */
  function StdAddress(lib: Lib, body: string, addition: string, secret: string): (r: Option<(string, string, string)>)
    ensures '@' !in body && r.Some? ==> r.value.0 == lib.getUrlArg(addition, secret) && r.value.0 != ""
    ensures r.Some? ==> r.value.2 != "" && AllDigits(r.value.2)
  {
    if '@' in body then UserHostDigits(body)
    else
      var password := lib.getUrlArg(addition, secret);
      if password == "" || ':' !in body then None
      else
        match HostDigitsPort(body)
        case None => None
        case Some((add, port)) => Some((password, add, port))
  }

  /** A body password@host:port names its own credentials, whatever the query says. */
  lemma StdAddressOf(lib: Lib, password: string, host: string, port: string, addition: string, secret: string)
    requires '@' !in password && port != "" && AllDigits(port)
    ensures StdAddress(lib, password + "@" + host + ":" + port, addition, secret) == Some((password, host, port))
  {
    var body := password + "@" + host + ":" + port;
    assert body == password + ['@'] + (host + ":" + port);
    UserHostDigitsOf(password, host, port);
  }

  // ------------------------------------------------------------ hysteria2://

  /** The arguments explodeStdHysteria2 hands to hysteria2Construct, beside the fixed ones. */
  datatype Hysteria2Fields = Hysteria2Fields(remarks: string, server: string, port: string, ports: string,
                                             up: string, down: string, password: string, obfs: string,
                                             obfsPassword: string, sni: string, fingerprint: string, alpn: string,
                                             ca: string, caStr: string, cwnd: string, hopInterval: string,
                                             echEnable: string, echConfig: string, streamWindow: string,
                                             maxStreamWindow: string, connWindow: string, maxConnWindow: string,
                                             scv: Tribool)

  /** The fields hysteria2Construct writes for `f`, against the record as it was before. */
  twostate predicate Hysteria2Node(lib: Lib, node: Proxy, f: Hysteria2Fields)
    reads node
  {
    CommonFields(lib, node, Hysteria2, Hysteria2DefaultGroup, f.remarks, f.server, f.port, Indeterminate,
                 Indeterminate, f.scv, Indeterminate, "")
    && Hysteria2LinkFields(lib, node, f.ports, f.up, f.down, f.password, f.obfs, f.obfsPassword, old(node.Up),
                           old(node.UpSpeed), old(node.Down), old(node.DownSpeed), old(node.OBFS), old(node.OBFSParam))
    && Hysteria2TuningFields(lib, node, f.sni, f.fingerprint, f.alpn, f.ca, f.caStr, f.cwnd, f.hopInterval,
                             f.echEnable, f.echConfig, f.streamWindow, f.maxStreamWindow, f.connWindow,
                             f.maxConnWindow, old(node.Alpn), old(node.EchEnable), old(node.EchConfig),
                             old(node.InitialStreamReceiveWindow), old(node.MaxStreamReceiveWindow),
                             old(node.InitialConnectionReceiveWindow), old(node.MaxConnectionReceiveWindow))
  }

  /** The settings of a hysteria2 query, with the fallbacks sni/peer, pinSHA256/fingerprint, ports/mport, ech-enable/ech. */
  function Hysteria2Query(lib: Lib, addition: string, remarks: string, server: string, port: string,
                          password: string): (r: Hysteria2Fields)
    ensures r.remarks == RemarkOr(remarks, server, port) && r.server == server && r.port == port
    ensures r.password == password && r.scv == lib.tribool(lib.getUrlArg(addition, "insecure"))
    ensures r.sni == ArgOr(lib, addition, "sni", "peer") && r.ports == ArgOr(lib, addition, "ports", "mport")
  {
    Hysteria2Fields(RemarkOr(remarks, server, port), server, port, ArgOr(lib, addition, "ports", "mport"),
                    lib.getUrlArg(addition, "up"), lib.getUrlArg(addition, "down"), password,
                    lib.getUrlArg(addition, "obfs"), lib.getUrlArg(addition, "obfs-password"),
                    ArgOr(lib, addition, "sni", "peer"), ArgOr(lib, addition, "pinSHA256", "fingerprint"),
                    lib.getUrlArg(addition, "alpn"), lib.getUrlArg(addition, "ca"), lib.getUrlArg(addition, "ca-str"),
                    lib.getUrlArg(addition, "cwnd"), lib.getUrlArg(addition, "hop-interval"),
                    ArgOr(lib, addition, "ech-enable", "ech"), lib.getUrlArg(addition, "ech-config"),
                    lib.getUrlArg(addition, "initial-stream-receive-window"),
                    lib.getUrlArg(addition, "max-stream-receive-window"),
                    lib.getUrlArg(addition, "initial-connection-receive-window"),
                    lib.getUrlArg(addition, "max-connection-receive-window"),
                    lib.tribool(lib.getUrlArg(addition, "insecure")))
  }

  /** explodeStdHysteria2 (subparser.cpp:1973-2060) on a link whose scheme is "hysteria2://". */
  function Hysteria2StdLink(lib: Lib, link: string): (r: Option<Hysteria2Fields>)
    ensures r.Some? ==> r.value.password != "" || '@' in StdCut(lib, Drop(link, 12)).0
    ensures r.Some? ==> r.value.remarks != "" && AllDigits(r.value.port)
  {
    var cut := StdCut(lib, Drop(link, 12));
    match StdAddress(lib, cut.0, cut.1, "password")
    case None => None
    case Some((password, add, port)) => Some(Hysteria2Query(lib, cut.1, cut.2, add, port, password))
  }

  /** hysteria2Construct called as explodeStdHysteria2 calls it. */
  method Hysteria2Build(lib: Lib, node: Proxy, f: Hysteria2Fields)
    modifies node`Type, node`Group, node`Remark, node`Hostname, node`UnderlyingProxy, node`Port, node`UDP,
             node`TCPFastOpen, node`AllowInsecure, node`TLS13, node`Up, node`UpSpeed, node`Down,
             node`DownSpeed, node`Ports, node`Password, node`OBFS, node`OBFSParam, node`SNI,
             node`Fingerprint, node`Alpn, node`Ca, node`CaStr, node`CWND, node`HopInterval, node`EchEnable,
             node`EchConfig, node`InitialStreamReceiveWindow, node`MaxStreamReceiveWindow,
             node`InitialConnectionReceiveWindow, node`MaxConnectionReceiveWindow
    ensures Hysteria2Node(lib, node, f)
  {
    Hysteria2Construct(lib, node, Hysteria2DefaultGroup, f.remarks, f.server, f.port, f.ports, f.up, f.down,
                       f.password, f.obfs, f.obfsPassword, f.sni, f.fingerprint, f.alpn, f.ca, f.caStr, f.cwnd,
                       f.hopInterval, f.echEnable, f.echConfig, f.streamWindow, f.maxStreamWindow, f.connWindow,
                       f.maxConnWindow, Indeterminate, f.scv, "");
  }

  /** The query settings explodeStdHysteria2 reads (subparser.cpp:2012-2052), with the remark defaulted. */
  method Hysteria2Settings(lib: Lib, addition: string, remarks0: string, add: string, port: string,
                           password: string) returns (f: Hysteria2Fields)
    ensures f == Hysteria2Query(lib, addition, remarks0, add, port, password)
  {
    var remarks := remarks0;
    var scv := lib.tribool(lib.getUrlArg(addition, "insecure"));
    var up := lib.getUrlArg(addition, "up");
    var down := lib.getUrlArg(addition, "down");
    var alpn := lib.getUrlArg(addition, "alpn");
    var obfs := lib.getUrlArg(addition, "obfs");
    var obfsPassword := lib.getUrlArg(addition, "obfs-password");
    var sni := lib.getUrlArg(addition, "sni");
    if sni == "" {
      sni := lib.getUrlArg(addition, "peer");
    }
    assert sni == ArgOr(lib, addition, "sni", "peer");
    var fingerprint := lib.getUrlArg(addition, "pinSHA256");
    if fingerprint == "" {
      fingerprint := lib.getUrlArg(addition, "fingerprint");
    }
    assert fingerprint == ArgOr(lib, addition, "pinSHA256", "fingerprint");
    var ports := lib.getUrlArg(addition, "ports");
    if ports == "" {
      ports := lib.getUrlArg(addition, "mport");
    }
    assert ports == ArgOr(lib, addition, "ports", "mport");
    var ca := lib.getUrlArg(addition, "ca");
    var caStr := lib.getUrlArg(addition, "ca-str");
    var cwnd := lib.getUrlArg(addition, "cwnd");
    var hopInterval := lib.getUrlArg(addition, "hop-interval");
    var echEnable := lib.getUrlArg(addition, "ech-enable");
    if echEnable == "" {
      echEnable := lib.getUrlArg(addition, "ech");
    }
    assert echEnable == ArgOr(lib, addition, "ech-enable", "ech");
    var echConfig := lib.getUrlArg(addition, "ech-config");
    var streamWindow := lib.getUrlArg(addition, "initial-stream-receive-window");
    var maxStreamWindow := lib.getUrlArg(addition, "max-stream-receive-window");
    var connWindow := lib.getUrlArg(addition, "initial-connection-receive-window");
    var maxConnWindow := lib.getUrlArg(addition, "max-connection-receive-window");
    if remarks == "" {
      remarks := HostPort(add, port);
    }
    f := Hysteria2Fields(remarks, add, port, ports, up, down, password, obfs, obfsPassword, sni, fingerprint,
                           alpn, ca, caStr, cwnd, hopInterval, echEnable, echConfig, streamWindow,
                           maxStreamWindow, connWindow, maxConnWindow, scv);
  }

  method ExplodeStdHysteria2(lib: Lib, link: string, node: Proxy)
    modifies node`Type, node`Group, node`Remark, node`Hostname, node`UnderlyingProxy, node`Port, node`UDP,
             node`TCPFastOpen, node`AllowInsecure, node`TLS13, node`Up, node`UpSpeed, node`Down,
             node`DownSpeed, node`Ports, node`Password, node`OBFS, node`OBFSParam, node`SNI,
             node`Fingerprint, node`Alpn, node`Ca, node`CaStr, node`CWND, node`HopInterval, node`EchEnable,
             node`EchConfig, node`InitialStreamReceiveWindow, node`MaxStreamReceiveWindow,
             node`InitialConnectionReceiveWindow, node`MaxConnectionReceiveWindow
    ensures Hysteria2StdLink(lib, link).None? ==> unchanged(node)
    ensures Hysteria2StdLink(lib, link).Some? ==> Hysteria2Node(lib, node, Hysteria2StdLink(lib, link).value)
  {
    var hysteria2 := Drop(link, 12);
    var remarks, addition := "", "";
    var frag := SplitLast(hysteria2, '#');
    if frag.Some? {
      remarks := lib.urlDecode(frag.value.1);
      hysteria2 := frag.value.0;
    }
    var q := SplitLast(hysteria2, '?');
    if q.Some? {
      addition := q.value.1;
      hysteria2 := q.value.0;
    }
    assert StdCut(lib, Drop(link, 12)) == (hysteria2, addition, remarks);
    var password, add, port := "", "", "";
    if '@' in hysteria2 {
      var m := UserHostDigits(hysteria2);
      if m.None? {
        return;
      }
      password, add, port := m.value.0, m.value.1, m.value.2;
    } else {
      password := lib.getUrlArg(addition, "password");
      if password == "" {
        return;
      }
      if ':' !in hysteria2 {
        return;
      }
      var m := HostDigitsPort(hysteria2);
      if m.None? {
        return;
      }
      add, port := m.value.0, m.value.1;
    }
    assert StdAddress(lib, hysteria2, addition, "password") == Some((password, add, port));
    var f := Hysteria2Settings(lib, addition, remarks, add, port, password);
    assert Hysteria2StdLink(lib, link) == Some(f);
    Hysteria2Build(lib, node, f);
  }

  /** explodeHysteria2's rewriting: "hy2://" becomes "hysteria2://" and "/?" becomes "?". */
  function Hysteria2Normalized(lib: Lib, link: string): (r: string)
  {
    ReplaceAll(lib.regReplace(link, "(hysteria2|hy2)://", "hysteria2://"), "/?", "?")
  }

  /**
   * explodeHysteria2 (subparser.cpp:2062-2071): after the rewriting, a "hysteria2://"
   * link with a ':' after its scheme goes to explodeStdHysteria2; anything else yields nothing.
   */
  function Hysteria2Link(lib: Lib, link: string): (r: Option<Hysteria2Fields>)
    ensures r.Some? ==> StartsWith(Hysteria2Normalized(lib, link), "hysteria2://")
    ensures r.Some? ==> r == Hysteria2StdLink(lib, Hysteria2Normalized(lib, link))
  {
    var s := Hysteria2Normalized(lib, link);
    if StartsWith(s, "hysteria2://") && ':' in Drop(s, 12) then Hysteria2StdLink(lib, s) else None
  }

  method ExplodeHysteria2(lib: Lib, link: string, node: Proxy)
    modifies node`Type, node`Group, node`Remark, node`Hostname, node`UnderlyingProxy, node`Port, node`UDP,
             node`TCPFastOpen, node`AllowInsecure, node`TLS13, node`Up, node`UpSpeed, node`Down,
             node`DownSpeed, node`Ports, node`Password, node`OBFS, node`OBFSParam, node`SNI,
             node`Fingerprint, node`Alpn, node`Ca, node`CaStr, node`CWND, node`HopInterval, node`EchEnable,
             node`EchConfig, node`InitialStreamReceiveWindow, node`MaxStreamReceiveWindow,
             node`InitialConnectionReceiveWindow, node`MaxConnectionReceiveWindow
    ensures Hysteria2Link(lib, link).None? ==> unchanged(node)
    ensures Hysteria2Link(lib, link).Some? ==> Hysteria2Node(lib, node, Hysteria2Link(lib, link).value)
  {
    var hysteria2 := lib.regReplace(link, "(hysteria2|hy2)://", "hysteria2://");
    hysteria2 := ReplaceAll(hysteria2, "/?", "?");
    if StartsWith(hysteria2, "hysteria2://") && ':' in Drop(hysteria2, 12) {
      ExplodeStdHysteria2(lib, hysteria2, node);
    }
  }

  /**
   * A hysteria2 link built as password@host:port?query#name decodes back to its parts,
   * the remark being the decoded name (or "host:port"), the settings read from the query.
   */
  lemma Hysteria2RoundTrip(lib: Lib, password: string, host: string, port: string, query: string, name: string)
    requires '@' !in password && port != "" && AllDigits(port) && '?' !in query && '#' !in name
    ensures var r := Hysteria2StdLink(lib, "hysteria2://" + (password + "@" + host + ":" + port) + "?" + query
                                           + "#" + name);
            r == Some(Hysteria2Query(lib, query, lib.urlDecode(name), host, port, password))
  {
    StdCutOf(lib, "hysteria2://", password + "@" + host + ":" + port, query, name);
    StdAddressOf(lib, password, host, port, query, "password");
  }

  /**
   * Without an '@' the password comes from the query: the link decodes exactly when
   * the query has a non-empty "password" and the body is host:digits.
   */
  lemma Hysteria2PasswordInQuery(lib: Lib, host: string, port: string, query: string, name: string)
    requires '@' !in host + ":" + port && '?' !in query && '#' !in name
    ensures var r := Hysteria2StdLink(lib, "hysteria2://" + (host + ":" + port) + "?" + query + "#" + name);
            r.Some? <==> lib.getUrlArg(query, "password") != "" && HostDigitsPort(host + ":" + port).Some?
  {
    StdCutOf(lib, "hysteria2://", host + ":" + port, query, name);
    assert ':' in host + ":" + port by {
      assert (host + ":" + port)[|host|] == ':';
    }
  }

  // ------------------------------------------------------------ tuic://

  /** `^(.*?):(.*?)@(.*?):(\d+)$`: uuid, password, host and an all-digit port. */
  function UserPassHostDigits(s: string): (r: Option<(string, string, string, string)>)
    ensures r.Some? ==> ':' !in r.value.0 && '@' !in r.value.1 && r.value.3 != "" && AllDigits(r.value.3)
  {
    match UserPassHostPort(s)
    case None => None
    case Some((uuid, password, host, port)) =>
      if port != "" && AllDigits(port) then Some((uuid, password, host, port)) else None
  }

  /** The arguments explodeStdTuic hands to tuicConstruct, beside the fixed ones. */
  datatype TuicFields = TuicFields(remarks: string, server: string, port: string, uuid: string, password: string,
                                   heartbeatInterval: string, alpn: string, disableSni: string, reduceRtt: string,
                                   requestTimeout: string, udpRelayMode: string, congestionController: string,
                                   maxUdpRelayPacketSize: string, maxOpenStreams: string, sni: string,
                                   fastOpen: string, scv: Tribool)

  /** The fields tuicConstruct writes for `f` (no IP, no TCP Fast Open), against the record as it was before. */
  twostate predicate TuicNode(lib: Lib, node: Proxy, f: TuicFields)
    reads node
  {
    CommonFields(lib, node, TUIC, TuicDefaultGroup, f.remarks, f.server, f.port, Indeterminate, Indeterminate,
                 f.scv, Indeterminate, "")
    && node.Password == f.password && node.UUID == f.uuid && node.IP == ""
    && node.HeartbeatInterval == f.heartbeatInterval
    && node.Alpn == (if f.alpn != "" then [f.alpn] else old(node.Alpn))
    && node.DisableSNI == lib.tribool(f.disableSni) && node.ReduceRTT == lib.tribool(f.reduceRtt)
    && node.RequestTimeout == ToU32(lib.toInt(f.requestTimeout))
    && node.UdpRelayMode == f.udpRelayMode && node.CongestionController == f.congestionController
    && node.MaxUdpRelayPacketSize == ToU32(lib.toInt(f.maxUdpRelayPacketSize))
    && node.MaxOpenStreams == ToU32(lib.toInt(f.maxOpenStreams))
    && node.SNI == f.sni && node.FastOpen == lib.tribool(f.fastOpen)
  }

  /** The settings of a tuic query. */
  function TuicQuery(lib: Lib, addition: string, remarks: string, server: string, port: string, uuid: string,
                     password: string): (r: TuicFields)
    ensures r.remarks == RemarkOr(remarks, server, port) && r.server == server && r.port == port
    ensures r.uuid == uuid && r.password == password && r.scv == lib.tribool(lib.getUrlArg(addition, "insecure"))
    ensures r.congestionController == lib.getUrlArg(addition, "congestion_control")
  {
    TuicFields(RemarkOr(remarks, server, port), server, port, uuid, password,
               lib.getUrlArg(addition, "heartbeat_interval"), lib.getUrlArg(addition, "alpn"),
               lib.getUrlArg(addition, "disable_sni"), lib.getUrlArg(addition, "reduce_rtt"),
               lib.getUrlArg(addition, "request_timeout"), lib.getUrlArg(addition, "udp_relay_mode"),
               lib.getUrlArg(addition, "congestion_control"), lib.getUrlArg(addition, "max_udp_relay_packet_size"),
               lib.getUrlArg(addition, "max_open_streams"), lib.getUrlArg(addition, "sni"),
               lib.getUrlArg(addition, "fast_open"), lib.tribool(lib.getUrlArg(addition, "insecure")))
  }

  /** Credentials and address of a tuic body: uuid:password@host:port, or host:port with both in the query. */
  function TuicAddress(lib: Lib, body: string, addition: string): (r: Option<(string, string, string, string)>)
    ensures '@' !in body && r.Some? ==>
              r.value.0 == lib.getUrlArg(addition, "uuid") != "" && r.value.1 == lib.getUrlArg(addition, "password") != ""
    ensures r.Some? ==> r.value.3 != "" && AllDigits(r.value.3)
  {
    if '@' in body then UserPassHostDigits(body)
    else
      var uuid, password := lib.getUrlArg(addition, "uuid"), lib.getUrlArg(addition, "password");
      if uuid == "" || password == "" || ':' !in body then None
      else
        match HostDigitsPort(body)
        case None => None
        case Some((add, port)) => Some((uuid, password, add, port))
  }

  /** explodeStdTuic (subparser.cpp:2073-2132) on a link whose scheme is "tuic://". */
  function TuicStdLink(lib: Lib, link: string): (r: Option<TuicFields>)
    ensures r.Some? ==> r.value.remarks != "" && AllDigits(r.value.port)
  {
    var cut := StdCut(lib, Drop(link, 7));
    match TuicAddress(lib, cut.0, cut.1)
    case None => None
    case Some((uuid, password, add, port)) => Some(TuicQuery(lib, cut.1, cut.2, add, port, uuid, password))
  }

  /** tuicConstruct called as explodeStdTuic calls it. */
  method TuicBuild(lib: Lib, node: Proxy, f: TuicFields)
    modifies node`Type, node`Group, node`Remark, node`Hostname, node`UnderlyingProxy, node`Port, node`UDP,
             node`TCPFastOpen, node`AllowInsecure, node`TLS13, node`Password, node`UUID, node`IP,
             node`HeartbeatInterval, node`Alpn, node`DisableSNI, node`ReduceRTT, node`RequestTimeout,
             node`UdpRelayMode, node`CongestionController, node`MaxUdpRelayPacketSize, node`MaxOpenStreams,
             node`SNI, node`FastOpen
    ensures TuicNode(lib, node, f)
  {
    TuicConstruct(lib, node, TuicDefaultGroup, f.remarks, f.server, f.port, f.uuid, f.password, "",
                  f.heartbeatInterval, f.alpn, f.disableSni, f.reduceRtt, f.requestTimeout, f.udpRelayMode,
                  f.congestionController, f.maxUdpRelayPacketSize, f.maxOpenStreams, f.sni, f.fastOpen,
                  Indeterminate, f.scv, "");
  }

  method ExplodeStdTuic(lib: Lib, link: string, node: Proxy)
    modifies node`Type, node`Group, node`Remark, node`Hostname, node`UnderlyingProxy, node`Port, node`UDP,
             node`TCPFastOpen, node`AllowInsecure, node`TLS13, node`Password, node`UUID, node`IP,
             node`HeartbeatInterval, node`Alpn, node`DisableSNI, node`ReduceRTT, node`RequestTimeout,
             node`UdpRelayMode, node`CongestionController, node`MaxUdpRelayPacketSize, node`MaxOpenStreams,
             node`SNI, node`FastOpen
    ensures TuicStdLink(lib, link).None? ==> unchanged(node)
    ensures TuicStdLink(lib, link).Some? ==> TuicNode(lib, node, TuicStdLink(lib, link).value)
  {
    var tuic := Drop(link, 7);
    var remarks, addition := "", "";
    var frag := SplitLast(tuic, '#');
    if frag.Some? {
      remarks := lib.urlDecode(frag.value.1);
      tuic := frag.value.0;
    }
    var q := SplitLast(tuic, '?');
    if q.Some? {
      addition := q.value.1;
      tuic := q.value.0;
    }
    assert StdCut(lib, Drop(link, 7)) == (tuic, addition, remarks);
    ghost var remarks0 := remarks;
    var uuid, password, add, port := "", "", "", "";
    if '@' in tuic {
      var m := UserPassHostDigits(tuic);
      if m.None? {
        return;
      }
      uuid, password, add, port := m.value.0, m.value.1, m.value.2, m.value.3;
    } else {
      uuid := lib.getUrlArg(addition, "uuid");
      password := lib.getUrlArg(addition, "password");
      if uuid == "" || password == "" {
        return;
      }
      if ':' !in tuic {
        return;
      }
      var m := HostDigitsPort(tuic);
      if m.None? {
        return;
      }
      add, port := m.value.0, m.value.1;
    }
    assert TuicAddress(lib, tuic, addition) == Some((uuid, password, add, port));
    var heartbeatInterval := lib.getUrlArg(addition, "heartbeat_interval");
    var disableSni := lib.getUrlArg(addition, "disable_sni");
    var reduceRtt := lib.getUrlArg(addition, "reduce_rtt");
    var requestTimeout := lib.getUrlArg(addition, "request_timeout");
    var udpRelayMode := lib.getUrlArg(addition, "udp_relay_mode");
    var congestionController := lib.getUrlArg(addition, "congestion_control");
    var maxUdpRelayPacketSize := lib.getUrlArg(addition, "max_udp_relay_packet_size");
    var maxOpenStreams := lib.getUrlArg(addition, "max_open_streams");
    var alpn := lib.getUrlArg(addition, "alpn");
    var sni := lib.getUrlArg(addition, "sni");
    var fastOpen := lib.getUrlArg(addition, "fast_open");
    var scv := lib.tribool(lib.getUrlArg(addition, "insecure"));
    if remarks == "" {
      remarks := HostPort(add, port);
    }
    var f := TuicFields(remarks, add, port, uuid, password, heartbeatInterval, alpn, disableSni, reduceRtt,
                        requestTimeout, udpRelayMode, congestionController, maxUdpRelayPacketSize, maxOpenStreams,
                        sni, fastOpen, scv);
    assert f == TuicQuery(lib, addition, remarks0, add, port, uuid, password);
    assert TuicStdLink(lib, link) == Some(f);
    TuicBuild(lib, node, f);
  }

  /** explodeTUIC (subparser.cpp:2134-2143): "/?" becomes "?", then a tuic link with a ':' goes to explodeStdTuic. */
  function TuicLink(lib: Lib, link: string): (r: Option<TuicFields>)
    ensures r.Some? ==> r == TuicStdLink(lib, ReplaceAll(lib.regReplace(link, "(tuic)://", "tuic://"), "/?", "?"))
  {
    var s := ReplaceAll(lib.regReplace(link, "(tuic)://", "tuic://"), "/?", "?");
    if StartsWith(s, "tuic://") && ':' in Drop(s, 7) then TuicStdLink(lib, s) else None
  }

  method ExplodeTuic(lib: Lib, link: string, node: Proxy)
    modifies node`Type, node`Group, node`Remark, node`Hostname, node`UnderlyingProxy, node`Port, node`UDP,
             node`TCPFastOpen, node`AllowInsecure, node`TLS13, node`Password, node`UUID, node`IP,
             node`HeartbeatInterval, node`Alpn, node`DisableSNI, node`ReduceRTT, node`RequestTimeout,
             node`UdpRelayMode, node`CongestionController, node`MaxUdpRelayPacketSize, node`MaxOpenStreams,
             node`SNI, node`FastOpen
    ensures TuicLink(lib, link).None? ==> unchanged(node)
    ensures TuicLink(lib, link).Some? ==> TuicNode(lib, node, TuicLink(lib, link).value)
  {
    var tuic := lib.regReplace(link, "(tuic)://", "tuic://");
    tuic := ReplaceAll(tuic, "/?", "?");
    if StartsWith(tuic, "tuic://") && ':' in Drop(tuic, 7) {
      ExplodeStdTuic(lib, tuic, node);
    }
  }

  /** A tuic link built as uuid:password@host:port?query#name decodes back to its parts. */
  lemma TuicRoundTrip(lib: Lib, uuid: string, password: string, host: string, port: string, query: string,
                      name: string)
    requires ':' !in uuid && '@' !in password && port != "" && AllDigits(port) && '?' !in query && '#' !in name
    ensures var r := TuicStdLink(lib, "tuic://" + (uuid + ":" + password + "@" + host + ":" + port) + "?" + query
                                      + "#" + name);
            r == Some(TuicQuery(lib, query, lib.urlDecode(name), host, port, uuid, password))
  {
    StdCutOf(lib, "tuic://", uuid + ":" + password + "@" + host + ":" + port, query, name);
    TuicAddressOf(lib, uuid, password, host, port, query);
  }

  /** A body uuid:password@host:port names its own credentials, whatever the query says. */
  lemma TuicAddressOf(lib: Lib, uuid: string, password: string, host: string, port: string, addition: string)
    requires ':' !in uuid && '@' !in password && port != "" && AllDigits(port)
    ensures TuicAddress(lib, uuid + ":" + password + "@" + host + ":" + port, addition)
            == Some((uuid, password, host, port))
  {
    var body := uuid + ":" + password + "@" + host + ":" + port;
    assert '@' in body by {
      assert body == uuid + ":" + password + ['@'] + (host + ":" + port);
    }
    UserPassHostPortOf(uuid, password, host, port);
  }

  // ------------------------------------------------------------ anytls://

  /** The arguments explodeStdAnyTLS hands to anytlsConstruct, beside the fixed ones. */
  datatype AnyTlsFields = AnyTlsFields(remarks: string, server: string, port: string, password: string, sni: string,
                                       alpn: string, fingerprint: string, tfo: Tribool, scv: Tribool)

  /**
   * The fields anytlsConstruct writes for `f`: the group is the literal "AnyTLS" (not
   * ANYTLS_DEFAULT_GROUP) and the idle-session settings are converted from empty text.
   */
  twostate predicate AnyTlsNode(lib: Lib, node: Proxy, f: AnyTlsFields)
    reads node
  {
    CommonFields(lib, node, AnyTLS, "AnyTLS", f.remarks, f.server, f.port, Indeterminate, f.tfo, f.scv,
                 Indeterminate, "")
    && node.Password == f.password && node.SNI == f.sni && node.Fingerprint == f.fingerprint
    && node.Alpn == (if f.alpn != "" then [f.alpn] else old(node.Alpn))
    && node.IdleSessionCheckInterval == ToU32(lib.toInt("")) && node.IdleSessionTimeout == ToU32(lib.toInt(""))
    && node.MinIdleSession == ToU32(lib.toInt(""))
  }

  /** explodeStdAnyTLS (subparser.cpp:2145-2187) on a link whose scheme is "anytls://". */
  function AnyTlsStdLink(lib: Lib, link: string): (r: Option<AnyTlsFields>)
    ensures r.Some? ==> r.value.remarks != "" && AllDigits(r.value.port)
    ensures r.Some? && '@' !in StdCut(lib, Drop(link, 9)).0 ==> r.value.password != ""
  {
    var cut := StdCut(lib, Drop(link, 9));
    match StdAddress(lib, cut.0, cut.1, "password")
    case None => None
    case Some((password, add, port)) =>
      Some(AnyTlsFields(RemarkOr(cut.2, add, port), add, port, password, lib.getUrlArg(cut.1, "peer"),
                        lib.getUrlArg(cut.1, "alpn"), lib.urlDecode(lib.getUrlArg(cut.1, "hpkp")),
                        lib.tribool(lib.getUrlArg(cut.1, "tfo")), lib.tribool(lib.getUrlArg(cut.1, "insecure"))))
  }

  method ExplodeStdAnyTls(lib: Lib, link: string, node: Proxy)
    modifies node`Type, node`Group, node`Remark, node`Hostname, node`UnderlyingProxy, node`Port, node`UDP,
             node`TCPFastOpen, node`AllowInsecure, node`TLS13, node`Password, node`SNI, node`Alpn,
             node`Fingerprint, node`IdleSessionCheckInterval, node`IdleSessionTimeout, node`MinIdleSession
    ensures AnyTlsStdLink(lib, link).None? ==> unchanged(node)
    ensures AnyTlsStdLink(lib, link).Some? ==> AnyTlsNode(lib, node, AnyTlsStdLink(lib, link).value)
  {
    var anytls := Drop(link, 9);
    var remarks, addition := "", "";
    var frag := SplitLast(anytls, '#');
    if frag.Some? {
      remarks := lib.urlDecode(frag.value.1);
      anytls := frag.value.0;
    }
    var q := SplitLast(anytls, '?');
    if q.Some? {
      addition := q.value.1;
      anytls := q.value.0;
    }
    assert StdCut(lib, Drop(link, 9)) == (anytls, addition, remarks);
    ghost var remarks0 := remarks;
    var password, add, port := "", "", "";
    if '@' in anytls {
      var m := UserHostDigits(anytls);
      if m.None? {
        return;
      }
      password, add, port := m.value.0, m.value.1, m.value.2;
    } else {
      password := lib.getUrlArg(addition, "password");
      if password == "" {
        return;
      }
      if ':' !in anytls {
        return;
      }
      var m := HostDigitsPort(anytls);
      if m.None? {
        return;
      }
      add, port := m.value.0, m.value.1;
    }
    assert StdAddress(lib, anytls, addition, "password") == Some((password, add, port));
    var sni := lib.getUrlArg(addition, "peer");
    var alpn := lib.getUrlArg(addition, "alpn");
    var fingerprint := lib.urlDecode(lib.getUrlArg(addition, "hpkp"));
    var tfo := lib.tribool(lib.getUrlArg(addition, "tfo"));
    var scv := lib.tribool(lib.getUrlArg(addition, "insecure"));
    if remarks == "" {
      remarks := HostPort(add, port);
    }
    var f := AnyTlsFields(remarks, add, port, password, sni, alpn, fingerprint, tfo, scv);
    assert AnyTlsStdLink(lib, link) == Some(f);
    AnyTlsConstruct(lib, node, "AnyTLS", remarks, add, port, password, sni, alpn, fingerprint, "", "", "", tfo,
                    scv, "");
  }

  /** explodeAnyTLS (subparser.cpp:2189-2198): "/?" becomes "?", then an anytls link with a ':' goes to explodeStdAnyTLS. */
  function AnyTlsLink(lib: Lib, link: string): (r: Option<AnyTlsFields>)
    ensures r.Some? ==> r == AnyTlsStdLink(lib, ReplaceAll(lib.regReplace(link, "(anytls)://", "anytls://"), "/?", "?"))
  {
    var s := ReplaceAll(lib.regReplace(link, "(anytls)://", "anytls://"), "/?", "?");
    if StartsWith(s, "anytls://") && ':' in Drop(s, 9) then AnyTlsStdLink(lib, s) else None
  }

  method ExplodeAnyTls(lib: Lib, link: string, node: Proxy)
    modifies node`Type, node`Group, node`Remark, node`Hostname, node`UnderlyingProxy, node`Port, node`UDP,
             node`TCPFastOpen, node`AllowInsecure, node`TLS13, node`Password, node`SNI, node`Alpn,
             node`Fingerprint, node`IdleSessionCheckInterval, node`IdleSessionTimeout, node`MinIdleSession
    ensures AnyTlsLink(lib, link).None? ==> unchanged(node)
    ensures AnyTlsLink(lib, link).Some? ==> AnyTlsNode(lib, node, AnyTlsLink(lib, link).value)
  {
    var anytls := lib.regReplace(link, "(anytls)://", "anytls://");
    anytls := ReplaceAll(anytls, "/?", "?");
    if StartsWith(anytls, "anytls://") && ':' in Drop(anytls, 9) {
      ExplodeStdAnyTls(lib, anytls, node);
    }
  }

  /** An anytls link built as password@host:port?query#name decodes back to its parts. */
  lemma AnyTlsRoundTrip(lib: Lib, password: string, host: string, port: string, query: string, name: string)
    requires '@' !in password && port != "" && AllDigits(port) && '?' !in query && '#' !in name
    ensures var r := AnyTlsStdLink(lib, "anytls://" + (password + "@" + host + ":" + port) + "?" + query + "#" + name);
            r.Some? && r.value.password == password && r.value.server == host && r.value.port == port
            && r.value.remarks == RemarkOr(lib.urlDecode(name), host, port) && r.value.sni == lib.getUrlArg(query, "peer")
  {
    StdCutOf(lib, "anytls://", password + "@" + host + ":" + port, query, name);
    StdAddressOf(lib, password, host, port, query, "password");
  }
}
