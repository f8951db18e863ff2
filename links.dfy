// The single-link decoders of src/parser/subparser.cpp (lines 513-2396): each one
// cuts a share link into its fragment, query and user/host/port parts and hands the
// pieces to a constructor.  Every decoder is a method that performs the source's
// steps on local strings and fills the record it is handed; a pure function
// (`...Link`) states what the link decodes to, and the lemmas beside it state the
// rules the decoders share: a port of "0" yields no record, an empty remark becomes
// "server:port", a missing group becomes the protocol's default group.
//
// Regular expressions whose groups are only `.*` or `.*?` around single separator
// characters are written out as cuts at the first or last separator.  The others
// (character classes, anchored digit groups, the standard VMess matcher) go through
// the abstract `regGetMatch` of the helper library.

module Links {
  import opened Utils
  import opened Text
  import opened Proxies
  import opened Constructors

  /** s.erase(0, n): the text from position n on (nothing when the text is shorter). */
  function Drop(s: string, n: nat): (r: string)
    ensures n <= |s| ==> s == s[..n] + r
    ensures |s| < n ==> r == []
  {
    if n <= |s| then s[n..] else []
  }

  /** The text before the first `c` and the text after it; None when `c` does not occur. */
  function SplitFirst(s: string, c: char): (r: Option<(string, string)>)
    ensures r.None? <==> c !in s
    ensures r.Some? ==> c !in r.value.0
  {
    var i := IndexOf(s, c);
    if i < 0 then None else Some((s[..i], s[i + 1..]))
  }

  /** The two parts of a first-occurrence cut, joined by the separator, give the text back. */
  lemma SplitFirstJoins(s: string, c: char)
    ensures SplitFirst(s, c).Some? ==> s == SplitFirst(s, c).value.0 + [c] + SplitFirst(s, c).value.1
  {
    var i := IndexOf(s, c);
    if i >= 0 {
      assert s == s[..i] + [c] + s[i + 1..];
    }
  }

  /** The text before the last `c` and the text after it; None when `c` does not occur. */
  function SplitLast(s: string, c: char): (r: Option<(string, string)>)
    ensures r.None? <==> c !in s
    ensures r.Some? ==> c !in r.value.1
  {
    var i := LastIndexOf(s, c);
    if i < 0 then
      assert forall j :: 0 <= j < |s| ==> s[j] != c;
      None
    else Some((s[..i], s[i + 1..]))
  }

  /** Cutting `a + [c] + b` at its first `c` gives back `a` and `b` when `a` holds no `c`. */
  lemma SplitFirstOf(a: string, c: char, b: string)
    requires c !in a
    ensures SplitFirst(a + [c] + b, c) == Some((a, b))
  {
    var s := a + [c] + b;
    assert s[|a|] == c;
    assert s[..|a|] == a;
    assert s[|a| + 1..] == b;
  }

  /** Cutting `a + [c] + b` at its last `c` gives back `a` and `b` when `b` holds no `c`. */
  lemma SplitLastOf(a: string, c: char, b: string)
    requires c !in b
    ensures SplitLast(a + [c] + b, c) == Some((a, b))
  {
    var s := a + [c] + b;
    assert s[|a|] == c;
    assert s[..|a|] == a;
    assert s[|a| + 1..] == b;
    assert forall j :: |a| < j < |s| ==> s[j] == b[j - |a| - 1];
  }

  /**
   * The pattern `(.*?)@(.*):(.*)`: the text up to the first '@', then the rest cut
   * at its last ':'.
   */
  function UserAtHostPort(s: string): (r: Option<(string, string, string)>)
    ensures r.Some? ==> '@' !in r.value.0 && ':' !in r.value.2
  {
    match SplitFirst(s, '@')
    case None => None
    case Some((user, rest)) =>
      match SplitLast(rest, ':')
      case None => None
      case Some((host, port)) => Some((user, host, port))
  }

  /** The split above undoes the joining of its three parts. */
  lemma UserAtHostPortOf(user: string, host: string, port: string)
    requires '@' !in user && ':' !in port
    ensures UserAtHostPort(user + "@" + host + ":" + port) == Some((user, host, port))
  {
    var rest := host + ":" + port;
    SplitFirstOf(user, '@', rest);
    assert user + "@" + host + ":" + port == user + ['@'] + rest;
    SplitLastOf(host, ':', port);
  }

  /** The capture groups of `pattern` in `s`, when it matches with exactly `n` groups. */
  function Captures(lib: Lib, s: string, pattern: string, n: nat): (r: Option<seq<string>>)
    ensures r.Some? ==> |r.value| == n
  {
    var m := lib.regGetMatch(s, pattern);
    if m.Some? && |m.value| == n then m else None
  }

  /** The default remark of every decoder: "server:port". */
  function HostPort(server: string, port: string): string
  {
    server + ":" + port
  }

  /** The remark a decoder keeps: the given one, or "server:port" when it is empty. */
  function RemarkOr(remark: string, server: string, port: string): (r: string)
    ensures r != ""
    ensures remark != "" ==> r == remark
    ensures remark == "" ==> r == HostPort(server, port)
  {
    if remark == "" then HostPort(server, port) else remark
  }

  /** The group a decoder keeps: the given one, or the protocol's default group when it is empty. */
  function GroupOr(group: string, default: string): (r: string)
    ensures group != "" ==> r == group
    ensures group == "" ==> r == default
  {
    if group == "" then default else group
  }

  /** The Shadowsocks ciphers; an SSR link using one of them with no obfs and no protocol is plain Shadowsocks. */
  const SsCiphers: seq<string> := [
    "rc4-md5", "aes-128-gcm", "aes-192-gcm", "aes-256-gcm", "aes-128-cfb", "aes-192-cfb", "aes-256-cfb",
    "aes-128-ctr", "aes-192-ctr", "aes-256-ctr", "camellia-128-cfb", "camellia-192-cfb", "camellia-256-cfb",
    "bf-cfb", "chacha20-ietf-poly1305", "xchacha20-ietf-poly1305", "salsa20", "chacha20", "chacha20-ietf",
    "2022-blake3-aes-128-gcm", "2022-blake3-aes-256-gcm", "2022-blake3-chacha20-poly1305",
    "2022-blake3-chacha12-poly1305", "2022-blake3-chacha8-poly1305"]

  // ---------------------------------------------------------------- ss://

  const SsUserInfoPattern := "(\\S+?)@(\\S+):(\\d+)"
  const SsSecretPattern := "(\\S+?):(\\S+)"
  const SsLegacyPattern := "(\\S+?):(\\S+)@(\\S+):(\\d+)"

  /** What a Shadowsocks record is built from. */
  datatype SsFields = SsFields(group: string, remarks: string, server: string, port: string,
                               password: string, cipher: string, plugin: string, pluginOpts: string)

  /** The fields ssConstruct writes, as explodeSS and the SS branches of the other decoders call it. */
  predicate SsNode(lib: Lib, node: Proxy, f: SsFields)
    reads node
  {
    CommonFields(lib, node, Shadowsocks, f.group, f.remarks, f.server, f.port,
                 Indeterminate, Indeterminate, Indeterminate, Indeterminate, "")
    && node.Password == f.password && node.EncryptMethod == f.cipher
    && node.Plugin == f.plugin && node.PluginOption == f.pluginOpts
  }

  /**
   * The plugin argument cut at its first ';' into plugin and options.  With no ';'
   * the source's `substr(npos + 1)` starts at 0, so the options are the whole
   * argument too.
   */
  function PluginParts(plugins: string): (r: (string, string))
    ensures ';' !in plugins ==> r == (plugins, plugins)
    ensures ';' in plugins ==> plugins == r.0 + ";" + r.1 && ';' !in r.0
  {
    SplitFirstJoins(plugins, ';');
    match SplitFirst(plugins, ';')
    case None => (plugins, plugins)
    case Some(parts) => parts
  }

  /** Cipher, password, server and port of the part of an ss:// link before its query. */
  function SsCredentials(lib: Lib, ss: string): (r: Option<(string, string, string, string)>)
  {
    if '@' in ss then
      match Captures(lib, ss, SsUserInfoPattern, 3)
      case None => None
      case Some(c) =>
        match Captures(lib, lib.urlSafeBase64Decode(c[0]), SsSecretPattern, 2)
        case None => None
        case Some(d) => Some((d[0], d[1], c[1], c[2]))
    else
      match Captures(lib, lib.urlSafeBase64Decode(ss), SsLegacyPattern, 4)
      case None => None
      case Some(c) => Some((c[0], c[1], c[2], c[3]))
  }

  /** The query part of an ss:// link: plugin, plugin options and group. */
  function SsQuery(lib: Lib, addition: string): (r: (string, string, string))
  {
    var parts := PluginParts(lib.urlDecode(lib.getUrlArg(addition, "plugin")));
    var group := lib.getUrlArg(addition, "group");
    (parts.0, parts.1, if group != "" then lib.urlSafeBase64Decode(group) else group)
  }

  /**
   * explodeSS (subparser.cpp:731-773): "/?" becomes "?", the text after the first
   * '#' is the remark, the text after the first '?' the query, and the rest is
   * either base64(cipher:password)@server:port or base64 of the whole of it.
   */
  function SsLink(lib: Lib, link: string): (r: Option<SsFields>)
    ensures r.Some? ==> r.value.port != "0" && r.value.remarks != ""
  {
    var ss0 := ReplaceAll(Drop(link, 5), "/?", "?");
    var frag := SplitFirst(ss0, '#');
    var ps := if frag.Some? then lib.urlDecode(frag.value.1) else "";
    var ss1 := if frag.Some? then frag.value.0 else ss0;
    var query := SplitFirst(ss1, '?');
    var q := if query.Some? then SsQuery(lib, query.value.1) else ("", "", SsDefaultGroup);
    var ss2 := if query.Some? then query.value.0 else ss1;
    match SsCredentials(lib, ss2)
    case None => None
    case Some((cipher, password, server, port)) =>
      if port == "0" then None
      else Some(SsFields(q.2, RemarkOr(ps, server, port), server, port, password, cipher, q.0, q.1))
  }

  /** explodeSS on the record it is handed. */
  method ExplodeSS(lib: Lib, link: string, node: Proxy)
    modifies node`Type, node`Group, node`Remark, node`Hostname, node`UnderlyingProxy, node`Port, node`UDP,
             node`TCPFastOpen, node`AllowInsecure, node`TLS13, node`Password, node`EncryptMethod,
             node`Plugin, node`PluginOption
    ensures SsLink(lib, link).None? ==> unchanged(node)
    ensures SsLink(lib, link).Some? ==> SsNode(lib, node, SsLink(lib, link).value)
  {
    var ps, plugin, pluginOpts, group := "", "", "", SsDefaultGroup;
    var ss := ReplaceAll(Drop(link, 5), "/?", "?");
    var frag := SplitFirst(ss, '#');
    if frag.Some? {
      ps := lib.urlDecode(frag.value.1);
      ss := frag.value.0;
    }
    var query := SplitFirst(ss, '?');
    if query.Some? {
      var addition := query.value.1;
      var plugins := lib.urlDecode(lib.getUrlArg(addition, "plugin"));
      plugin, pluginOpts := PluginParts(plugins).0, PluginParts(plugins).1;
      group := lib.getUrlArg(addition, "group");
      if group != "" {
        group := lib.urlSafeBase64Decode(group);
      }
      ss := query.value.0;
    }
    var credentials := SsCredentials(lib, ss);
    if credentials.None? {
      return;
    }
    var cipher, password, server, port := credentials.value.0, credentials.value.1, credentials.value.2,
                                          credentials.value.3;
    if port == "0" {
      return;
    }
    if ps == "" {
      ps := HostPort(server, port);
    }
    SsConstruct(lib, node, group, ps, server, port, password, cipher, plugin, pluginOpts,
                Indeterminate, Indeterminate, Indeterminate, Indeterminate, "");
  }

  /** A link with no fragment gets the remark "server:port". */
  lemma SsDefaultRemark(lib: Lib, link: string)
    requires '#' !in link && SsLink(lib, link).Some?
    ensures SsLink(lib, link).value.remarks == HostPort(SsLink(lib, link).value.server, SsLink(lib, link).value.port)
  {
    ReplaceAllKeepsAbsent(Drop(link, 5), "/?", "?", '#');
  }

  /** A link with no query keeps the default group and has no plugin. */
  lemma SsDefaultGroupKept(lib: Lib, link: string)
    requires '?' !in link && SsLink(lib, link).Some?
    ensures SsLink(lib, link).value.group == SsDefaultGroup
    ensures SsLink(lib, link).value.plugin == "" && SsLink(lib, link).value.pluginOpts == ""
  {
    ReplaceAllAbsent(Drop(link, 5), "/?", "?", '?');
  }

  /**
   * A query without a group argument leaves the group empty: the source assigns
   * the (empty) argument over the default.
   */
  lemma SsQueryWithoutGroup(lib: Lib, link: string)
    requires SsLink(lib, link).Some?
    requires var ss := ReplaceAll(Drop(link, 5), "/?", "?");
             '#' !in ss && '?' in ss && lib.getUrlArg(ss[IndexOf(ss, '?') + 1..], "group") == ""
    ensures SsLink(lib, link).value.group == ""
  {
  }

  // ---------------------------------------------------------------- ssr://

  const SsrPattern := "(\\S+):(\\d+?):(\\S+?):(\\S+?):(\\S+?):(\\S+)"

  /** What a ShadowsocksR record is built from. */
  datatype SsrFields = SsrFields(group: string, remarks: string, server: string, port: string,
                                 protocol: string, cipher: string, obfs: string, password: string,
                                 obfsParam: string, protoParam: string)

  /** The fields ssrConstruct writes, as the decoders call it. */
  predicate SsrNode(lib: Lib, node: Proxy, f: SsrFields)
    reads node
  {
    CommonFields(lib, node, ShadowsocksR, f.group, f.remarks, f.server, f.port,
                 Indeterminate, Indeterminate, Indeterminate, Indeterminate, "")
    && node.Password == f.password && node.EncryptMethod == f.cipher && node.Protocol == f.protocol
    && node.ProtocolParam == f.protoParam && node.OBFS == f.obfs && node.OBFSParam == f.obfsParam
  }

  /** An SSR configuration that is plain Shadowsocks: a Shadowsocks cipher, no obfs and no protocol. */
  predicate IsPlainSs(cipher: string, obfs: string, protocol: string)
  {
    cipher in SsCiphers && (obfs == "" || obfs == "plain") && (protocol == "" || protocol == "origin")
  }

  /** The Shadowsocks record an SSR link collapses to: no plugin. */
  function SsrAsSs(f: SsrFields): (r: SsFields)
    ensures r.plugin == "" && r.pluginOpts == ""
    ensures r.server == f.server && r.port == f.port && r.password == f.password && r.cipher == f.cipher
  {
    SsFields(f.group, f.remarks, f.server, f.port, f.password, f.cipher, "", "")
  }

  /** The base64-decoded body of an ssr:// link, carriage returns removed first. */
  function SsrBody(lib: Lib, link: string): string
  {
    lib.urlSafeBase64Decode(ReplaceAll(Drop(link, 6), "\r", ""))
  }

  /** The parameters after "/?" in an SSR body: group, remarks, obfs parameter, protocol parameter. */
  function SsrParams(lib: Lib, strobfs: string): (string, string, string, string)
  {
    (lib.urlSafeBase64Decode(lib.getUrlArg(strobfs, "group")),
     lib.urlSafeBase64Decode(lib.getUrlArg(strobfs, "remarks")),
     lib.regReplace(lib.urlSafeBase64Decode(lib.getUrlArg(strobfs, "obfsparam")), "\\s", ""),
     lib.regReplace(lib.urlSafeBase64Decode(lib.getUrlArg(strobfs, "protoparam")), "\\s", ""))
  }

  /**
   * explodeSSR (subparser.cpp:925-960): the body is
   * server:port:protocol:method:obfs:base64(password), optionally followed by
   * "/?" and base64-encoded parameters.
   */
  function SsrLink(lib: Lib, link: string): (r: Option<SsrFields>)
    ensures r.Some? ==> r.value.port != "0" && r.value.remarks != "" && r.value.group != ""
  {
    var ssr := SsrBody(lib, link);
    var cut := Find(ssr, "/?");
    var params := if cut >= 0 then SsrParams(lib, ssr[cut + 2..]) else ("", "", "", "");
    var main := if cut >= 0 then ssr[..cut] else ssr;
    match Captures(lib, main, SsrPattern, 6)
    case None => None
    case Some(c) =>
      if c[1] == "0" then None
      else
        Some(SsrFields(GroupOr(params.0, SsrDefaultGroup), RemarkOr(params.1, c[0], c[1]), c[0], c[1],
                       c[2], c[3], c[4], lib.urlSafeBase64Decode(c[5]), params.2, params.3))
  }

  /**
   * explodeSSR on the record it is handed: a Shadowsocks record exactly when the
   * configuration is plain Shadowsocks, a ShadowsocksR record otherwise.
   */
  method ExplodeSSR(lib: Lib, link: string, node: Proxy)
    modifies node`Type, node`Group, node`Remark, node`Hostname, node`UnderlyingProxy, node`Port, node`UDP,
             node`TCPFastOpen, node`AllowInsecure, node`TLS13, node`Password, node`EncryptMethod,
             node`Plugin, node`PluginOption, node`Protocol, node`ProtocolParam, node`OBFS, node`OBFSParam
    ensures SsrLink(lib, link).None? ==> unchanged(node)
    ensures SsrLink(lib, link).Some? ==>
              var f := SsrLink(lib, link).value;
              (node.Type == Shadowsocks <==> IsPlainSs(f.cipher, f.obfs, f.protocol))
              && (IsPlainSs(f.cipher, f.obfs, f.protocol) ==> SsNode(lib, node, SsrAsSs(f)))
              && (!IsPlainSs(f.cipher, f.obfs, f.protocol) ==> SsrNode(lib, node, f))
  {
    var group, remarks, obfsParam, protoParam := "", "", "", "";
    var ssr := SsrBody(lib, link);
    var cut := Find(ssr, "/?");
    if cut >= 0 {
      var strobfs := ssr[cut + 2..];
      ssr := ssr[..cut];
      group, remarks, obfsParam, protoParam := SsrParams(lib, strobfs).0, SsrParams(lib, strobfs).1,
                                               SsrParams(lib, strobfs).2, SsrParams(lib, strobfs).3;
    }
    var m := Captures(lib, ssr, SsrPattern, 6);
    if m.None? {
      return;
    }
    var server, port, protocol, cipher, obfs, password := m.value[0], m.value[1], m.value[2], m.value[3],
                                                          m.value[4], m.value[5];
    password := lib.urlSafeBase64Decode(password);
    if port == "0" {
      return;
    }
    if group == "" {
      group := SsrDefaultGroup;
    }
    if remarks == "" {
      remarks := HostPort(server, port);
    }
    if IsPlainSs(cipher, obfs, protocol) {
      SsConstruct(lib, node, group, remarks, server, port, password, cipher, "", "",
                  Indeterminate, Indeterminate, Indeterminate, Indeterminate, "");
    } else {
      SsrConstruct(lib, node, group, remarks, server, port, protocol, cipher, obfs, password, obfsParam,
                   protoParam, Indeterminate, Indeterminate, Indeterminate, "");
    }
  }

  /** A body without "/?" keeps the default group, the "server:port" remark and empty parameters. */
  lemma SsrDefaults(lib: Lib, link: string)
    requires !Contains(SsrBody(lib, link), "/?") && SsrLink(lib, link).Some?
    ensures var f := SsrLink(lib, link).value;
      f.group == SsrDefaultGroup && f.remarks == HostPort(f.server, f.port)
      && f.obfsParam == "" && f.protoParam == ""
  {
  }

  // ---------------------------------------------------------------- socks://, tg://socks

  /** What a SOCKS5 record is built from. */
  datatype SocksFields = SocksFields(group: string, remarks: string, server: string, port: string,
                                     username: string, password: string)

  /** The fields socksConstruct writes, as explodeSocks calls it. */
  predicate SocksNode(lib: Lib, node: Proxy, f: SocksFields)
    reads node
  {
    CommonFields(lib, node, SOCKS5, f.group, f.remarks, f.server, f.port,
                 Indeterminate, Indeterminate, Indeterminate, Indeterminate, "")
    && node.Username == f.username && node.Password == f.password
  }

  /**
   * The host part and credentials of a decoded v2rayN socks body: with an '@',
   * the text after it is the host part and the text before it is split at ':'
   * into user and password (None when either split has fewer than two pieces).
   */
  function SocksUserInfo(lib: Lib, body: string): (r: Option<(string, string, string)>)
    ensures '@' !in body ==> r == Some((body, "", ""))
  {
    if '@' in body then
      var userinfo := lib.split(body, "@");
      if |userinfo| < 2 then None
      else
        var credentials := lib.split(userinfo[0], ":");
        if |credentials| < 2 then None else Some((userinfo[1], credentials[0], credentials[1]))
    else Some((body, "", ""))
  }

  /** The raw fields of a socks link before the defaults (group and remark may be empty). */
  function SocksParts(lib: Lib, link: string): (r: Option<SocksFields>)
  {
    if Contains(link, "socks://") then
      var frag := SplitFirst(link, '#');
      var remarks := if frag.Some? then lib.urlDecode(frag.value.1) else "";
      var body := lib.urlSafeBase64Decode(Drop(if frag.Some? then frag.value.0 else link, 8));
      match SocksUserInfo(lib, body)
      case None => None
      case Some((hostPart, username, password)) =>
        var arguments := lib.split(hostPart, ":");
        if |arguments| < 2 then None
        else Some(SocksFields("", remarks, arguments[0], arguments[1], username, password))
    else if Contains(link, "https://t.me/socks") || Contains(link, "tg://socks") then
      Some(SocksFields(lib.urlDecode(lib.getUrlArg(link, "group")), lib.urlDecode(lib.getUrlArg(link, "remarks")),
                       lib.getUrlArg(link, "server"), lib.getUrlArg(link, "port"),
                       lib.urlDecode(lib.getUrlArg(link, "user")), lib.urlDecode(lib.getUrlArg(link, "pass"))))
    else Some(SocksFields("", "", "", "", "", ""))
  }

  /** explodeSocks (subparser.cpp:1026-1073): the v2rayN form and the Telegram form. */
  function SocksLink(lib: Lib, link: string): (r: Option<SocksFields>)
    ensures r.Some? ==> r.value.port != "0" && r.value.remarks != "" && r.value.group != ""
    ensures r.Some? <==> SocksParts(lib, link).Some? && SocksParts(lib, link).value.port != "0"
  {
    match SocksParts(lib, link)
    case None => None
    case Some(p) =>
      if p.port == "0" then None
      else Some(p.(group := GroupOr(p.group, SocksDefaultGroup), remarks := RemarkOr(p.remarks, p.server, p.port)))
  }

  /** explodeSocks on the record it is handed. */
  method ExplodeSocks(lib: Lib, link: string, node: Proxy)
    modifies node`Type, node`Group, node`Remark, node`Hostname, node`UnderlyingProxy, node`Port, node`UDP,
             node`TCPFastOpen, node`AllowInsecure, node`TLS13, node`Username, node`Password
    ensures SocksLink(lib, link).None? ==> unchanged(node)
    ensures SocksLink(lib, link).Some? ==> SocksNode(lib, node, SocksLink(lib, link).value)
  {
    var group, remarks, server, port, username, password := "", "", "", "", "", "";
    var l := link;
    if Contains(l, "socks://") {
      var frag := SplitFirst(l, '#');
      if frag.Some? {
        remarks := lib.urlDecode(frag.value.1);
        l := frag.value.0;
      }
      l := lib.urlSafeBase64Decode(Drop(l, 8));
      if '@' in l {
        var userinfo := lib.split(l, "@");
        if |userinfo| < 2 {
          return;
        }
        l := userinfo[1];
        userinfo := lib.split(userinfo[0], ":");
        if |userinfo| < 2 {
          return;
        }
        username, password := userinfo[0], userinfo[1];
      }
      var arguments := lib.split(l, ":");
      if |arguments| < 2 {
        return;
      }
      server, port := arguments[0], arguments[1];
    } else if Contains(l, "https://t.me/socks") || Contains(l, "tg://socks") {
      server := lib.getUrlArg(l, "server");
      port := lib.getUrlArg(l, "port");
      username := lib.urlDecode(lib.getUrlArg(l, "user"));
      password := lib.urlDecode(lib.getUrlArg(l, "pass"));
      remarks := lib.urlDecode(lib.getUrlArg(l, "remarks"));
      group := lib.urlDecode(lib.getUrlArg(l, "group"));
    }
    if group == "" {
      group := SocksDefaultGroup;
    }
    if remarks == "" {
      remarks := HostPort(server, port);
    }
    if port == "0" {
      return;
    }
    SocksConstruct(lib, node, group, remarks, server, port, username, password,
                   Indeterminate, Indeterminate, Indeterminate, "");
  }

  /** The v2rayN form never carries a group: it always gets the default one. */
  lemma SocksV2rayNGroup(lib: Lib, link: string)
    requires Contains(link, "socks://") && SocksLink(lib, link).Some?
    ensures SocksLink(lib, link).value.group == SocksDefaultGroup
  {
  }

  // ---------------------------------------------------------------- tg://http

  /** What an HTTP or HTTPS record is built from. */
  datatype HttpFields = HttpFields(group: string, remarks: string, server: string, port: string,
                                   username: string, password: string, tls: bool)

  /** The fields httpConstruct writes, as the decoders call it. */
  predicate HttpNode(lib: Lib, node: Proxy, f: HttpFields)
    reads node
  {
    CommonFields(lib, node, if f.tls then HTTPS else HTTP, f.group, f.remarks, f.server, f.port,
                 Indeterminate, Indeterminate, Indeterminate, Indeterminate, "")
    && node.Username == f.username && node.Password == f.password && node.TLSSecure == f.tls
  }

  /** explodeHTTP (subparser.cpp:1075-1093): every field is a query argument; "/https" selects HTTPS. */
  function HttpLink(lib: Lib, link: string): (r: Option<HttpFields>)
    ensures r.Some? ==> r.value.port != "0" && r.value.remarks != "" && r.value.group != ""
    ensures r.Some? <==> lib.getUrlArg(link, "port") != "0"
    ensures r.Some? ==> (r.value.tls <==> Contains(link, "/https"))
  {
    var server, port := lib.getUrlArg(link, "server"), lib.getUrlArg(link, "port");
    if port == "0" then None
    else
      Some(HttpFields(GroupOr(lib.urlDecode(lib.getUrlArg(link, "group")), HttpDefaultGroup),
                      RemarkOr(lib.urlDecode(lib.getUrlArg(link, "remarks")), server, port), server, port,
                      lib.urlDecode(lib.getUrlArg(link, "user")), lib.urlDecode(lib.getUrlArg(link, "pass")),
                      Contains(link, "/https")))
  }

  /** explodeHTTP on the record it is handed. */
  method ExplodeHTTP(lib: Lib, link: string, node: Proxy)
    modifies node`Type, node`Group, node`Remark, node`Hostname, node`UnderlyingProxy, node`Port, node`UDP,
             node`TCPFastOpen, node`AllowInsecure, node`TLS13, node`Username, node`Password, node`TLSSecure
    ensures HttpLink(lib, link).None? ==> unchanged(node)
    ensures HttpLink(lib, link).Some? ==> HttpNode(lib, node, HttpLink(lib, link).value)
  {
    var server := lib.getUrlArg(link, "server");
    var port := lib.getUrlArg(link, "port");
    var username := lib.urlDecode(lib.getUrlArg(link, "user"));
    var password := lib.urlDecode(lib.getUrlArg(link, "pass"));
    var remarks := lib.urlDecode(lib.getUrlArg(link, "remarks"));
    var group := lib.urlDecode(lib.getUrlArg(link, "group"));
    if group == "" {
      group := HttpDefaultGroup;
    }
    if remarks == "" {
      remarks := HostPort(server, port);
    }
    if port == "0" {
      return;
    }
    HttpConstruct(lib, node, group, remarks, server, port, username, password, Contains(link, "/https"),
                  Indeterminate, Indeterminate, Indeterminate, "");
  }

  // ---------------------------------------------------------------- http(s):// subscriptions

  /**
   * The pattern `(.*?):(.*?)@(.*):(.*)`: user up to the first ':', password up to
   * the next '@', then the rest cut at its last ':'.
   */
  function UserPassHostPort(s: string): (r: Option<(string, string, string, string)>)
    ensures r.Some? ==> ':' !in r.value.0 && '@' !in r.value.1 && ':' !in r.value.3
  {
    match SplitFirst(s, ':')
    case None => None
    case Some((user, rest)) =>
      match SplitFirst(rest, '@')
      case None => None
      case Some((password, hostPort)) =>
        match SplitLast(hostPort, ':')
        case None => None
        case Some((host, port)) => Some((user, password, host, port))
  }

  /** The split above undoes the joining of its four parts. */
  lemma UserPassHostPortOf(user: string, password: string, host: string, port: string)
    requires ':' !in user && '@' !in password && ':' !in port
    ensures UserPassHostPort(user + ":" + password + "@" + host + ":" + port) == Some((user, password, host, port))
  {
    var hostPort := host + ":" + port;
    var rest := password + "@" + hostPort;
    SplitFirstOf(user, ':', rest);
    assert user + ":" + password + "@" + host + ":" + port == user + [':'] + rest;
    SplitFirstOf(password, '@', hostPort);
    assert rest == password + ['@'] + hostPort;
    SplitLastOf(host, ':', port);
  }

  /** The text after the scheme: after "://", or (the source adding 3 to npos) after the first two characters. */
  function AfterScheme(s: string): (r: string)
    ensures Find(s, "://") >= 0 ==> r == s[Find(s, "://") + 3..]
    ensures Find(s, "://") < 0 ==> r == Drop(s, 2)
  {
    var pos := Find(s, "://");
    if pos >= 0 then s[pos + 3..] else Drop(s, 2)
  }

  /** Username, password, server and port of a decoded http(s) subscription body. */
  function HttpSubCredentials(body: string): (r: Option<(string, string, string, string)>)
  {
    if '@' in body then UserPassHostPort(body)
    else
      match SplitLast(body, ':')
      case None => None
      case Some((server, port)) => Some(("", "", server, port))
  }

  /**
   * explodeHTTPSub (subparser.cpp:1095-1129): http(s)://base64(user:pass@server:port)
   * with remarks and group in the query; HTTPS exactly when the link contains "https://".
   */
  function HttpSubLink(lib: Lib, link: string): (r: Option<HttpFields>)
    ensures r.Some? ==> r.value.port != "0" && r.value.remarks != "" && r.value.group != ""
    ensures r.Some? ==> (r.value.tls <==> Contains(link, "https://"))
  {
    var query := SplitFirst(link, '?');
    var addition := if query.Some? then query.value.1 else "";
    var remarks := if query.Some? then lib.urlDecode(lib.getUrlArg(addition, "remarks")) else "";
    var group := if query.Some? then lib.urlDecode(lib.getUrlArg(addition, "group")) else "";
    var body := lib.urlSafeBase64Decode(AfterScheme(if query.Some? then query.value.0 else link));
    match HttpSubCredentials(body)
    case None => None
    case Some((username, password, server, port)) =>
      if port == "0" then None
      else Some(HttpFields(GroupOr(group, HttpDefaultGroup), RemarkOr(remarks, server, port), server, port,
                           username, password, Contains(link, "https://")))
  }

  /** explodeHTTPSub on the record it is handed. */
  method ExplodeHTTPSub(lib: Lib, link: string, node: Proxy)
    modifies node`Type, node`Group, node`Remark, node`Hostname, node`UnderlyingProxy, node`Port, node`UDP,
             node`TCPFastOpen, node`AllowInsecure, node`TLS13, node`Username, node`Password, node`TLSSecure
    ensures HttpSubLink(lib, link).None? ==> unchanged(node)
    ensures HttpSubLink(lib, link).Some? ==> HttpNode(lib, node, HttpSubLink(lib, link).value)
  {
    var group, remarks := "", "";
    var tls := Contains(link, "https://");
    var l := link;
    var query := SplitFirst(l, '?');
    if query.Some? {
      var addition := query.value.1;
      l := query.value.0;
      remarks := lib.urlDecode(lib.getUrlArg(addition, "remarks"));
      group := lib.urlDecode(lib.getUrlArg(addition, "group"));
    }
    l := AfterScheme(l);
    l := lib.urlSafeBase64Decode(l);
    var username, password, server, port := "", "", "", "";
    if '@' in l {
      var m := UserPassHostPort(l);
      if m.None? {
        return;
      }
      username, password, server, port := m.value.0, m.value.1, m.value.2, m.value.3;
    } else {
      var m := SplitLast(l, ':');
      if m.None? {
        return;
      }
      server, port := m.value.0, m.value.1;
    }
    if group == "" {
      group := HttpDefaultGroup;
    }
    if remarks == "" {
      remarks := HostPort(server, port);
    }
    if port == "0" {
      return;
    }
    HttpConstruct(lib, node, group, remarks, server, port, username, password, tls,
                  Indeterminate, Indeterminate, Indeterminate, "");
  }

  // ---------------------------------------------------------------- trojan://

  /** What a Trojan record is built from, with the extra TLS arguments written after trojanConstruct. */
  datatype TrojanFields = TrojanFields(group: string, remark: string, server: string, port: string,
                                       password: string, network: string, host: string, path: string,
                                       tfo: Tribool, scv: Tribool, fp: string, fingerprint: string,
                                       alpn: string, flow: string)

  /** The fields trojanConstruct writes, as explodeTrojan calls it. */
  predicate TrojanNode(lib: Lib, node: Proxy, f: TrojanFields)
    reads node`Type, node`Group, node`Remark, node`Hostname, node`UnderlyingProxy, node`Port, node`UDP,
          node`TCPFastOpen, node`AllowInsecure, node`TLS13, node`Password, node`Host, node`TLSSecure,
          node`Path, node`Network, node`TransferProtocol
  {
    CommonFields(lib, node, Trojan, f.group, f.remark, f.server, f.port, Indeterminate, f.tfo, f.scv,
                 Indeterminate, "")
    && node.Password == f.password && node.Host == f.host && node.TLSSecure && node.Path == f.path
    && node.Network == (if f.network == "" then "tcp" else f.network) && node.TransferProtocol == node.Network
  }

  /**
   * The transport of a trojan link, as (network, path): "ws=1" with "wspath", the
   * v2rayN form "type=ws" with a path URL-decoded when it starts with "%2F", or
   * "type=grpc" with "serviceName" (falling back to "path"); otherwise none.
   */
  function TrojanTransportArgs(lib: Lib, addition: string): (r: (string, string))
    ensures r.0 == "" || r.0 == "ws" || r.0 == "grpc"
    ensures r.0 == "" ==> r.1 == ""
  {
    if lib.getUrlArg(addition, "ws") == "1" then ("ws", lib.getUrlArg(addition, "wspath"))
    else if lib.getUrlArg(addition, "type") == "ws" then
      var path := lib.getUrlArg(addition, "path");
      ("ws", if StartsWith(path, "%2F") then lib.urlDecode(path) else path)
    else if lib.getUrlArg(addition, "type") == "grpc" then
      var service := lib.getUrlArg(addition, "serviceName");
      ("grpc", if service == "" then lib.getUrlArg(addition, "path") else service)
    else ("", "")
  }

  /** The fields a trojan link's query gives, around the password, server, port and remark. */
  function TrojanQuery(lib: Lib, addition: string, password: string, server: string, port: string,
                       remark: string): (r: TrojanFields)
    ensures r.server == server && r.port == port && r.password == password && r.remark == remark
  {
    var sni := lib.getUrlArg(addition, "sni");
    var transport := TrojanTransportArgs(lib, addition);
    TrojanFields(GroupOr(lib.urlDecode(lib.getUrlArg(addition, "group")), TrojanDefaultGroup), remark,
                 server, port, password, transport.0, if sni == "" then lib.getUrlArg(addition, "peer") else sni,
                 transport.1, lib.tribool(lib.getUrlArg(addition, "tfo")),
                 lib.tribool(lib.getUrlArg(addition, "allowInsecure")), lib.getUrlArg(addition, "fp"),
                 lib.getUrlArg(addition, "fingerprint"), lib.getUrlArg(addition, "alpn"),
                 lib.getUrlArg(addition, "flow"))
  }

  /** The part of a trojan link after the scheme, cut at its last '#' and then at its first '?'. */
  function TrojanCut(lib: Lib, link: string): (r: (string, string, string))
  {
    var t := Drop(link, 9);
    var frag := SplitLast(t, '#');
    var remark := if frag.Some? then lib.urlDecode(frag.value.1) else "";
    var t1 := if frag.Some? then frag.value.0 else t;
    var query := SplitFirst(t1, '?');
    (if query.Some? then query.value.0 else t1, if query.Some? then query.value.1 else "", remark)
  }

  /**
   * explodeTrojan (subparser.cpp:1131-1209): trojan://password@server:port?query#remark;
   * TLS is always on.
   */
  function TrojanLink(lib: Lib, link: string): (r: Option<TrojanFields>)
    ensures r.Some? ==> r.value.port != "0" && r.value.remark != "" && r.value.group != ""
  {
    var cut := TrojanCut(lib, link);
    match UserAtHostPort(cut.0)
    case None => None
    case Some((password, server, port)) =>
      if port == "0" then None
      else Some(TrojanQuery(lib, cut.1, password, server, port, RemarkOr(cut.2, server, port)))
  }

  /** The extra TLS arguments of a trojan link, each written only when given (subparser.cpp:1191-1208). */
  method TrojanExtras(lib: Lib, node: Proxy, f: TrojanFields)
    modifies node`ClientFingerprint, node`Fingerprint, node`Alpn, node`Flow
    ensures node.ClientFingerprint == (if f.fp != "" then f.fp else old(node.ClientFingerprint))
    ensures node.Fingerprint == (if f.fingerprint != "" then f.fingerprint else old(node.Fingerprint))
    ensures node.Alpn == (if f.alpn != "" then lib.split(lib.urlDecode(f.alpn), ",") else old(node.Alpn))
    ensures node.Flow == (if f.flow != "" then f.flow else old(node.Flow))
  {
    if f.fp != "" {
      node.ClientFingerprint := f.fp;
    }
    if f.fingerprint != "" {
      node.Fingerprint := f.fingerprint;
    }
    if f.alpn != "" {
      node.Alpn := lib.split(lib.urlDecode(f.alpn), ",");
    }
    if f.flow != "" {
      node.Flow := f.flow;
    }
  }

  /** trojanConstruct followed by the extra TLS arguments (subparser.cpp:1189-1208). */
  method TrojanBuild(lib: Lib, node: Proxy, f: TrojanFields)
    modifies node`Type, node`Group, node`Remark, node`Hostname, node`UnderlyingProxy, node`Port, node`UDP,
             node`TCPFastOpen, node`AllowInsecure, node`TLS13, node`Password, node`Host, node`TLSSecure,
             node`TransferProtocol, node`Network, node`Path, node`GrpcServiceName, node`WsPath, node`WsHeaders,
             node`ClientFingerprint, node`Fingerprint, node`Alpn, node`Flow
    ensures TrojanNode(lib, node, f)
    ensures node.GrpcServiceName == (if f.network == "grpc" then f.path else old(node.GrpcServiceName))
    ensures node.WsPath == (if f.network == "ws" then f.path else old(node.WsPath))
    ensures node.WsHeaders == (if f.network == "ws" then f.host else old(node.WsHeaders))
    ensures node.ClientFingerprint == (if f.fp != "" then f.fp else old(node.ClientFingerprint))
    ensures node.Fingerprint == (if f.fingerprint != "" then f.fingerprint else old(node.Fingerprint))
    ensures node.Alpn == (if f.alpn != "" then lib.split(lib.urlDecode(f.alpn), ",") else old(node.Alpn))
    ensures node.Flow == (if f.flow != "" then f.flow else old(node.Flow))
  {
    TrojanConstruct(lib, node, f.group, f.remark, f.server, f.port, f.password, f.network, f.host, f.path, true,
                    Indeterminate, f.tfo, f.scv, Indeterminate, "");
    TrojanExtras(lib, node, f);
  }

  /** explodeTrojan on the record it is handed. */
  method ExplodeTrojan(lib: Lib, link: string, node: Proxy)
    modifies node`Type, node`Group, node`Remark, node`Hostname, node`UnderlyingProxy, node`Port, node`UDP,
             node`TCPFastOpen, node`AllowInsecure, node`TLS13, node`Password, node`Host, node`TLSSecure,
             node`TransferProtocol, node`Network, node`Path, node`GrpcServiceName, node`WsPath, node`WsHeaders,
             node`ClientFingerprint, node`Fingerprint, node`Alpn, node`Flow
    ensures TrojanLink(lib, link).None? ==> unchanged(node)
    ensures TrojanLink(lib, link).Some? ==>
              var f := TrojanLink(lib, link).value;
              TrojanNode(lib, node, f)
              && node.GrpcServiceName == (if f.network == "grpc" then f.path else old(node.GrpcServiceName))
              && node.WsPath == (if f.network == "ws" then f.path else old(node.WsPath))
              && node.WsHeaders == (if f.network == "ws" then f.host else old(node.WsHeaders))
              && node.ClientFingerprint == (if f.fp != "" then f.fp else old(node.ClientFingerprint))
              && node.Fingerprint == (if f.fingerprint != "" then f.fingerprint else old(node.Fingerprint))
              && node.Alpn == (if f.alpn != "" then lib.split(lib.urlDecode(f.alpn), ",") else old(node.Alpn))
              && node.Flow == (if f.flow != "" then f.flow else old(node.Flow))
  {
    var remark, addition := "", "";
    var trojan := Drop(link, 9);
    var frag := SplitLast(trojan, '#');
    if frag.Some? {
      remark := lib.urlDecode(frag.value.1);
      trojan := frag.value.0;
    }
    var query := SplitFirst(trojan, '?');
    if query.Some? {
      addition := query.value.1;
      trojan := query.value.0;
    }
    var m := UserAtHostPort(trojan);
    if m.None? {
      return;
    }
    var psk, server, port := m.value.0, m.value.1, m.value.2;
    if port == "0" {
      return;
    }
    if remark == "" {
      remark := HostPort(server, port);
    }
    var f := TrojanQuery(lib, addition, psk, server, port, remark);
    assert TrojanLink(lib, link) == Some(f);
    TrojanBuild(lib, node, f);
  }

  /** Cutting trojan://body#name, the body free of '?' and the name of '#'. */
  lemma TrojanCutOf(lib: Lib, body: string, name: string)
    requires '#' !in name && '?' !in body
    ensures TrojanCut(lib, "trojan://" + body + "#" + name) == (body, "", lib.urlDecode(name))
  {
    var link := "trojan://" + body + "#" + name;
    var t := Drop(link, 9);
    assert t == body + ['#'] + name by {
      assert link == "trojan://" + (body + ['#'] + name);
    }
    SplitLastOf(body, '#', name);
    assert SplitLast(t, '#') == Some((body, name));
    assert SplitFirst(body, '?').None?;
  }

  /**
   * A link built from a password, server, port and remark decodes back to them:
   * trojan://password@server:port#name, the password free of '@', the port of ':',
   * none of the three holding '?', and the name free of '#'.
   */
  lemma TrojanLinkRoundTrip(lib: Lib, password: string, server: string, port: string, name: string)
    requires '@' !in password && ':' !in port && '#' !in name && port != "0"
    requires '?' !in password && '?' !in server && '?' !in port
    ensures var r := TrojanLink(lib, "trojan://" + password + "@" + server + ":" + port + "#" + name);
      r.Some? && r.value.password == password && r.value.server == server && r.value.port == port
      && r.value.remark == RemarkOr(lib.urlDecode(name), server, port)
  {
    var body := password + "@" + server + ":" + port;
    var scheme := "trojan://";
    assert scheme + password + "@" + server + ":" + port == scheme + body by {
      ConcatAssociative(scheme, password + "@" + server + ":", port);
      ConcatAssociative(scheme, password + "@" + server, ":");
      ConcatAssociative(scheme, password + "@", server);
      ConcatAssociative(scheme, password, "@");
    }
    TrojanCutOf(lib, body, name);
    UserAtHostPortOf(password, server, port);
  }
}
