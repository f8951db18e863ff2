// The client configuration files src/parser/subparser.cpp reads whole: SSD
// subscriptions, the JSON files of shadowsocks-android, shadowsocks-windows,
// ShadowsocksR, SSTap, v2rayN and Netch.  Each lists its servers in a JSON
// array; every entry the decoder accepts becomes a fresh record, appended to the
// node list and numbered on from the list's length.

module ConfFiles {
  import opened Utils
  import opened Text
  import opened Proxies
  import opened Constructors
  import opened Links
  import opened VmessLinks
  import opened NetchLinks
  import opened Dispatch

  /** The constructor an entry ends in, with the arguments it passes. */
  datatype ConfRecord =
    | SsConf(ss: SsFields, scv: Tribool)
    | SsrConf(ssr: SsrFields)
    | SocksConf(socks: SocksFields, scv: Tribool)
    | VmessConf(vmess: VmessFields)

  function RecordPort(r: ConfRecord): string
  {
    match r
    case SsConf(f, _) => f.port
    case SsrConf(f) => f.port
    case SocksConf(f, _) => f.port
    case VmessConf(f) => f.port
  }

  function RecordRemarks(r: ConfRecord): string
  {
    match r
    case SsConf(f, _) => f.remarks
    case SsrConf(f) => f.remarks
    case SocksConf(f, _) => f.remarks
    case VmessConf(f) => f.remarks
  }

  /**
   * The fields the constructor writes.  UDP and TCP Fast Open are never set by these
   * decoders; only v2rayN's "allowInsecure" reaches a record, through ssConstruct and
   * socksConstruct.
   */
  predicate ConfNode(lib: Lib, node: Proxy, r: ConfRecord)
    reads node
  {
    match r
    case SsConf(f, scv) =>
      CommonFields(lib, node, Shadowsocks, f.group, f.remarks, f.server, f.port, Indeterminate, Indeterminate,
                   scv, Indeterminate, "")
      && node.Password == f.password && node.EncryptMethod == f.cipher
      && node.Plugin == f.plugin && node.PluginOption == f.pluginOpts
    case SsrConf(f) => SsrNode(lib, node, f)
    case SocksConf(f, scv) =>
      CommonFields(lib, node, SOCKS5, f.group, f.remarks, f.server, f.port, Indeterminate, Indeterminate,
                   scv, Indeterminate, "")
      && node.Username == f.username && node.Password == f.password
    case VmessConf(f) => VmessNode(lib, node, f)
  }

  /** The constructor call of an entry. */
  method ConstructConf(lib: Lib, r: ConfRecord, node: Proxy)
    modifies node
    ensures ConfNode(lib, node, r) && node.Id == old(node.Id)
  {
    match r
    case SsConf(f, scv) =>
      SsConstruct(lib, node, f.group, f.remarks, f.server, f.port, f.password, f.cipher, f.plugin, f.pluginOpts,
                  Indeterminate, Indeterminate, scv, Indeterminate, "");
    case SsrConf(f) =>
      SsrConstruct(lib, node, f.group, f.remarks, f.server, f.port, f.protocol, f.cipher, f.obfs, f.password,
                   f.obfsParam, f.protoParam, Indeterminate, Indeterminate, Indeterminate, "");
    case SocksConf(f, scv) =>
      SocksConstruct(lib, node, f.group, f.remarks, f.server, f.port, f.username, f.password, Indeterminate,
                     Indeterminate, scv, "");
    case VmessConf(f) => VmessBuild(lib, node, f);
  }

  /** A fresh record numbered `id`, filled by the constructor of `r`. */
  method BuildConf(lib: Lib, r: ConfRecord, id: U32) returns (node: Proxy)
    ensures fresh(node) && node.Id == id && ConfNode(lib, node, r)
  {
    node := new Proxy();
    node.Id := id;
    ConstructConf(lib, r, node);
  }

  /** A fresh record the decoder leaves unnumbered (its Id keeps the default 0). */
  method BuildUnnumbered(lib: Lib, r: ConfRecord) returns (node: Proxy)
    ensures fresh(node) && node.Id == 0 && ConfNode(lib, node, r)
  {
    node := new Proxy();
    ConstructConf(lib, r, node);
  }

  /**
   * `result` is `nodes` followed by one record per entry, the k-th record of the
   * list numbered k.
   */
  ghost predicate Appended(lib: Lib, nodes: seq<Proxy>, result: seq<Proxy>, entries: seq<ConfRecord>)
    reads result
  {
    |result| == |nodes| + |entries| && result[..|nodes|] == nodes
    && forall k :: |nodes| <= k < |result| ==>
         result[k].Id == ToU32(k) && ConfNode(lib, result[k], entries[k - |nodes|])
  }

  /** One more record, numbered with its position, extends an `Appended` list by its entry. */
  lemma AppendedGrow(lib: Lib, nodes: seq<Proxy>, result: seq<Proxy>, entries: seq<ConfRecord>, node: Proxy, r: ConfRecord)
    requires Appended(lib, nodes, result, entries)
    requires node.Id == ToU32(|result|) && ConfNode(lib, node, r)
    ensures Appended(lib, nodes, result + [node], entries + [r])
  {
    var result', entries' := result + [node], entries + [r];
    assert result'[..|nodes|] == result[..|nodes|];
    forall k | |nodes| <= k < |result'|
      ensures result'[k].Id == ToU32(k) && ConfNode(lib, result'[k], entries'[k - |nodes|])
    {
      if k < |result| {
        assert result'[k] == result[k] && entries'[k - |nodes|] == entries[k - |nodes|];
      }
    }
  }

  /** The elements of a JSON array; anything else has none. */
  function Elements(t: Tree): (r: seq<Tree>)
    ensures |r| == Size(t)
    ensures forall i :: 0 <= i < |r| ==> r[i] == Item(t, i)
  {
    if t.List? then t.items else []
  }

  // ---------------------------------------------------------------------------
  // The entries of each file

  /**
   * An SSTap "configs" entry (subparser.cpp:3161-3203): type 5 is SOCKS5; type 6 is
   * Shadowsocks when its cipher is a Shadowsocks cipher with protocol "origin" and
   * obfs "plain", ShadowsocksR otherwise; any other type and the port "0" are skipped.
   */
  function SstapEntry(lib: Lib, cfg: Tree): (r: Option<ConfRecord>)
    ensures r.Some? <==> GetMember(cfg, "server_port") != "0" && lib.toInt(GetMember(cfg, "type")) in {5, 6}
    ensures r.Some? ==> RecordRemarks(r.value) != "" && RecordPort(r.value) == GetMember(cfg, "server_port")
    ensures r.Some? ==> (r.value.SocksConf? <==> lib.toInt(GetMember(cfg, "type")) == 5)
    ensures r.Some? ==> (r.value.SsConf? <==>
                           (lib.toInt(GetMember(cfg, "type")) == 6 && GetMember(cfg, "method") in SsCiphers
                            && GetMember(cfg, "protocol") == "origin" && GetMember(cfg, "obfs") == "plain"))
  {
    var group, server, port := GetMember(cfg, "group"), GetMember(cfg, "server"), GetMember(cfg, "server_port");
    if port == "0" then None
    else
      var remarks := RemarkOr(GetMember(cfg, "remarks"), server, port);
      var pass := GetMember(cfg, "password");
      match lib.toInt(GetMember(cfg, "type"))
      case 5 => Some(SocksConf(SocksFields(group, remarks, server, port, GetMember(cfg, "username"), pass),
                               Indeterminate))
      case 6 =>
        var protocol, obfs, cipher := GetMember(cfg, "protocol"), GetMember(cfg, "obfs"), GetMember(cfg, "method");
        if cipher in SsCiphers && protocol == "origin" && obfs == "plain" then
          Some(SsConf(SsFields(group, remarks, server, port, pass, cipher, "", ""), Indeterminate))
        else
          Some(SsrConf(SsrFields(group, remarks, server, port, protocol, cipher, obfs, pass,
                                 GetMember(cfg, "obfsparam"), GetMember(cfg, "protocolparam"))))
      case _ => None
  }

  /**
   * A shadowsocks-android "nodes" entry (subparser.cpp:865-885): skipped when it has
   * no server or its port is "0"; the remark defaults to "server:port".
   */
  function SsAndroidEntry(cfg: Tree): (r: Option<ConfRecord>)
    ensures r.Some? <==> GetMember(cfg, "server") != "" && GetMember(cfg, "server_port") != "0"
    ensures r.Some? ==> r.value.SsConf? && r.value.ss.group == SsDefaultGroup && r.value.ss.remarks != ""
  {
    var server := GetMember(cfg, "server");
    var port := GetMember(cfg, "server_port");
    if server == "" || port == "0" then None
    else
      Some(SsConf(SsFields(SsDefaultGroup, RemarkOr(GetMember(cfg, "remarks"), server, port), server, port,
                           GetMember(cfg, "password"), GetMember(cfg, "method"), GetMember(cfg, "plugin"),
                           GetMember(cfg, "plugin_opts")), Indeterminate))
  }

  /**
   * A shadowsocks-windows entry (subparser.cpp:903-922).  The default remark is built
   * before this entry's "server" is read, so it names the server of the previous
   * accepted entry: `server` is that server, and the step returns the one to carry on.
   */
  function SsConfStep(group: string, server: string, cfg: Tree): (r: (string, Option<ConfRecord>))
    ensures r.1.None? <==> GetMember(cfg, "server_port") == "0"
    ensures r.1.None? ==> r.0 == server
    ensures r.1.Some? ==> r.0 == GetMember(cfg, "server") && r.1.value.SsConf? && r.1.value.ss.server == r.0
    ensures r.1.Some? && GetMember(cfg, "remarks") == "" ==>
              r.1.value.ss.remarks == HostPort(server, GetMember(cfg, "server_port"))
  {
    var port := GetMember(cfg, "server_port");
    if port == "0" then (server, None)
    else
      var remarks := RemarkOr(GetMember(cfg, "remarks"), server, port);
      var next := GetMember(cfg, "server");
      (next, Some(SsConf(SsFields(group, remarks, next, port, GetMember(cfg, "password"), GetMember(cfg, "method"),
                                  GetMember(cfg, "plugin"), GetMember(cfg, "plugin_opts")), Indeterminate)))
  }

  /**
   * An SSD server (subparser.cpp:813-847): the document's defaults, overridden by the
   * server's own non-empty members.  The remark is only overwritten by a non-empty
   * "remarks", so a server without one keeps the previous server's remark, even when
   * the server itself is then skipped for its port "0".
   */
  function SsdStep(group: string, top: Tree, remarks: string, cfg: Tree): (r: (string, Option<ConfRecord>))
    ensures r.0 == GetMemberInto(cfg, "remarks", remarks)
    ensures r.1.None? <==> GetMemberInto(cfg, "port", GetMember(top, "port")) == "0"
    ensures r.1.Some? ==> r.1.value.SsConf? && r.1.value.ss.remarks == r.0 && r.1.value.ss.group == group
  {
    var server := GetMember(cfg, "server");
    var next := GetMemberInto(cfg, "remarks", remarks);
    var port := GetMemberInto(cfg, "port", GetMember(top, "port"));
    var cipher := GetMemberInto(cfg, "encryption", GetMember(top, "encryption"));
    var password := GetMemberInto(cfg, "password", GetMember(top, "password"));
    var plugin := GetMemberInto(cfg, "plugin", GetMember(top, "plugin"));
    var pluginOpts := GetMemberInto(cfg, "plugin_options", GetMember(top, "plugin_options"));
    if port == "0" then (next, None)
    else (next, Some(SsConf(SsFields(group, next, server, port, password, cipher, plugin, pluginOpts), Indeterminate)))
  }

  /**
   * A ShadowsocksR "configs" entry (subparser.cpp:998-1023): always ShadowsocksR, in
   * its "group" or the ShadowsocksR group; skipped for the port "0".
   */
  function SsrConfigEntry(cfg: Tree): (r: Option<ConfRecord>)
    ensures r.Some? <==> GetMember(cfg, "server_port") != "0"
    ensures r.Some? ==> r.value.SsrConf? && r.value.ssr.group != "" && r.value.ssr.remarks != ""
  {
    var server, port := GetMember(cfg, "server"), GetMember(cfg, "server_port");
    if port == "0" then None
    else
      Some(SsrConf(SsrFields(GroupOr(GetMember(cfg, "group"), SsrDefaultGroup),
                             RemarkOr(GetMember(cfg, "remarks"), server, port), server, port,
                             GetMember(cfg, "protocol"), GetMember(cfg, "method"), GetMember(cfg, "obfs"),
                             GetMember(cfg, "password"), GetMember(cfg, "obfsparam"),
                             GetMember(cfg, "protocolparam"))))
  }

  /**
   * A v2rayN "vmess" entry (subparser.cpp:680-729): it needs "address", "port" and
   * "id"; "configType" 1 is VMess, 3 Shadowsocks (the password is the "id") and 4
   * SOCKS5 without credentials.  Only the Shadowsocks and SOCKS5 records take the
   * entry's "allowInsecure".
   */
  function V2rayEntry(lib: Lib, cfg: Tree): (r: Option<ConfRecord>)
    ensures (Member(cfg, "address") == Null || Member(cfg, "port") == Null || Member(cfg, "id") == Null
             || GetMember(cfg, "port") == "0") ==> r.None?
    ensures r.Some? ==> RecordRemarks(r.value) != "" && RecordPort(r.value) == GetMember(cfg, "port")
    ensures r.Some? && r.value.SsConf? ==> r.value.ss.password == GetMember(cfg, "id")
                                           && r.value.scv == lib.tribool(GetMember(cfg, "allowInsecure"))
    ensures r.Some? && r.value.VmessConf? ==> r.value.vmess.group == V2RayDefaultGroup && r.value.vmess.edge == ""
  {
    if Member(cfg, "address") == Null || Member(cfg, "port") == Null || Member(cfg, "id") == Null then None
    else
      var add, port := GetMember(cfg, "address"), GetMember(cfg, "port");
      if port == "0" then None
      else
        var ps := RemarkOr(GetMember(cfg, "remarks"), add, port);
        var scv := lib.tribool(GetMember(cfg, "allowInsecure"));
        match lib.toInt(GetMember(cfg, "configType"))
        case 1 =>
          Some(VmessConf(VmessFields(V2RayDefaultGroup, ps, add, port, GetMember(cfg, "headerType"),
                                     GetMember(cfg, "id"), GetMember(cfg, "alterId"), GetMember(cfg, "network"),
                                     GetMember(cfg, "security"), GetMember(cfg, "path"),
                                     GetMember(cfg, "requestHost"), "", GetMember(cfg, "streamSecurity"),
                                     GetMember(cfg, "sni"))))
        case 3 =>
          Some(SsConf(SsFields(SsDefaultGroup, ps, add, port, GetMember(cfg, "id"), GetMember(cfg, "security"),
                               "", ""), scv))
        case 4 => Some(SocksConf(SocksFields(SocksDefaultGroup, ps, add, port, "", ""), scv))
        case _ => None
  }

  // ---------------------------------------------------------------------------
  // Walking a list of entries

  /** Which file's entries a list holds, with what the file fixes for all of them. */
  datatype ConfList =
    | SsdServers(group: string, top: Tree)
    | SsAndroidNodes
    | SsConfServers(group: string)
    | SsrConfigs
    | SstapConfigs
    | V2rayVmess

  /**
   * One entry: what it makes, and the text carried to the next entry (the SSD
   * remark, the shadowsocks-windows server; the other files carry nothing).
   */
  function ConfStep(lib: Lib, list: ConfList, carry: string, cfg: Tree): (r: (string, Option<ConfRecord>))
    ensures r.1.Some? ==> RecordPort(r.1.value) != "0"
  {
    match list
    case SsdServers(group, top) => SsdStep(group, top, carry, cfg)
    case SsAndroidNodes => (carry, SsAndroidEntry(cfg))
    case SsConfServers(group) => SsConfStep(group, carry, cfg)
    case SsrConfigs => (carry, SsrConfigEntry(cfg))
    case SstapConfigs => (carry, SstapEntry(lib, cfg))
    case V2rayVmess => (carry, V2rayEntry(lib, cfg))
  }

  function StepRecords(lib: Lib, list: ConfList, carry: string, cfg: Tree): (r: seq<ConfRecord>)
    ensures |r| <= 1
  {
    var step := ConfStep(lib, list, carry, cfg);
    if step.1.Some? then [step.1.value] else []
  }

  /** The records of a list of entries, the carried text starting as `carry`. */
  function ConfFold(lib: Lib, list: ConfList, carry: string, items: seq<Tree>): seq<ConfRecord>
    decreases |items|
  {
    if items == [] then []
    else StepRecords(lib, list, carry, items[0]) + ConfFold(lib, list, ConfStep(lib, list, carry, items[0]).0, items[1..])
  }

  lemma ConfFoldTurn(lib: Lib, list: ConfList, carry: string, items: seq<Tree>, i: nat, done: seq<ConfRecord>)
    requires i < |items|
    ensures done + ConfFold(lib, list, carry, items[i..])
            == (done + StepRecords(lib, list, carry, items[i]))
               + ConfFold(lib, list, ConfStep(lib, list, carry, items[i]).0, items[i + 1..])
  {
    assert items[i..][0] == items[i] && items[i..][1..] == items[i + 1..];
    Associative(done, StepRecords(lib, list, carry, items[i]),
                ConfFold(lib, list, ConfStep(lib, list, carry, items[i]).0, items[i + 1..]));
  }

  method ConfTurn(lib: Lib, list: ConfList, carry: string, cfg: Tree) returns (next: string, got: Option<ConfRecord>)
    ensures next == ConfStep(lib, list, carry, cfg).0 && got == ConfStep(lib, list, carry, cfg).1
  {
    var step := ConfStep(lib, list, carry, cfg);
    next := step.0;
    got := step.1;
  }

  /**
   * The loop every list decoder runs: each entry that makes a record gets a fresh
   * one, numbered with the length of the list it joins.
   */
  method ExplodeList(lib: Lib, list: ConfList, items: seq<Tree>, nodes: seq<Proxy>) returns (result: seq<Proxy>)
    ensures Appended(lib, nodes, result, ConfFold(lib, list, "", items))
    ensures forall k :: |nodes| <= k < |result| ==> fresh(result[k])
  {
    result := nodes;
    var carry := "";
    ghost var done: seq<ConfRecord> := [];
    var i := 0;
    assert items[0..] == items;
    while i < |items|
      invariant 0 <= i <= |items|
      invariant done + ConfFold(lib, list, carry, items[i..]) == ConfFold(lib, list, "", items)
      invariant Appended(lib, nodes, result, done)
      invariant forall k :: |nodes| <= k < |result| ==> fresh(result[k])
    {
      ConfFoldTurn(lib, list, carry, items, i, done);
      var next, got := ConfTurn(lib, list, carry, items[i]);
      if got.Some? {
        var node := BuildConf(lib, got.value, ToU32(|result|));
        AppendedGrow(lib, nodes, result, done, node, got.value);
        result := result + [node];
        assert StepRecords(lib, list, carry, items[i]) == [got.value];
      } else {
        assert StepRecords(lib, list, carry, items[i]) == [];
      }
      done := done + StepRecords(lib, list, carry, items[i]);
      carry := next;
      i := i + 1;
    }
  }

  /** Every record of a list has a port other than "0", and there are no more records than entries. */
  lemma {:induction false} ConfFoldPorts(lib: Lib, list: ConfList, carry: string, items: seq<Tree>)
    ensures |ConfFold(lib, list, carry, items)| <= |items|
    ensures forall r :: r in ConfFold(lib, list, carry, items) ==> RecordPort(r) != "0"
    decreases |items|
  {
    if items != [] {
      ConfFoldPorts(lib, list, ConfStep(lib, list, carry, items[0]).0, items[1..]);
    }
  }

  /** Files whose entries carry nothing over make one record per accepted entry, in order. */
  lemma {:induction false} StatelessFold(lib: Lib, list: ConfList, carry: string, items: seq<Tree>, c: Tree)
    requires list.SsAndroidNodes? || list.SsrConfigs? || list.SstapConfigs? || list.V2rayVmess?
    ensures ConfFold(lib, list, carry, items + [c])
            == ConfFold(lib, list, carry, items) + StepRecords(lib, list, carry, [c][0])
    decreases |items|
  {
    if items == [] {
      assert items + [c] == [c];
    } else {
      assert (items + [c])[0] == items[0] && (items + [c])[1..] == items[1..] + [c];
      StatelessFold(lib, list, carry, items[1..], c);
      Associative(StepRecords(lib, list, carry, items[0]), ConfFold(lib, list, carry, items[1..]),
                  StepRecords(lib, list, carry, c));
    }
  }

  // ---------------------------------------------------------------------------
  // explodeSSTap

  /** The records of an SSTap file: none unless it parses to an object. */
  function SstapEntries(lib: Lib, sstap: string): seq<ConfRecord>
  {
    match lib.parseJson(sstap)
    case Some(json) => if json.Dict? then ConfFold(lib, SstapConfigs, "", Elements(Member(json, "configs"))) else []
    case None => []
  }

  /** explodeSSTap (subparser.cpp:3149-3205). */
  method ExplodeSSTap(lib: Lib, sstap: string, nodes: seq<Proxy>) returns (result: seq<Proxy>)
    ensures Appended(lib, nodes, result, SstapEntries(lib, sstap))
    ensures forall k :: |nodes| <= k < |result| ==> fresh(result[k])
  {
    var json := lib.parseJson(sstap);
    if json.None? || !json.value.Dict? {
      return nodes;
    }
    result := ExplodeList(lib, SstapConfigs, Elements(Member(json.value, "configs")), nodes);
  }

  // ---------------------------------------------------------------------------
  // explodeSSAndroid

  /** The text explodeSSAndroid parses: the array wrapped as the "nodes" member of an object. */
  function SsAndroidDocument(ss: string): string
  {
    "{\"nodes\":" + ss + "}"
  }

  function SsAndroidEntries(lib: Lib, ss: string): seq<ConfRecord>
  {
    match lib.parseJson(SsAndroidDocument(ss))
    case Some(json) => if json.Dict? then ConfFold(lib, SsAndroidNodes, "", Elements(Member(json, "nodes"))) else []
    case None => []
  }

  /** explodeSSAndroid (subparser.cpp:851-886). */
  method ExplodeSSAndroid(lib: Lib, ss: string, nodes: seq<Proxy>) returns (result: seq<Proxy>)
    ensures Appended(lib, nodes, result, SsAndroidEntries(lib, ss))
    ensures forall k :: |nodes| <= k < |result| ==> fresh(result[k])
  {
    var json := lib.parseJson(SsAndroidDocument(ss));
    if json.None? || !json.value.Dict? {
      return nodes;
    }
    result := ExplodeList(lib, SsAndroidNodes, Elements(Member(json.value, "nodes")), nodes);
  }

  // ---------------------------------------------------------------------------
  // explodeSSConf

  /** The member holding the servers: "servers" when the file has "version" and "servers", "configs" otherwise. */
  function SsConfSection(json: Tree): (s: string)
    ensures s == "servers" ==> HasMember(json, "servers")
  {
    if HasMember(json, "version") && HasMember(json, "servers") then "servers" else "configs"
  }

  function SsConfEntries(lib: Lib, content: string): seq<ConfRecord>
  {
    match lib.parseJson(content)
    case Some(json) =>
      if json.Dict? && HasMember(json, SsConfSection(json)) then
        ConfFold(lib, SsConfServers(GetMemberInto(json, "remarks", SsDefaultGroup)), "",
                 Elements(Member(json, SsConfSection(json))))
      else []
    case None => []
  }

  /** explodeSSConf (subparser.cpp:888-923): the file's "remarks" names the group. */
  method ExplodeSSConf(lib: Lib, content: string, nodes: seq<Proxy>) returns (result: seq<Proxy>)
    ensures Appended(lib, nodes, result, SsConfEntries(lib, content))
    ensures forall k :: |nodes| <= k < |result| ==> fresh(result[k])
  {
    var json := lib.parseJson(content);
    if json.None? || !json.value.Dict? {
      return nodes;
    }
    var section := SsConfSection(json.value);
    if !HasMember(json.value, section) {
      return nodes;
    }
    var group := GetMemberInto(json.value, "remarks", SsDefaultGroup);
    result := ExplodeList(lib, SsConfServers(group), Elements(Member(json.value, section)), nodes);
  }

  /**
   * Two consecutive shadowsocks-windows servers, the second without a remark: its
   * default remark names the first one's server.
   */
  lemma SsConfRemarkNamesPreviousServer(lib: Lib, group: string, a: Tree, b: Tree)
    requires GetMember(a, "server_port") != "0" && GetMember(b, "server_port") != "0"
    requires GetMember(b, "remarks") == ""
    ensures var rs := ConfFold(lib, SsConfServers(group), "", [a, b]);
            |rs| == 2 && rs[1].SsConf? && rs[1].ss.remarks == HostPort(GetMember(a, "server"), GetMember(b, "server_port"))
  {
    var list := SsConfServers(group);
    var first := SsConfStep(group, "", a);
    var second := SsConfStep(group, first.0, b);
    assert ConfStep(lib, list, "", a) == first && ConfStep(lib, list, first.0, b) == second;
    assert [a, b][0] == a && [a, b][1..] == [b] && [b][0] == b && [b][1..] == [];
    assert ConfFold(lib, list, first.0, [b]) == [second.1.value];
    assert ConfFold(lib, list, "", [a, b]) == [first.1.value] + [second.1.value];
  }

  // ---------------------------------------------------------------------------
  // explodeSSD

  /**
   * The values of an object in member order, as explodeSSD takes them: it looks each
   * one up by name and moves it out of the document, so a name met a second time
   * finds the first member, already moved out (null).
   */
  function MovedValues(es: seq<(string, Tree)>, seen: set<string>): (r: seq<Tree>)
    ensures |r| == |es|
    ensures forall i :: 0 <= i < |es| && es[i].0 !in seen && (forall j :: 0 <= j < i ==> es[j].0 != es[i].0) ==> r[i] == es[i].1
    decreases |es|
  {
    if es == [] then []
    else [if es[0].0 in seen then Null else es[0].1] + MovedValues(es[1..], seen + {es[0].0})
  }

  /** The servers of an SSD document: an array, or the values of an object; None for anything else. */
  function SsdServerList(servers: Tree): Option<seq<Tree>>
  {
    match servers
    case List(items) => Some(items)
    case Dict(es) => Some(MovedValues(es, {}))
    case _ => None
  }

  /** The JSON object of an "ssd://" link: the URL-safe base64 after the scheme. */
  function SsdDocument(lib: Lib, link: string): Option<Tree>
  {
    var json := lib.parseJson(lib.urlSafeBase64Decode(Drop(link, 6)));
    if json.Some? && json.value.Dict? && HasMember(json.value, "servers") then json else None
  }

  function SsdEntries(lib: Lib, link: string): seq<ConfRecord>
  {
    match SsdDocument(lib, link)
    case Some(json) =>
      var items := SsdServerList(Member(json, "servers"));
      if items.Some? then ConfFold(lib, SsdServers(GetMemberInto(json, "airport", ""), json), "", items.value) else []
    case None => []
  }

  /** explodeSSD (subparser.cpp:775-849): the "airport" names the group, with no default. */
  method ExplodeSSD(lib: Lib, link: string, nodes: seq<Proxy>) returns (result: seq<Proxy>)
    ensures Appended(lib, nodes, result, SsdEntries(lib, link))
    ensures forall k :: |nodes| <= k < |result| ==> fresh(result[k])
  {
    var json := SsdDocument(lib, link);
    if json.None? {
      return nodes;
    }
    var group := GetMemberInto(json.value, "airport", "");
    var items := SsdServerList(Member(json.value, "servers"));
    if items.None? {
      return nodes;
    }
    result := ExplodeList(lib, SsdServers(group, json.value), items.value, nodes);
  }

  /**
   * An SSD server without a remark of its own is named like the server before it,
   * even when that one was skipped for its port.
   */
  lemma SsdRemarkCarriesOver(lib: Lib, group: string, top: Tree, a: Tree, b: Tree)
    requires GetMember(a, "remarks") != "" && GetMember(b, "remarks") == ""
    requires GetMemberInto(b, "port", GetMember(top, "port")) != "0"
    ensures var rs := ConfFold(lib, SsdServers(group, top), "", [a, b]);
            |rs| >= 1 && rs[|rs| - 1].SsConf? && rs[|rs| - 1].ss.remarks == GetMember(a, "remarks")
  {
    var list := SsdServers(group, top);
    var first := SsdStep(group, top, "", a);
    var second := SsdStep(group, top, first.0, b);
    assert ConfStep(lib, list, "", a) == first && ConfStep(lib, list, first.0, b) == second;
    assert [a, b][0] == a && [a, b][1..] == [b] && [b][0] == b && [b][1..] == [];
    assert ConfFold(lib, list, first.0, [b]) == [second.1.value];
    assert ConfFold(lib, list, "", [a, b]) == StepRecords(lib, list, "", a) + [second.1.value];
  }

  // ---------------------------------------------------------------------------
  // explodeSSRConf

  /**
   * A single shadowsocks-libev style configuration (subparser.cpp:970-996): plain
   * Shadowsocks settings make a Shadowsocks record with its plugin, anything else a
   * ShadowsocksR record.  The password is never read, so it is always empty, and the
   * port "0" is not rejected.
   */
  function SsrLibevRecord(json: Tree): (r: ConfRecord)
    ensures r.SsConf? <==> IsPlainSs(GetMember(json, "method"), GetMember(json, "obfs"), GetMember(json, "protocol"))
    ensures r.SsConf? ==> r.ss.password == "" && r.ss.group == SsDefaultGroup
    ensures r.SsrConf? ==> r.ssr.password == "" && r.ssr.group == SsrDefaultGroup
  {
    var server, port := GetMember(json, "server"), GetMember(json, "server_port");
    var remarks := HostPort(server, port);
    var cipher, obfs, protocol := GetMember(json, "method"), GetMember(json, "obfs"), GetMember(json, "protocol");
    if IsPlainSs(cipher, obfs, protocol) then
      SsConf(SsFields(SsDefaultGroup, remarks, server, port, "", cipher, GetMember(json, "plugin"),
                      GetMember(json, "plugin_opts")), Indeterminate)
    else
      SsrConf(SsrFields(SsrDefaultGroup, remarks, server, port, protocol, cipher, obfs, "",
                        GetMember(json, "obfs_param"), GetMember(json, "protocol_param")))
  }

  /** What a ShadowsocksR file holds. */
  datatype SsrFile =
    | SsrUnparsed
    | SsrLibev(record: ConfRecord)
    | SsrListed(entries: seq<ConfRecord>)

  function SsrFileOf(lib: Lib, content: string): SsrFile
  {
    match lib.parseJson(content)
    case Some(json) =>
      if !json.Dict? then SsrUnparsed
      else if HasMember(json, "local_port") && HasMember(json, "local_address") then SsrLibev(SsrLibevRecord(json))
      else SsrListed(ConfFold(lib, SsrConfigs, "", Elements(Member(json, "configs"))))
    case None => SsrUnparsed
  }

  /**
   * explodeSSRConf (subparser.cpp:962-1024).  The libev record is appended without a
   * number; the listed ones are numbered.
   */
  method ExplodeSSRConf(lib: Lib, content: string, nodes: seq<Proxy>) returns (result: seq<Proxy>)
    ensures SsrFileOf(lib, content).SsrUnparsed? ==> result == nodes
    ensures SsrFileOf(lib, content).SsrLibev? ==>
              |result| == |nodes| + 1 && result[..|nodes|] == nodes && fresh(result[|nodes|])
              && result[|nodes|].Id == 0 && ConfNode(lib, result[|nodes|], SsrFileOf(lib, content).record)
    ensures SsrFileOf(lib, content).SsrListed? ==>
              Appended(lib, nodes, result, SsrFileOf(lib, content).entries)
              && forall k :: |nodes| <= k < |result| ==> fresh(result[k])
  {
    var json := lib.parseJson(content);
    if json.None? || !json.value.Dict? {
      return nodes;
    }
    if HasMember(json.value, "local_port") && HasMember(json.value, "local_address") {
      var node := BuildUnnumbered(lib, SsrLibevRecord(json.value));
      return nodes + [node];
    }
    result := ExplodeList(lib, SsrConfigs, Elements(Member(json.value, "configs")), nodes);
  }

  // ---------------------------------------------------------------------------
  // explodeVmessConf

  /** A settings member name as the file spells it: the first match of `pattern`, or `default`. */
  function SpelledAs(lib: Lib, content: string, pattern: string, default: string): string
  {
    var m := Captures(lib, content, pattern, 1);
    if m.Some? then m.value[0] else default
  }

  /** What the stream settings of a single v2ray outbound set. */
  datatype StreamOpts = StreamOpts(net: string, tls: string, fakeType: string, path: string, host: string,
                                   edge: string)

  /**
   * The stream settings (subparser.cpp:617-653): "network" and "security"; for
   * WebSocket the path and the Host and Edge headers of the ws settings; then an
   * HTTP camouflage header of the tcp settings overrides the path with its first
   * request path and the headers with its request headers.
   */
  function OutboundStream(lib: Lib, content: string, outbound: Tree): (s: StreamOpts)
    ensures s.net != "ws" && s.fakeType != "http" ==> s.path == "" && s.host == "" && s.edge == ""
  {
    var streamSet := SpelledAs(lib, content, "((?i)streamsettings)", "streamSettings");
    if !HasMember(outbound, streamSet) then StreamOpts("", "", "", "", "", "")
    else
      var stream := Member(outbound, streamSet);
      var net, tls := GetMember(stream, "network"), GetMember(stream, "security");
      var wsSet := SpelledAs(lib, content, "((?1)wssettings)", "wsSettings");
      var ws := if net == "ws" && HasMember(stream, wsSet) then Member(stream, wsSet) else Null;
      var path, host, edge := GetMember(ws, "path"), GetMember(Member(ws, "headers"), "Host"),
                              GetMember(Member(ws, "headers"), "Edge");
      var tcpSet := SpelledAs(lib, content, "((?i)tcpsettings)", "tcpSettings");
      var tcp := if HasMember(stream, tcpSet) then Member(stream, tcpSet) else Null;
      if !HasMember(tcp, "header") then StreamOpts(net, tls, "", path, host, edge)
      else
        var header := Member(tcp, "header");
        var fakeType := GetMember(header, "type");
        if fakeType != "http" || !HasMember(header, "request") then StreamOpts(net, tls, fakeType, path, host, edge)
        else
          var request := Member(header, "request");
          var paths := Member(request, "path");
          var path' := if HasMember(request, "path") && Size(paths) > 0 then AsText(Item(paths, 0)) else path;
          var headers := Member(request, "headers");
          if HasMember(request, "headers") then
            StreamOpts(net, tls, fakeType, path', GetMember(headers, "Host"), GetMember(headers, "Edge"))
          else StreamOpts(net, tls, fakeType, path', host, edge)
  }

  /**
   * A single v2ray configuration (subparser.cpp:604-657): the first server of the
   * first outbound's "vnext", named "address:port"; None when there is none or its
   * port is "0".
   */
  function SingleOutbound(lib: Lib, content: string, json: Tree): (r: Option<VmessFields>)
    ensures r.Some? ==> r.value.group == V2RayDefaultGroup && r.value.sni == "" && r.value.port != "0"
    ensures r.Some? ==> r.value.remarks == HostPort(r.value.add, r.value.port)
  {
    var outbounds := Member(json, "outbounds");
    var outbound := Item(outbounds, 0);
    var settings := Member(outbound, "settings");
    var vnext := Member(settings, "vnext");
    if !(Size(outbounds) > 0 && HasMember(outbound, "settings") && HasMember(settings, "vnext") && Size(vnext) > 0)
    then None
    else
      var server := Item(vnext, 0);
      var add, port := GetMember(server, "address"), GetMember(server, "port");
      if port == "0" then None
      else
        var users := Member(server, "users");
        var user := if Size(users) > 0 then Item(users, 0) else Null;
        var s := OutboundStream(lib, content, outbound);
        Some(VmessFields(V2RayDefaultGroup, HostPort(add, port), add, port, s.fakeType, GetMember(user, "id"),
                         GetMember(user, "alterId"), s.net, GetMember(user, "security"), s.path, s.host, s.edge,
                         s.tls, ""))
  }

  /** What a v2ray file holds. */
  datatype V2rayFile =
    | V2rayUnparsed
    | V2raySingle(outbound: Option<VmessFields>)
    | V2rayListed(entries: seq<ConfRecord>)

  function V2rayFileOf(lib: Lib, content: string): V2rayFile
  {
    match lib.parseJson(content)
    case Some(json) =>
      if !json.Dict? then V2rayUnparsed
      else if HasMember(json, "outbounds") then V2raySingle(SingleOutbound(lib, content, json))
      else V2rayListed(ConfFold(lib, V2rayVmess, "", Elements(Member(json, "vmess"))))
    case None => V2rayUnparsed
  }

  /**
   * explodeVmessConf (subparser.cpp:583-729).  A single configuration appends at most
   * one record, unnumbered; a v2rayN file numbers its records.
   */
  method ExplodeVmessConf(lib: Lib, content: string, nodes: seq<Proxy>) returns (result: seq<Proxy>)
    ensures V2rayFileOf(lib, content).V2rayUnparsed? ==> result == nodes
    ensures V2rayFileOf(lib, content) == V2raySingle(None) ==> result == nodes
    ensures V2rayFileOf(lib, content).V2raySingle? && V2rayFileOf(lib, content).outbound.Some? ==>
              |result| == |nodes| + 1 && result[..|nodes|] == nodes && fresh(result[|nodes|])
              && result[|nodes|].Id == 0
              && ConfNode(lib, result[|nodes|], VmessConf(V2rayFileOf(lib, content).outbound.value))
    ensures V2rayFileOf(lib, content).V2rayListed? ==>
              Appended(lib, nodes, result, V2rayFileOf(lib, content).entries)
              && forall k :: |nodes| <= k < |result| ==> fresh(result[k])
  {
    var json := lib.parseJson(content);
    if json.None? || !json.value.Dict? {
      return nodes;
    }
    if HasMember(json.value, "outbounds") {
      var outbound := SingleOutbound(lib, content, json.value);
      if outbound.None? {
        return nodes;
      }
      var node := BuildUnnumbered(lib, VmessConf(outbound.value));
      return nodes + [node];
    }
    result := ExplodeList(lib, V2rayVmess, Elements(Member(json.value, "vmess")), nodes);
  }

  // ---------------------------------------------------------------------------
  // explodeNetchConf

  /** The link explodeNetchConf hands to explodeNetch for a server object. */
  function NetchServerLink(lib: Lib, server: Tree): (link: string)
    ensures StartsWith(link, "Netch://")
  {
    var link := "Netch://" + lib.base64Encode(lib.serializeJson(server));
    assert link[..8] == "Netch://";
    link
  }

  /** The "Server" array of a Netch file (none unless it parses to an object with that member). */
  function NetchServers(lib: Lib, netch: string): seq<Tree>
  {
    match lib.parseJson(netch)
    case Some(json) => if json.Dict? && HasMember(json, "Server") then Elements(Member(json, "Server")) else []
    case None => []
  }

  /**
   * The common fields of the record explodeNetch leaves, given what it decoded: a
   * blank record of type Unknown when it rejected the link.
   */
  function NetchOutcome(lib: Lib, parsed: Option<NetchFields>): (s: Summary)
    ensures s.kind == Unknown <==> parsed.None?
  {
    match parsed
    case None => Summary(Unknown, "", "", "", 0)
    case Some(f) => Summary(NetchType(f.body), f.group, f.remarks, f.server, ToU16(lib.toInt(f.port)))
  }

  /** What explodeNetch leaves for each server of a Netch file, summed up. */
  function NetchSummaries(lib: Lib, servers: seq<Tree>): (r: seq<Summary>)
    ensures |r| == |servers|
    decreases |servers|
  {
    if servers == [] then []
    else NetchSummaries(lib, servers[..|servers| - 1])
         + [NetchOutcome(lib, NetchLink(lib, NetchServerLink(lib, servers[|servers| - 1])))]
  }

  /** The summary of the j-th server is what explodeNetch makes of that server's link. */
  lemma {:induction false} NetchSummaryAt(lib: Lib, servers: seq<Tree>, j: nat)
    requires j < |servers|
    ensures NetchSummaries(lib, servers)[j] == NetchOutcome(lib, NetchLink(lib, NetchServerLink(lib, servers[j])))
    decreases |servers|
  {
    if j < |servers| - 1 {
      NetchSummaryAt(lib, servers[..|servers| - 1], j);
    }
  }

  /** One server's link: a fresh record filled by explodeNetch, numbered `id` whether or not it was accepted. */
  method NetchConfNode(lib: Lib, link: string, id: U32) returns (node: Proxy)
    ensures fresh(node) && node.Id == id
    ensures SummaryOf(node) == NetchOutcome(lib, NetchLink(lib, link))
  {
    node := new Proxy();
    ghost var parsed := NetchLink(lib, link);
    ExplodeNetch(lib, link, node);
    node.Id := id;
  }

  /** The loop of explodeNetchConf: one fresh record per server, numbered on from the list's length. */
  method AppendNetchServers(lib: Lib, servers: seq<Tree>, nodes: seq<Proxy>) returns (result: seq<Proxy>)
    ensures |result| == |nodes| + |servers| && result[..|nodes|] == nodes
    ensures forall k :: |nodes| <= k < |result| ==> fresh(result[k]) && result[k].Id == ToU32(k)
    ensures forall k :: |nodes| <= k < |result| ==> SummaryOf(result[k]) == NetchSummaries(lib, servers)[k - |nodes|]
  {
    result := nodes;
    var i := 0;
    assert servers[..0] == [];
    while i < |servers|
      invariant 0 <= i <= |servers|
      invariant |result| == |nodes| + i && result[..|nodes|] == nodes
      invariant forall k :: |nodes| <= k < |result| ==> fresh(result[k]) && result[k].Id == ToU32(k)
      invariant forall k :: |nodes| <= k < |result| ==>
                  SummaryOf(result[k]) == NetchSummaries(lib, servers[..i])[k - |nodes|]
    {
      var node := NetchConfNode(lib, NetchServerLink(lib, servers[i]), ToU32(|result|));
      assert servers[..i + 1][..i] == servers[..i];
      result := result + [node];
      i := i + 1;
    }
    assert servers[..i] == servers;
  }

  /**
   * explodeNetchConf (subparser.cpp:3207-3228): one record per server, appended even
   * when explodeNetch rejected it.
   */
  method ExplodeNetchConf(lib: Lib, netch: string, nodes: seq<Proxy>) returns (result: seq<Proxy>)
    ensures |result| == |nodes| + |NetchServers(lib, netch)| && result[..|nodes|] == nodes
    ensures forall k :: |nodes| <= k < |result| ==> fresh(result[k]) && result[k].Id == ToU32(k)
    ensures forall k :: |nodes| <= k < |result| ==>
              SummaryOf(result[k]) == NetchSummaries(lib, NetchServers(lib, netch))[k - |nodes|]
  {
    var json := lib.parseJson(netch);
    if json.None? || !json.value.Dict? || !HasMember(json.value, "Server") {
      return nodes;
    }
    result := AppendNetchServers(lib, Elements(Member(json.value, "Server")), nodes);
  }
}
