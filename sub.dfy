// explodeSub (src/parser/subparser.cpp:3305-3369) and explodeConfContent
// (subparser.cpp:3230-3275): the two entry points that take a whole subscription or
// configuration file, decide what it is, and hand it to the matching decoder.
//
// The decision is a pure function of the text (and, because explodeSurge answers by
// the length of the list, of whether the list was empty); the methods follow the
// source's steps and are proved to append what the chosen decoder appends.

module Sub {
  import opened Utils
  import opened Text
  import opened Proxies
  import opened Dispatch
  import ConfFiles
  import ClashConfig
  import SurgeConfig

  // ---------------------------------------------------------------------------
  // The lines of a plain subscription

  /**
   * The delimiter of the decoded subscription: '\n' when it has one, else '\r' when
   * it has one, else ' '.
   */
  function Delimiter(s: string): (c: char)
    ensures c == '\n' <==> '\n' in s
    ensures '\n' !in s ==> (c == '\r' <==> '\r' in s)
    ensures c in "\n\r "
  {
    if '\n' in s then '\n' else if '\r' in s then '\r' else ' '
  }

  /**
   * What repeated std::getline(stream, line, c) reads: the pieces between the
   * delimiters, with no piece after a final delimiter and none for empty text.
   */
  function GetLines(s: string, c: char): (r: seq<string>)
    ensures forall i :: 0 <= i < |r| ==> c !in r[i]
    ensures s == [] <==> r == []
    decreases |s|
  {
    if s == [] then []
    else
      var i := IndexOf(s, c);
      if i < 0 then [s] else [s[..i]] + GetLines(s[i + 1..], c)
  }

  /** The lines joined again, each followed by the delimiter. */
  function Terminated(lines: seq<string>, c: char): string
    decreases |lines|
  {
    if lines == [] then [] else lines[0] + [c] + Terminated(lines[1..], c)
  }

  /** A text is the part before position i, the character there, and the part after. */
  lemma Rejoin(s: string, i: nat)
    requires i < |s|
    ensures s == s[..i] + [s[i]] + s[i + 1..]
  {
  }

  /**
   * The lines read back give the text: every line ended by the delimiter, except
   * that the text need not end with one.
   */
  lemma {:induction false} GetLinesJoin(s: string, c: char)
    ensures Terminated(GetLines(s, c), c) == s || Terminated(GetLines(s, c), c) == s + [c]
    ensures |s| > 0 && s[|s| - 1] == c ==> Terminated(GetLines(s, c), c) == s
    decreases |s|
  {
    if s != [] {
      var i := IndexOf(s, c);
      if i < 0 {
        assert GetLines(s, c) == [s];
        assert Terminated([s], c) == s + [c] + Terminated([], c);
        assert s[|s| - 1] != c;
      } else {
        var rest := s[i + 1..];
        GetLinesJoin(rest, c);
        assert GetLines(s, c) == [s[..i]] + GetLines(rest, c);
        assert ([s[..i]] + GetLines(rest, c))[1..] == GetLines(rest, c);
        Rejoin(s, i);
        if rest != [] {
          assert rest[|rest| - 1] == s[|s| - 1];
        }
      }
    }
  }

  /** `strLink.erase(strLink.size() - 1)` when the line holds a '\r': its last character goes. */
  function CutReturn(line: string): (r: string)
    ensures '\r' !in line ==> r == line
    ensures '\r' in line ==> r == line[..|line| - 1]
  {
    if '\r' in line then line[..|line| - 1] else line
  }

  /** The record a line leaves, summed up: none for an empty line or one no decoder accepts. */
  function LineSummary(lib: Lib, line: string): (r: seq<Summary>)
    ensures |r| <= 1
    ensures r != [] <==> CutReturn(line) != "" && ExplodedLink(lib, CutReturn(line)).Some?
  {
    var link := CutReturn(line);
    var e := ExplodedLink(lib, link);
    if link != "" && e.Some? then [RecordSummary(lib, e.value)] else []
  }

  function LineSummaries(lib: Lib, lines: seq<string>): seq<Summary>
    decreases |lines|
  {
    if lines == [] then [] else LineSummary(lib, lines[0]) + LineSummaries(lib, lines[1..])
  }

  lemma LineSummariesTurn(lib: Lib, lines: seq<string>, i: nat, done: seq<Summary>)
    requires i < |lines|
    ensures done + LineSummaries(lib, lines[i..])
            == (done + LineSummary(lib, lines[i])) + LineSummaries(lib, lines[i + 1..])
  {
    assert lines[i..][0] == lines[i] && lines[i..][1..] == lines[i + 1..];
    Associative(done, LineSummary(lib, lines[i]), LineSummaries(lib, lines[i + 1..]));
  }

  /** No line yields more than one record, and none of type Unknown is kept. */
  lemma {:induction false} LineSummariesKnown(lib: Lib, lines: seq<string>)
    ensures |LineSummaries(lib, lines)| <= |lines|
    ensures forall s :: s in LineSummaries(lib, lines) ==> s.kind != Unknown
    decreases |lines|
  {
    if lines != [] {
      LineSummariesKnown(lib, lines[1..]);
    }
  }

  /** `result` is `nodes` followed by records summed up by `done`, in order. */
  ghost predicate Summarised(nodes: seq<Proxy>, result: seq<Proxy>, done: seq<Summary>)
    reads result
  {
    |result| == |nodes| + |done| && result[..|nodes|] == nodes
    && forall k :: |nodes| <= k < |result| ==> SummaryOf(result[k]) == done[k - |nodes|]
  }

  lemma SummarisedGrow(nodes: seq<Proxy>, result: seq<Proxy>, done: seq<Summary>, kept: seq<Proxy>, extra: seq<Summary>)
    requires Summarised(nodes, result, done)
    requires |kept| == |extra| && forall k :: 0 <= k < |kept| ==> SummaryOf(kept[k]) == extra[k]
    ensures Summarised(nodes, result + kept, done + extra)
  {
    var result', done' := result + kept, done + extra;
    assert result'[..|nodes|] == result[..|nodes|];
    forall k | |nodes| <= k < |result'|
      ensures SummaryOf(result'[k]) == done'[k - |nodes|]
    {
      if k < |result| {
        assert result'[k] == result[k] && done'[k - |nodes|] == done[k - |nodes|];
      } else {
        assert result'[k] == kept[k - |result|] && done'[k - |nodes|] == extra[k - |result|];
      }
    }
  }

  /**
   * One line of the link loop: its last character is cut when it holds a '\r', and
   * a fresh record is exploded from it and kept when the line is not empty and the
   * record's type is known.
   */
  method ExplodeLine(lib: Lib, line: string) returns (kept: seq<Proxy>)
    ensures |kept| == |LineSummary(lib, line)|
    ensures forall k :: 0 <= k < |kept| ==> fresh(kept[k]) && SummaryOf(kept[k]) == LineSummary(lib, line)[k]
  {
    var node := new Proxy();
    var link := line;
    if '\r' in link {
      link := link[..|link| - 1];
    }
    ExplodeLink(lib, link, node);
    if link == "" || node.Type == Unknown {
      return [];
    }
    return [node];
  }

  /** The link loop of explodeSub; the records are not numbered. */
  method ExplodeLines(lib: Lib, lines: seq<string>, nodes: seq<Proxy>) returns (result: seq<Proxy>)
    ensures Summarised(nodes, result, LineSummaries(lib, lines))
    ensures forall k :: |nodes| <= k < |result| ==> fresh(result[k])
  {
    result := nodes;
    ghost var done: seq<Summary> := [];
    var i := 0;
    assert lines[0..] == lines;
    while i < |lines|
      invariant 0 <= i <= |lines|
      invariant done + LineSummaries(lib, lines[i..]) == LineSummaries(lib, lines)
      invariant Summarised(nodes, result, done)
      invariant forall k :: |nodes| <= k < |result| ==> fresh(result[k])
    {
      LineSummariesTurn(lib, lines, i, done);
      var kept := ExplodeLine(lib, lines[i]);
      SummarisedGrow(nodes, result, done, kept, LineSummary(lib, lines[i]));
      result := result + kept;
      done := done + LineSummary(lib, lines[i]);
      i := i + 1;
    }
  }

  // ---------------------------------------------------------------------------
  // explodeSub

  /** The probe for a Clash document: a "Proxy:" or "proxies:" key, quoted or not. */
  const ClashKeyPattern := "\"?(Proxy|proxies)\"?:"

  /** The probe for a decoded Surge or Quantumult X list. */
  const SurgeKeyPattern := "(vmess|shadowsocks|http|trojan)\\s*?="

  /**
   * A loaded YAML document that explodeClash takes: it has "Proxy" or "proxies"
   * (which also makes its size non-zero).
   */
  predicate IsClashDocument(y: Tree)
  {
    HasMember(y, "Proxy") || HasMember(y, "proxies")
  }

  /** The text after the Clash probe: the proxies block is cut out when the key is found. */
  function AfterClashProbe(lib: Lib, sub: string): string
  {
    if lib.regFind(sub, ClashKeyPattern) then lib.clashBlock(sub) else sub
  }

  /** Whether explodeSurge answers true on `text` for a list of `before` records. */
  predicate SurgeTaken(lib: Lib, text: string, before: nat)
  {
    lib.surgeProxySection(SurgeConfig.SurgeText(lib, text)).Some? && before + |SurgeConfig.SurgeCalls(lib, text)| != 0
  }

  /** The decoder a subscription reaches. */
  datatype SubRoute =
    | ViaSsd
    | YamlThrows
    | ViaClash(yaml: Tree)
    | ViaSurge(text: string)
    | ViaLinks(text: string)

  /**
   * The order explodeSub tries: SSD by scheme; Clash when the probe finds the key
   * (a block YAML cannot load is an error that reaches the caller); Surge on the
   * text as it now is; and then the URL-safe base64 decoding of that text, as a
   * Surge list when the second probe finds one that explodeSurge takes, else as
   * one link per line.
   */
  function SubRouteOf(lib: Lib, sub: string, before: nat): (r: SubRoute)
    ensures StartsWith(sub, "ssd://") <==> r.ViaSsd?
    ensures r.YamlThrows? ==> lib.regFind(sub, ClashKeyPattern)
    ensures r.ViaClash? ==> IsClashDocument(r.yaml)
    ensures r.ViaSurge? ==> SurgeTaken(lib, r.text, before)
  {
    var probed := lib.regFind(sub, ClashKeyPattern);
    var yaml := lib.parseYaml(lib.clashBlock(sub));
    if StartsWith(sub, "ssd://") then ViaSsd
    else if probed && yaml.None? then YamlThrows
    else if probed && IsClashDocument(yaml.value) then ViaClash(yaml.value)
    else
      var s := AfterClashProbe(lib, sub);
      if SurgeTaken(lib, s, before) then ViaSurge(s)
      else
        var d := lib.urlSafeBase64Decode(s);
        if lib.regFind(d, SurgeKeyPattern) && SurgeTaken(lib, d, before) then ViaSurge(d)
        else ViaLinks(d)
  }

  /** What the decoder behind `route` appends to `nodes`. */
  ghost predicate SubOutcome(lib: Lib, route: SubRoute, sub: string, nodes: seq<Proxy>, result: seq<Proxy>)
    reads result
  {
    match route
    case ViaSsd => ConfFiles.Appended(lib, nodes, result, ConfFiles.SsdEntries(lib, sub))
    case YamlThrows => result == nodes
    case ViaClash(y) =>
      var es := ClashConfig.ClashEntries(lib, y);
      |result| == |nodes| + |es| && result[..|nodes|] == nodes
      && forall k :: |nodes| <= k < |result| ==> result[k].Id == ToU32(k) && ClashConfig.ClashNode(lib, result[k], es[k - |nodes|])
    case ViaSurge(t) =>
      var es := SurgeConfig.SurgeCalls(lib, t);
      |result| == |nodes| + |es| && result[..|nodes|] == nodes
      && forall k :: |nodes| <= k < |result| ==> result[k].Id == ToU32(k) && SurgeConfig.SpecNode(lib, result[k], es[k - |nodes|])
    case ViaLinks(t) => Summarised(nodes, result, LineSummaries(lib, GetLines(t, Delimiter(t))))
  }

  /**
   * explodeSub.  `thrown` stands for the YAML exception the source rethrows; the
   * list is then as it was.
   */
  method ExplodeSub(lib: Lib, sub: string, nodes: seq<Proxy>) returns (thrown: bool, result: seq<Proxy>)
    ensures thrown <==> SubRouteOf(lib, sub, |nodes|).YamlThrows?
    ensures SubOutcome(lib, SubRouteOf(lib, sub, |nodes|), sub, nodes, result)
    ensures forall k :: |nodes| <= k < |result| ==> fresh(result[k])
  {
    thrown := false;
    if StartsWith(sub, "ssd://") {
      result := ConfFiles.ExplodeSSD(lib, sub, nodes);
      return;
    }
    var text := sub;
    if lib.regFind(sub, ClashKeyPattern) {
      text := lib.clashBlock(sub);
      var yaml := lib.parseYaml(text);
      if yaml.None? {
        return true, nodes;
      }
      if IsClashDocument(yaml.value) {
        result := ClashConfig.ExplodeClash(lib, yaml.value, nodes);
        return;
      }
    }
    var ok;
    ok, result := SurgeConfig.ExplodeSurge(lib, text, nodes);
    if ok {
      return;
    }
    text := lib.urlSafeBase64Decode(text);
    if lib.regFind(text, SurgeKeyPattern) {
      ok, result := SurgeConfig.ExplodeSurge(lib, text, nodes);
      if ok {
        return;
      }
    }
    result := ExplodeLines(lib, GetLines(text, Delimiter(text)), nodes);
  }

  /** Whatever route a subscription takes, the records already in the list stay first and unchanged. */
  lemma SubKeepsNodes(lib: Lib, route: SubRoute, sub: string, nodes: seq<Proxy>, result: seq<Proxy>)
    requires SubOutcome(lib, route, sub, nodes, result)
    ensures |result| >= |nodes| && result[..|nodes|] == nodes
  {
  }

  /** A subscription read as links keeps no record of type Unknown. */
  lemma LinksAreKnown(lib: Lib, t: string, nodes: seq<Proxy>, result: seq<Proxy>)
    requires SubOutcome(lib, ViaLinks(t), t, nodes, result)
    ensures forall k :: |nodes| <= k < |result| ==> result[k].Type != Unknown
  {
    var es := LineSummaries(lib, GetLines(t, Delimiter(t)));
    LineSummariesKnown(lib, GetLines(t, Delimiter(t)));
    forall k | |nodes| <= k < |result|
      ensures result[k].Type != Unknown
    {
      assert es[k - |nodes|] in es;
    }
  }

  // ---------------------------------------------------------------------------
  // explodeConfContent

  /** The file types explodeConfContent tells apart (ConfType in the source). */
  datatype ConfType = ConfSS | ConfSSR | ConfV2Ray | ConfSSConf | ConfSSTap | ConfNetch | ConfUnknown

  /**
   * The first marker the content holds decides: "version", "serverSubscribes",
   * "uiItem" or vnext, "proxy_apps", "idInUse", "local_address" together with
   * "local_port", "ModeFileNameType" (the quoted keys with their quotes).
   */
  function ConfTypeOf(content: string): (t: ConfType)
    ensures Contains(content, "\"version\"") ==> t == ConfSS
    ensures t == ConfUnknown ==>
              !Contains(content, "\"version\"") && !Contains(content, "\"serverSubscribes\"")
              && !Contains(content, "\"uiItem\"") && !Contains(content, "vnext")
              && !Contains(content, "\"proxy_apps\"") && !Contains(content, "\"idInUse\"")
              && !(Contains(content, "\"local_address\"") && Contains(content, "\"local_port\""))
              && !Contains(content, "\"ModeFileNameType\"")
    ensures t == ConfNetch ==> Contains(content, "\"ModeFileNameType\"")
  {
    if Contains(content, "\"version\"") then ConfSS
    else if Contains(content, "\"serverSubscribes\"") then ConfSSR
    else if Contains(content, "\"uiItem\"") || Contains(content, "vnext") then ConfV2Ray
    else if Contains(content, "\"proxy_apps\"") then ConfSSConf
    else if Contains(content, "\"idInUse\"") then ConfSSTap
    else if Contains(content, "\"local_address\"") && Contains(content, "\"local_port\"") then ConfSSR
    else if Contains(content, "\"ModeFileNameType\"") then ConfNetch
    else ConfUnknown
  }

  /** What explodeSSRConf appends: nothing, one unnumbered libev record, or the numbered list. */
  ghost predicate SsrOutcome(lib: Lib, content: string, nodes: seq<Proxy>, result: seq<Proxy>)
    reads result
  {
    match ConfFiles.SsrFileOf(lib, content)
    case SsrUnparsed => result == nodes
    case SsrLibev(r) =>
      |result| == |nodes| + 1 && result[..|nodes|] == nodes && result[|nodes|].Id == 0
      && ConfFiles.ConfNode(lib, result[|nodes|], r)
    case SsrListed(es) => ConfFiles.Appended(lib, nodes, result, es)
  }

  /** What explodeVmessConf appends: nothing, one unnumbered record, or the numbered list. */
  ghost predicate V2rayOutcome(lib: Lib, file: ConfFiles.V2rayFile, nodes: seq<Proxy>, result: seq<Proxy>)
    reads result
  {
    match file
    case V2rayUnparsed => result == nodes
    case V2raySingle(outbound) =>
      if outbound.None? then result == nodes
      else
        |result| == |nodes| + 1 && result[..|nodes|] == nodes && result[|nodes|].Id == 0
        && ConfFiles.ConfNode(lib, result[|nodes|], ConfFiles.VmessConf(outbound.value))
    case V2rayListed(es) => ConfFiles.Appended(lib, nodes, result, es)
  }

  /** What explodeNetchConf appends: one numbered record per server, summed up. */
  ghost predicate NetchAppended(lib: Lib, content: string, nodes: seq<Proxy>, result: seq<Proxy>)
    reads result
  {
    var ss := ConfFiles.NetchSummaries(lib, ConfFiles.NetchServers(lib, content));
    |result| == |nodes| + |ss| && result[..|nodes|] == nodes
    && forall k :: |nodes| <= k < |result| ==> result[k].Id == ToU32(k) && SummaryOf(result[k]) == ss[k - |nodes|]
  }

  /** What the decoder of file type `t` appends to `nodes`. */
  ghost predicate ConfOutcome(lib: Lib, t: ConfType, content: string, nodes: seq<Proxy>, result: seq<Proxy>)
    reads result
  {
    match t
    case ConfSS => ConfFiles.Appended(lib, nodes, result, ConfFiles.SsConfEntries(lib, content))
    case ConfSSR => SsrOutcome(lib, content, nodes, result)
    case ConfV2Ray => V2rayOutcome(lib, ConfFiles.V2rayFileOf(lib, content), nodes, result)
    case ConfSSConf => ConfFiles.Appended(lib, nodes, result, ConfFiles.SsAndroidEntries(lib, content))
    case ConfSSTap => ConfFiles.Appended(lib, nodes, result, ConfFiles.SstapEntries(lib, content))
    case ConfNetch => NetchAppended(lib, content, nodes, result)
    case ConfUnknown => SubOutcome(lib, SubRouteOf(lib, content, |nodes|), content, nodes, result)
  }

  method ExplodeSsrFile(lib: Lib, content: string, nodes: seq<Proxy>) returns (result: seq<Proxy>)
    ensures SsrOutcome(lib, content, nodes, result)
    ensures forall k :: |nodes| <= k < |result| ==> fresh(result[k])
  {
    result := ConfFiles.ExplodeSSRConf(lib, content, nodes);
  }

  method ExplodeV2rayFile(lib: Lib, content: string, nodes: seq<Proxy>) returns (result: seq<Proxy>)
    ensures V2rayOutcome(lib, ConfFiles.V2rayFileOf(lib, content), nodes, result)
    ensures forall k :: |nodes| <= k < |result| ==> fresh(result[k])
  {
    ghost var file := ConfFiles.V2rayFileOf(lib, content);
    result := ConfFiles.ExplodeVmessConf(lib, content, nodes);
    if file.V2raySingle? && file.outbound.Some? {
      forall k | |nodes| <= k < |result|
        ensures fresh(result[k])
      {
        assert k == |nodes|;
      }
    } else if !file.V2rayListed? {
      assert result == nodes;
    }
  }

  method ExplodeNetchFile(lib: Lib, content: string, nodes: seq<Proxy>) returns (result: seq<Proxy>)
    ensures NetchAppended(lib, content, nodes, result)
    ensures forall k :: |nodes| <= k < |result| ==> fresh(result[k])
  {
    result := ConfFiles.ExplodeNetchConf(lib, content, nodes);
  }

  /** The decoder of a recognised file type. */
  method ExplodeConfFile(lib: Lib, t: ConfType, content: string, nodes: seq<Proxy>) returns (result: seq<Proxy>)
    requires t != ConfUnknown
    ensures ConfOutcome(lib, t, content, nodes, result)
    ensures forall k :: |nodes| <= k < |result| ==> fresh(result[k])
  {
    match t {
      case ConfSS => result := ConfFiles.ExplodeSSConf(lib, content, nodes);
      case ConfSSR => result := ExplodeSsrFile(lib, content, nodes);
      case ConfV2Ray => result := ExplodeV2rayFile(lib, content, nodes);
      case ConfSSConf => result := ConfFiles.ExplodeSSAndroid(lib, content, nodes);
      case ConfSSTap => result := ConfFiles.ExplodeSSTap(lib, content, nodes);
      case ConfNetch => result := ExplodeNetchFile(lib, content, nodes);
    }
  }

  /**
   * explodeConfContent: the decoder of the file's type, explodeSub for anything
   * else; the answer is whether the list ends non-empty.
   */
  method ExplodeConfContent(lib: Lib, content: string, nodes: seq<Proxy>)
    returns (thrown: bool, found: bool, result: seq<Proxy>)
    ensures thrown <==> ConfTypeOf(content) == ConfUnknown && SubRouteOf(lib, content, |nodes|).YamlThrows?
    ensures ConfOutcome(lib, ConfTypeOf(content), content, nodes, result)
    ensures found <==> |result| != 0
    ensures forall k :: |nodes| <= k < |result| ==> fresh(result[k])
  {
    var t := ConfTypeOf(content);
    if t == ConfUnknown {
      thrown, result := ExplodeSub(lib, content, nodes);
    } else {
      thrown := false;
      result := ExplodeConfFile(lib, t, content, nodes);
    }
    found := |result| != 0;
  }

  /** Whatever the file type, the records already in the list stay first and unchanged. */
  lemma ConfKeepsNodes(lib: Lib, t: ConfType, content: string, nodes: seq<Proxy>, result: seq<Proxy>)
    requires ConfOutcome(lib, t, content, nodes, result)
    ensures |result| >= |nodes| && result[..|nodes|] == nodes
  {
    if t == ConfUnknown {
      SubKeepsNodes(lib, SubRouteOf(lib, content, |nodes|), content, nodes, result);
    }
  }

  /** A list that was not empty makes explodeConfContent answer true, whatever the content. */
  lemma FoundWhenNotEmpty(lib: Lib, t: ConfType, content: string, nodes: seq<Proxy>, result: seq<Proxy>)
    requires ConfOutcome(lib, t, content, nodes, result) && |nodes| != 0
    ensures |result| != 0
  {
    ConfKeepsNodes(lib, t, content, nodes, result);
  }
}
