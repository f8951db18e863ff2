// The INI half of src/config/binding.h: the four readers that turn the lines of
// an INI list (custom_proxy_group, ruleset, tasks, rename/emoji) into
// configuration records.  Each reader walks its input array, skips the lines it
// cannot use and appends one record per remaining line; the specification of a
// reader is `Survivors` of a per-line function.

module IniBinding {
  import opened Utils
  import opened Text
  import opened ProxyGroups

  /** The records of the kept lines, in input order: a filter-map over the input. */
  function Survivors<T>(f: string -> Option<T>, xs: seq<string>): (r: seq<T>)
    ensures |r| <= |xs|
  {
    if xs == [] then []
    else
      var init := Survivors(f, xs[..|xs| - 1]);
      match f(xs[|xs| - 1])
      case Some(y) => init + [y]
      case None => init
  }

  /** Every record comes from a line of the input. */
  lemma {:induction false} SurvivorsSound<T>(f: string -> Option<T>, xs: seq<string>, y: T)
    requires y in Survivors(f, xs)
    ensures exists x :: x in xs && f(x) == Some(y)
    decreases |xs|
  {
    var init := xs[..|xs| - 1];
    if y in Survivors(f, init) {
      SurvivorsSound(f, init, y);
      var x :| x in init && f(x) == Some(y);
      assert x in xs;
    } else {
      assert f(xs[|xs| - 1]) == Some(y);
    }
  }

  /** Reading two arrays one after the other gives the records of the first, then those of the second. */
  lemma {:induction false} SurvivorsAppend<T>(f: string -> Option<T>, a: seq<string>, b: seq<string>)
    ensures Survivors(f, a + b) == Survivors(f, a) + Survivors(f, b)
    decreases |b|
  {
    if b == [] {
      assert a + b == a;
    } else {
      var b' := b[..|b| - 1];
      assert (a + b)[..|a + b| - 1] == a + b';
      assert (a + b)[|a + b| - 1] == b[|b| - 1];
      SurvivorsAppend(f, a, b');
    }
  }

  /** Every usable line yields a record: the readers drop exactly the lines `f` rejects. */
  lemma {:induction false} SurvivorsComplete<T>(f: string -> Option<T>, xs: seq<string>, x: string)
    requires x in xs && f(x).Some?
    ensures f(x).value in Survivors(f, xs)
    decreases |xs|
  {
    if xs[|xs| - 1] != x {
      var init := xs[..|xs| - 1];
      assert xs == init + [xs[|xs| - 1]];
      SurvivorsComplete(f, init, x);
    }
  }

  /** A reader over lines that are all usable keeps one record per line. */
  lemma {:induction false} SurvivorsAllKept<T>(f: string -> Option<T>, xs: seq<string>)
    requires forall i :: 0 <= i < |xs| ==> f(xs[i]).Some?
    ensures |Survivors(f, xs)| == |xs|
    ensures forall i :: 0 <= i < |xs| ==> Survivors(f, xs)[i] == f(xs[i]).value
    decreases |xs|
  {
    if xs != [] {
      SurvivorsAllKept(f, xs[..|xs| - 1]);
    }
  }

  // ---------------------------------------------------------------------------
  // Proxy groups: name`type`rules...[`url`interval,timeout,tolerance]
  // ---------------------------------------------------------------------------

  const ProviderPrefix := "!!PROVIDER="

  predicate IsProviderRule(s: string)
  {
    StartsWith(s, ProviderPrefix)
  }

  /** The rule fields that name proxies: those that do not reference a provider, in order. */
  function RuleProxies(rules: seq<string>): (r: seq<string>)
    ensures |r| <= |rules|
  {
    if rules == [] then []
    else
      var last := rules[|rules| - 1];
      RuleProxies(rules[..|rules| - 1]) + (if IsProviderRule(last) then [] else [last])
  }

  /** The proxies are rule fields that reference no provider. */
  lemma {:induction false} RuleProxiesSound(rules: seq<string>, y: string)
    requires y in RuleProxies(rules)
    ensures y in rules && !IsProviderRule(y)
    decreases |rules|
  {
    var init := rules[..|rules| - 1];
    if y in RuleProxies(init) {
      RuleProxiesSound(init, y);
      assert y in rules;
    }
  }

  /** The provider names: the comma-split remainders of the "!!PROVIDER=" fields, in order. */
  function RuleProviders(lib: Lib, rules: seq<string>): (r: seq<string>)
  {
    if rules == [] then []
    else
      var last := rules[|rules| - 1];
      RuleProviders(lib, rules[..|rules| - 1])
        + (if IsProviderRule(last) then lib.split(last[|ProviderPrefix|..], ",") else [])
  }

  /** Rules without any provider reference all become proxies, and no provider is used. */
  lemma {:induction false} PlainRules(lib: Lib, rules: seq<string>)
    requires forall i :: 0 <= i < |rules| ==> !IsProviderRule(rules[i])
    ensures RuleProxies(rules) == rules
    ensures RuleProviders(lib, rules) == []
    decreases |rules|
  {
    if rules != [] {
      var init := rules[..|rules| - 1];
      PlainRules(lib, init);
      assert rules == init + [rules[|rules| - 1]];
    }
  }

  /** Each non-provider rule field is among the proxies. */
  lemma {:induction false} RuleProxiesComplete(rules: seq<string>, i: nat)
    requires i < |rules| && !IsProviderRule(rules[i])
    ensures rules[i] in RuleProxies(rules)
    decreases |rules|
  {
    if i < |rules| - 1 {
      RuleProxiesComplete(rules[..|rules| - 1], i);
    }
  }

  /** The proxies of two runs of rule fields are those of the first run, then those of the second. */
  lemma {:induction false} RuleProxiesAppend(a: seq<string>, b: seq<string>)
    ensures RuleProxies(a + b) == RuleProxies(a) + RuleProxies(b)
    decreases |b|
  {
    if b == [] {
      assert a + b == a;
    } else {
      var b' := b[..|b| - 1];
      var last := b[|b| - 1];
      assert (a + b)[..|a + b| - 1] == a + b';
      assert (a + b)[|a + b| - 1] == last;
      RuleProxiesAppend(a, b');
      var tail := if IsProviderRule(last) then [] else [last];
      calc {
        RuleProxies(a + b);
        RuleProxies(a + b') + tail;
        RuleProxies(a) + RuleProxies(b') + tail;
        RuleProxies(a) + (RuleProxies(b') + tail);
      }
    }
  }

  /** `conf` with the rule fields v[2..upper] appended to its proxies and providers. */
  function WithRules(lib: Lib, conf: ProxyGroupConfig, v: seq<string>, upper: nat): ProxyGroupConfig
    requires 2 <= upper <= |v|
  {
    conf.(Proxies := conf.Proxies + RuleProxies(v[2..upper]),
          UsingProvider := conf.UsingProvider + RuleProviders(lib, v[2..upper]))
  }

  /** The three values parseGroupTimes writes through its interval, timeout and tolerance pointers. */
  function WithTimes(conf: ProxyGroupConfig, g: GroupTimes): ProxyGroupConfig
  {
    conf.(Interval := g.interval, Timeout := g.timeout, Tolerance := g.tolerance)
  }

  /** The uselightgbm option: true unless the field asks for false (and not for true). */
  function LightGbmOption(s: string): (b: bool)
    ensures !b <==> Contains(s, "uselightgbm=false") && !Contains(s, "uselightgbm=true")
  {
    if Contains(s, "uselightgbm=true") then true
    else if Contains(s, "uselightgbm=false") then false
    else true
  }

  /** The collectdata option: false unless the field asks for true. */
  function CollectDataOption(s: string): (b: bool)
    ensures b <==> Contains(s, "collectdata=true")
  {
    if Contains(s, "collectdata=true") then true
    else if Contains(s, "collectdata=false") then false
    else false
  }

  /** The strategy option: round-robin only when asked for, sticky-sessions otherwise. */
  function StrategyOption(s: string): (st: SmartStrategy)
    ensures st == SmartStrategy.RoundRobin <==> Contains(s, "strategy=round-robin")
  {
    if Contains(s, "strategy=round-robin") then SmartStrategy.RoundRobin
    else if Contains(s, "strategy=sticky-sessions") then StickySessions
    else StickySessions
  }

  const PolicyPriorityKey := "policy-priority=\""

  /**
   * The policy-priority option: the text between the first and the last double
   * quote of the field, when the field holds `policy-priority="` and that text
   * is not empty.
   */
  function PolicyPriorityOption(s: string): (r: Option<string>)
    ensures r.Some? ==> r.value != "" && Contains(s, PolicyPriorityKey)
  {
    if !Contains(s, PolicyPriorityKey) then None
    else
      var start := Find(s, "\"") + 1;
      var end := RFind(s, "\"");
      if end > start then Some(s[start..end]) else None
  }

  /** A field `policy-priority="v"` preceded by quote-free text gives back `v` (v non-empty, quote-free). */
  lemma PolicyPriorityQuoted(pre: string, v: string)
    requires '"' !in pre && '"' !in v && v != ""
    ensures PolicyPriorityOption(pre + PolicyPriorityKey + v + "\"") == Some(v)
  {
    var s := pre + PolicyPriorityKey + v + "\"";
    var k := |pre| + |PolicyPriorityKey| - 1;
    var e := |s| - 1;
    assert MatchAt(s, PolicyPriorityKey, |pre|) by {
      assert s[|pre|..|pre| + |PolicyPriorityKey|] == PolicyPriorityKey;
    }
    assert MatchAt(s, "\"", k) && MatchAt(s, "\"", e);
    forall i | 0 <= i < k ensures !MatchAt(s, "\"", i) {
      assert s[i] == (pre + PolicyPriorityKey)[i];
      if i >= |pre| {
        assert s[i] == PolicyPriorityKey[i - |pre|];
      }
    }
    forall j | k < j < e ensures !MatchAt(s, "\"", j) {
      if j > k {
        assert s[j] == v[j - k - 1];
      }
    }
    var f := Find(s, "\"");
    assert f == k;
    var l := RFind(s, "\"");
    assert l == e;
    assert s[k + 1..e] == v;
  }

  /**
   * The smart-group options read from the fields at k, k+1, k+2 and k+3
   * (uselightgbm, collectdata, strategy, policy-priority); absent fields leave
   * the configuration as it is.
   */
  function SmartOptions(v: seq<string>, k: nat, c: ProxyGroupConfig): (r: ProxyGroupConfig)
    ensures r.(UseLightGBM := c.UseLightGBM, CollectData := c.CollectData, SmartStrategyType := c.SmartStrategyType,
               PolicyPriority := c.PolicyPriority, PolicyPrioritySet := c.PolicyPrioritySet) == c
    ensures r.UseLightGBM == (if |v| > k then Set(LightGbmOption(v[k])) else c.UseLightGBM)
    ensures r.CollectData == (if |v| > k + 1 then Set(CollectDataOption(v[k + 1])) else c.CollectData)
    ensures r.SmartStrategyType == (if |v| > k + 2 then StrategyOption(v[k + 2]) else c.SmartStrategyType)
    ensures r.PolicyPrioritySet != c.PolicyPrioritySet ==> r.PolicyPrioritySet == Set(true)
  {
    var c1 := if |v| > k then c.(UseLightGBM := Set(LightGbmOption(v[k]))) else c;
    var c2 := if |v| > k + 1 then c1.(CollectData := Set(CollectDataOption(v[k + 1]))) else c1;
    var c3 := if |v| > k + 2 then c2.(SmartStrategyType := StrategyOption(v[k + 2])) else c2;
    if |v| > k + 3 && PolicyPriorityOption(v[k + 3]).Some? then
      c3.(PolicyPriority := PolicyPriorityOption(v[k + 3]).value, PolicyPrioritySet := Set(true))
    else c3
  }

  predicate TimedType(t: ProxyGroupType)
  {
    t == URLTest || t == LoadBalance || t == Fallback
  }

  /** A smart group's field 4 holds its times when it starts with a digit. */
  predicate SmartHasTimes(v: seq<string>)
  {
    |v| > 4 && v[4] != "" && IsDigit(v[4][0])
  }

  /** The configuration one custom_proxy_group line yields, or None when the reader skips it. */
  function GroupEntry(lib: Lib, x: string): (r: Option<ProxyGroupConfig>)
  {
    var v := lib.split(x, "`");
    if |v| < 3 then None
    else
      match ParseGroupType(v[1])
      case None => None
      case Some(t) =>
        var conf := NewGroupConfig(t).(Name := v[0]);
        if TimedType(t) then
          if |v| < 5 then None
          else Some(WithRules(lib, WithTimes(conf.(Url := v[|v| - 2]), lib.parseGroupTimes(v[|v| - 1])), v, |v| - 2))
        else if t == Smart then
          if |v| < 4 then None
          else if SmartHasTimes(v) then
            Some(WithRules(lib, SmartOptions(v, 5, WithTimes(conf.(Url := v[3]), lib.parseGroupTimes(v[4]))), v, 3))
          else
            Some(WithRules(lib, SmartOptions(v, 4, conf.(Url := v[3])), v, 3))
        else Some(WithRules(lib, conf, v, |v|))
  }

  function GroupEntries(lib: Lib, arr: seq<string>): seq<ProxyGroupConfig>
  {
    Survivors(x => GroupEntry(lib, x), arr)
  }

  /**
   * A line is skipped exactly when it has fewer than three fields, an unknown
   * type, or too few fields for its type (five for timed groups, four for smart).
   */
  lemma GroupEntrySkipped(lib: Lib, x: string)
    ensures var v := lib.split(x, "`");
      GroupEntry(lib, x).None? <==>
        |v| < 3 || ParseGroupType(v[1]).None?
        || (TimedType(ParseGroupType(v[1]).value) && |v| < 5)
        || (ParseGroupType(v[1]).value == Smart && |v| < 4)
  {
  }

  /** A kept line's first field is the name and its second the keyword of the group's type. */
  lemma GroupEntryHeader(lib: Lib, x: string)
    requires GroupEntry(lib, x).Some?
    ensures var v := lib.split(x, "`");
      |v| >= 3 && GroupEntry(lib, x).value.Name == v[0] && GroupEntry(lib, x).value.TypeStr() == v[1]
  {
    ParseGroupTypeExact(lib.split(x, "`")[1]);
  }

  /**
   * url-test, fallback and load-balance: the url is the next-to-last field, the
   * last field holds the times, and the rules are fields 2 to n-3.
   */
  lemma TimedGroupLayout(lib: Lib, x: string)
    requires GroupEntry(lib, x).Some? && TimedType(GroupEntry(lib, x).value.Type)
    ensures var v := lib.split(x, "`"); var c := GroupEntry(lib, x).value;
      |v| >= 5 && c.Url == v[|v| - 2]
      && lib.parseGroupTimes(v[|v| - 1]) == GroupTimes(c.Interval, c.Timeout, c.Tolerance)
      && c.Proxies == RuleProxies(v[2..|v| - 2]) && c.UsingProvider == RuleProviders(lib, v[2..|v| - 2])
  {
  }

  /** Other non-smart groups: every field after the type is a rule. */
  lemma PlainGroupLayout(lib: Lib, x: string)
    requires GroupEntry(lib, x).Some?
    requires !TimedType(GroupEntry(lib, x).value.Type) && GroupEntry(lib, x).value.Type != Smart
    ensures var v := lib.split(x, "`"); var c := GroupEntry(lib, x).value;
      c.Url == "" && c.Proxies == RuleProxies(v[2..]) && c.UsingProvider == RuleProviders(lib, v[2..])
      && c.Interval == 0 && c.Timeout == 0 && c.Tolerance == 0
  {
    var v := lib.split(x, "`");
    assert v[2..|v|] == v[2..];
  }

  /** smart groups: the url is field 3 and field 2 is the only rule. */
  lemma SmartGroupLayout(lib: Lib, x: string)
    requires GroupEntry(lib, x).Some? && GroupEntry(lib, x).value.Type == Smart
    ensures var v := lib.split(x, "`"); var c := GroupEntry(lib, x).value;
      |v| >= 4 && c.Url == v[3]
      && c.Proxies == RuleProxies([v[2]]) && c.UsingProvider == RuleProviders(lib, [v[2]])
      && (SmartHasTimes(v) ==> lib.parseGroupTimes(v[4]) == GroupTimes(c.Interval, c.Timeout, c.Tolerance))
      && (!SmartHasTimes(v) ==> c.Interval == 0 && c.Timeout == 0 && c.Tolerance == 0)
  {
    var v := lib.split(x, "`");
    assert v[2..3] == [v[2]];
  }

  /**
   * smart groups: an option that no field from 4 on sets keeps its default
   * (uselightgbm true, collectdata false, sticky-sessions).
   */
  lemma SmartOptionDefaults(lib: Lib, x: string)
    requires GroupEntry(lib, x).Some? && GroupEntry(lib, x).value.Type == Smart
    ensures var v := lib.split(x, "`"); var c := GroupEntry(lib, x).value;
      ((forall j :: 4 <= j < |v| ==> !Contains(v[j], "uselightgbm=false")) ==> c.UseLightGBM == Set(true))
      && ((forall j :: 4 <= j < |v| ==> !Contains(v[j], "collectdata=true")) ==> c.CollectData == Set(false))
      && ((forall j :: 4 <= j < |v| ==> !Contains(v[j], "strategy=round-robin")) ==> c.SmartStrategyType == StickySessions)
  {
  }

  /** The rules loop: fields 2 to upper-1 go to the providers or the proxies. */
  method CollectRules(lib: Lib, v: seq<string>, upper: nat, conf: ProxyGroupConfig) returns (c: ProxyGroupConfig)
    requires 2 <= upper <= |v|
    ensures c == WithRules(lib, conf, v, upper)
  {
    c := conf;
    var i := 2;
    while i < upper
      invariant 2 <= i <= upper
      invariant c == WithRules(lib, conf, v, i)
    {
      assert v[2..i + 1][..i - 2] == v[2..i];
      if IsProviderRule(v[i]) {
        var list := lib.split(v[i][|ProviderPrefix|..], ",");
        c := c.(UsingProvider := c.UsingProvider + list);
      } else {
        c := c.(Proxies := c.Proxies + [v[i]]);
      }
      i := i + 1;
    }
  }

  /** The four optional smart-group fields starting at index k. */
  method ApplySmartOptions(v: seq<string>, k: nat, conf: ProxyGroupConfig) returns (c: ProxyGroupConfig)
    ensures c == SmartOptions(v, k, conf)
  {
    c := conf;
    if |v| > k {
      var s := v[k];
      if Contains(s, "uselightgbm=true") {
        c := c.(UseLightGBM := Set(true));
      } else if Contains(s, "uselightgbm=false") {
        c := c.(UseLightGBM := Set(false));
      } else {
        c := c.(UseLightGBM := Set(true));
      }
    }
    ghost var c1 := c;
    if |v| > k + 1 {
      var s := v[k + 1];
      if Contains(s, "collectdata=true") {
        c := c.(CollectData := Set(true));
      } else if Contains(s, "collectdata=false") {
        c := c.(CollectData := Set(false));
      } else {
        c := c.(CollectData := Set(false));
      }
    }
    assert c == if |v| > k + 1 then c1.(CollectData := Set(CollectDataOption(v[k + 1]))) else c1;
    ghost var c2 := c;
    if |v| > k + 2 {
      var s := v[k + 2];
      if Contains(s, "strategy=round-robin") {
        c := c.(SmartStrategyType := SmartStrategy.RoundRobin);
      } else if Contains(s, "strategy=sticky-sessions") {
        c := c.(SmartStrategyType := StickySessions);
      } else {
        c := c.(SmartStrategyType := StickySessions);
      }
    }
    assert c == if |v| > k + 2 then c2.(SmartStrategyType := StrategyOption(v[k + 2])) else c2;
    if |v| > k + 3 {
      var s := v[k + 3];
      if Contains(s, PolicyPriorityKey) {
        var start := Find(s, "\"") + 1;
        var end := RFind(s, "\"");
        if end > start {
          var value := s[start..end];
          if value != "" {
            c := c.(PolicyPriority := value, PolicyPrioritySet := Set(true));
          }
        }
      }
    }
  }

  /** The body of the reader's loop for one line: the configuration, or None for `continue`. */
  method ParseGroupEntry(lib: Lib, x: string) returns (r: Option<ProxyGroupConfig>)
    ensures r == GroupEntry(lib, x)
  {
    var v := lib.split(x, "`");
    if |v| < 3 {
      return None;
    }
    var t := ParseGroupType(v[1]);
    if t.None? {
      return None;
    }
    var conf := NewGroupConfig(t.value).(Name := v[0]);
    var upper: nat := |v|;
    if TimedType(conf.Type) {
      if upper < 5 {
        return None;
      }
      upper := upper - 2;
      conf := conf.(Url := v[upper]);
      conf := WithTimes(conf, lib.parseGroupTimes(v[upper + 1]));
    } else if conf.Type == Smart {
      if upper < 4 {
        return None;
      }
      conf := conf.(Url := v[3]);
      if |v| > 4 && v[4] != "" && IsDigit(v[4][0]) {
        conf := WithTimes(conf, lib.parseGroupTimes(v[4]));
        upper := 3;
        conf := ApplySmartOptions(v, 5, conf);
      } else {
        upper := 3;
        conf := ApplySmartOptions(v, 4, conf);
      }
    }
    conf := CollectRules(lib, v, upper, conf);
    return Some(conf);
  }

  /** from<ProxyGroupConfig>::from_ini: one configuration per kept line, in input order. */
  method GroupsFromIni(lib: Lib, arr: seq<string>) returns (confs: seq<ProxyGroupConfig>)
    ensures confs == GroupEntries(lib, arr)
  {
    confs := [];
    for i := 0 to |arr|
      invariant confs == GroupEntries(lib, arr[..i])
    {
      assert arr[..i + 1][..i] == arr[..i];
      var r := ParseGroupEntry(lib, arr[i]);
      if r.Some? {
        confs := confs + [r.value];
      }
    }
    assert arr[..|arr|] == arr;
  }

  // ---------------------------------------------------------------------------
  // Rulesets: group,url[,interval]  or  group,[]rule
  // ---------------------------------------------------------------------------

  /**
   * RulesetConfig as the INI reader fills it.  `Interval` is None when the line
   * gives none, so the record keeps the default of its declaration (the ruleset
   * header is not part of this model).
   */
  datatype RulesetConfig = RulesetConfig(Group: string, Url: string, Interval: Option<int>)

  /** The ruleset one line yields, or None when the line holds no comma. */
  function RulesetEntry(lib: Lib, x: string): (r: Option<RulesetConfig>)
    ensures r.Some? ==> |r.value.Group| < |x| && x[|r.value.Group|] == ','
  {
    var pos := Find(x, ",");
    if pos == -1 then None
    else
      var group := x[..pos];
      var rest := x[pos + 1..];
      if StartsWith(rest, "[]") then Some(RulesetConfig(group, rest, None))
      else
        var epos := RFind(x, ",");
        if pos != epos then
          assert pos < epos;
          Some(RulesetConfig(group, x[pos + 1..epos], Some(lib.toInt(x[epos + 1..]))))
        else Some(RulesetConfig(group, rest, None))
  }

  function RulesetEntries(lib: Lib, arr: seq<string>): seq<RulesetConfig>
  {
    Survivors(x => RulesetEntry(lib, x), arr)
  }

  /** A line is skipped exactly when it holds no comma. */
  lemma RulesetSkipped(lib: Lib, x: string)
    ensures RulesetEntry(lib, x).None? <==> ',' !in x
  {
    if ',' !in x {
      CharAbsent(x, ',');
    } else {
      var k :| 0 <= k < |x| && x[k] == ',';
      CharMatch(x, ',', k);
    }
  }

  /** "group,[]rest": the url is "[]rest" verbatim, commas and all, with no interval. */
  lemma RulesetInlineRule(lib: Lib, group: string, rest: string)
    requires ',' !in group
    ensures RulesetEntry(lib, group + "," + "[]" + rest) == Some(RulesetConfig(group, "[]" + rest, None))
  {
    var x := group + "," + "[]" + rest;
    FindCharAt(x, ',', |group|);
    assert x[..|group|] == group;
    assert x[|group| + 1..] == "[]" + rest;
    StartsWithConcat("[]", rest);
  }

  /** "group,url": one comma, the url is the rest, and no interval. */
  lemma RulesetNoInterval(lib: Lib, group: string, url: string)
    requires ',' !in group && ',' !in url && !StartsWith(url, "[]")
    ensures RulesetEntry(lib, group + "," + url) == Some(RulesetConfig(group, url, None))
  {
    var x := group + "," + url;
    FindCharAt(x, ',', |group|);
    assert x[|group| + 1..] == url;
    RFindCharAt(x, ',', |group|);
    assert x[..|group|] == group;
  }

  /**
   * "group,url,interval": the url is the text between the first and the last
   * comma, and the interval is the number after the last comma.
   */
  lemma RulesetWithInterval(lib: Lib, group: string, url: string, interval: string)
    requires ',' !in group && ',' !in interval && !StartsWith(url, "[]")
    ensures RulesetEntry(lib, group + "," + url + "," + interval)
            == Some(RulesetConfig(group, url, Some(lib.toInt(interval))))
  {
    var x := group + "," + url + "," + interval;
    var p := |group|;
    var e := |group| + 1 + |url|;
    assert x[..p] == group;
    assert x[p + 1..] == url + "," + interval;
    assert x[p + 1..e] == url;
    assert x[e + 1..] == interval;
    FindCharAt(x, ',', p);
    RFindCharAt(x, ',', e);
    if |url| >= 2 {
      assert (url + "," + interval)[..2] == url[..2];
    } else {
      assert (url + "," + interval)[|url|] == ',';
    }
  }

  /** The body of the ruleset reader's loop for one line: the ruleset, or None for `continue`. */
  method ParseRulesetEntry(lib: Lib, x: string) returns (r: Option<RulesetConfig>)
    ensures r == RulesetEntry(lib, x)
  {
    var conf := RulesetConfig("", "", None);
    var pos := Find(x, ",");
    if pos == -1 {
      return None;
    }
    conf := conf.(Group := x[..pos]);
    if StartsWith(x[pos + 1..], "[]") {
      conf := conf.(Url := x[pos + 1..]);
      return Some(conf);
    }
    var epos := RFind(x, ",");
    if pos != epos {
      conf := conf.(Interval := Some(lib.toInt(x[epos + 1..])));
      conf := conf.(Url := x[pos + 1..epos]);
    } else {
      conf := conf.(Url := x[pos + 1..]);
    }
    return Some(conf);
  }

  /** from<RulesetConfig>::from_ini: one ruleset per line that holds a comma, in input order. */
  method RulesetsFromIni(lib: Lib, arr: seq<string>) returns (confs: seq<RulesetConfig>)
    ensures confs == RulesetEntries(lib, arr)
  {
    confs := [];
    for i := 0 to |arr|
      invariant confs == RulesetEntries(lib, arr[..i])
    {
      assert arr[..i + 1][..i] == arr[..i];
      var r := ParseRulesetEntry(lib, arr[i]);
      if r.Some? {
        confs := confs + [r.value];
      }
    }
    assert arr[..|arr|] == arr;
  }

  // ---------------------------------------------------------------------------
  // Cron tasks: name`cronexp`path[`timeout]
  // ---------------------------------------------------------------------------

  /** CronTaskConfig as the INI reader fills it; `Timeout` None keeps the declared default. */
  datatype CronTaskConfig = CronTaskConfig(Name: string, CronExp: string, Path: string, Timeout: Option<int>)

  function CronEntry(lib: Lib, x: string): Option<CronTaskConfig>
  {
    var v := lib.split(x, "`");
    if |v| < 3 then None
    else Some(CronTaskConfig(v[0], v[1], v[2], if |v| > 3 then Some(lib.toInt(v[3])) else None))
  }

  /** A line needs three fields; the timeout is read only from a fourth field. */
  lemma CronEntryFields(lib: Lib, x: string)
    ensures var v := lib.split(x, "`");
      (CronEntry(lib, x).None? <==> |v| < 3)
      && (CronEntry(lib, x).Some? ==>
            var c := CronEntry(lib, x).value;
            c.Name == v[0] && c.CronExp == v[1] && c.Path == v[2]
            && (c.Timeout.Some? <==> |v| > 3)
            && (|v| > 3 ==> c.Timeout == Some(lib.toInt(v[3]))))
  {
  }

  function CronEntries(lib: Lib, arr: seq<string>): seq<CronTaskConfig>
  {
    Survivors(x => CronEntry(lib, x), arr)
  }

  /** from<CronTaskConfig>::from_ini: one task per line of at least three fields, in input order. */
  method CronTasksFromIni(lib: Lib, arr: seq<string>) returns (confs: seq<CronTaskConfig>)
    ensures confs == CronEntries(lib, arr)
  {
    confs := [];
    for i := 0 to |arr|
      invariant confs == CronEntries(lib, arr[..i])
    {
      assert arr[..i + 1][..i] == arr[..i];
      var x := arr[i];
      var conf := CronTaskConfig("", "", "", None);
      var v := lib.split(x, "`");
      if |v| < 3 {
        continue;
      }
      conf := conf.(Name := v[0], CronExp := v[1], Path := v[2]);
      if |v| > 3 {
        conf := conf.(Timeout := Some(lib.toInt(v[3])));
      }
      confs := confs + [conf];
    }
    assert arr[..|arr|] == arr;
  }

  // ---------------------------------------------------------------------------
  // Rename and emoji rules: match<delimiter>replace  or  script:code
  // ---------------------------------------------------------------------------

  datatype RegexMatchConfig = RegexMatchConfig(Match: string, Replace: string, Script: string)

  /**
   * The rule one line yields.  The delimiter is non-empty (the callers pass "@");
   * the replacement starts one character after the last delimiter, whatever the
   * delimiter's length.
   */
  function RegexEntry(x: string, delimiter: string): (r: RegexMatchConfig)
    requires delimiter != ""
    ensures StartsWith(x, "script:") ==> r == RegexMatchConfig("", "", x[7..])
    ensures !StartsWith(x, "script:") ==> r.Script == "" && |r.Match| <= |x| && r.Match == x[..|r.Match|]
  {
    if StartsWith(x, "script:") then RegexMatchConfig("", "", x[7..])
    else
      var pos := RFind(x, delimiter);
      var replace := if pos != -1 && pos < |x| - 1 then x[pos + 1..] else "";
      RegexMatchConfig(if pos == -1 then x else x[..pos], replace, "")
  }

  function RegexEntries(arr: seq<string>, delimiter: string): seq<RegexMatchConfig>
    requires delimiter != ""
  {
    Survivors(x => Some(RegexEntry(x, delimiter)), arr)
  }

  /** Without the delimiter the whole line is the match and there is no replacement. */
  lemma RegexNoDelimiter(x: string, delimiter: string)
    requires delimiter != "" && !StartsWith(x, "script:") && !Contains(x, delimiter)
    ensures RegexEntry(x, delimiter) == RegexMatchConfig(x, "", "")
  {
  }

  /**
   * With a one-character delimiter d: the line m + d + rep, whose replacement
   * holds no d, splits back into m and rep (rep empty: no replacement).
   */
  lemma RegexSplitAtLast(m: string, d: char, rep: string)
    requires d !in rep && !StartsWith(m + [d] + rep, "script:")
    ensures RegexEntry(m + [d] + rep, [d]) == RegexMatchConfig(m, rep, "")
  {
    var x := m + [d] + rep;
    RFindCharAt(x, d, |m|);
    assert x[..|m|] == m;
    assert x[|m| + 1..] == rep;
  }

  /** from<RegexMatchConfig>::from_ini: one rule per line, in input order. */
  method RegexMatchesFromIni(arr: seq<string>, delimiter: string) returns (confs: seq<RegexMatchConfig>)
    requires delimiter != ""
    ensures confs == RegexEntries(arr, delimiter)
    ensures |confs| == |arr|
  {
    confs := [];
    for i := 0 to |arr|
      invariant confs == RegexEntries(arr[..i], delimiter)
      invariant |confs| == i
    {
      assert arr[..i + 1][..i] == arr[..i];
      var x := arr[i];
      var conf := RegexMatchConfig("", "", "");
      if StartsWith(x, "script:") {
        conf := conf.(Script := x[7..]);
        confs := confs + [conf];
        continue;
      }
      var pos := RFind(x, delimiter);
      conf := conf.(Match := if pos == -1 then x else x[..pos]);
      if pos != -1 && pos < |x| - 1 {
        conf := conf.(Replace := x[pos + 1..]);
      }
      confs := confs + [conf];
    }
    assert arr[..|arr|] == arr;
  }
}
