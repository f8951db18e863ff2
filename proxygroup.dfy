// The proxy-group configuration record of src/config/proxygroup.h: the three
// enumerations, the record with its defaults, and the keyword renderings.

module ProxyGroups {
  import opened Utils

  datatype ProxyGroupType = Select | URLTest | Fallback | LoadBalance | Relay | SSID | Smart

  datatype BalanceStrategy = ConsistentHashing | RoundRobin

  datatype SmartStrategy = StickySessions | RoundRobin

  /**
   * ProxyGroupConfig.  The `Boolean` fields are three-valued: unset until a
   * configuration sets them.
   */
  datatype ProxyGroupConfig = ProxyGroupConfig(
    Name: string,
    Type: ProxyGroupType,
    Proxies: seq<string>,
    UsingProvider: seq<string>,
    Url: string,
    Interval: int,
    Timeout: int,
    Tolerance: int,
    Strategy: BalanceStrategy,
    SmartStrategyType: SmartStrategy,
    PolicyPriority: string,
    PolicyPrioritySet: Tribool,
    Lazy: Tribool,
    DisableUdp: Tribool,
    Persistent: Tribool,
    EvaluateBeforeUse: Tribool,
    UseLightGBM: Tribool,
    CollectData: Tribool)
  {
    /** TypeStr: the group type as the keyword used in configuration files. */
    function TypeStr(): (r: string)
      ensures r != ""
    {
      TypeKeyword(Type)
    }

    /** StrategyStr: the load-balance strategy keyword. */
    function StrategyStr(): (r: string)
      ensures r == "consistent-hashing" <==> Strategy == ConsistentHashing
      ensures r == "round-robin" <==> Strategy == BalanceStrategy.RoundRobin
    {
      match Strategy
      case ConsistentHashing => "consistent-hashing"
      case RoundRobin => "round-robin"
    }

    /** SmartStrategyStr: the smart-group strategy keyword. */
    function SmartStrategyStr(): (r: string)
      ensures r == "sticky-sessions" <==> SmartStrategyType == StickySessions
      ensures r == "round-robin" <==> SmartStrategyType == SmartStrategy.RoundRobin
    {
      match SmartStrategyType
      case StickySessions => "sticky-sessions"
      case RoundRobin => "round-robin"
    }
  }

  /** The keyword of each group type (the switch of TypeStr). */
  function TypeKeyword(t: ProxyGroupType): string
  {
    match t
    case Select => "select"
    case URLTest => "url-test"
    case LoadBalance => "load-balance"
    case Fallback => "fallback"
    case Relay => "relay"
    case SSID => "ssid"
    case Smart => "smart"
  }

  /**
   * The type switch of the INI reader (src/config/binding.h:231-256): the seven
   * keywords, anything else is not a group type.
   */
  function ParseGroupType(s: string): (r: Option<ProxyGroupType>)
  {
    if s == "select" then Some(Select)
    else if s == "relay" then Some(Relay)
    else if s == "url-test" then Some(URLTest)
    else if s == "fallback" then Some(Fallback)
    else if s == "load-balance" then Some(LoadBalance)
    else if s == "ssid" then Some(SSID)
    else if s == "smart" then Some(Smart)
    else None
  }

  /** The seven keywords are non-empty and pairwise distinct. */
  lemma TypeKeywordInjective(t: ProxyGroupType, u: ProxyGroupType)
    ensures TypeKeyword(t) != ""
    ensures TypeKeyword(t) == TypeKeyword(u) ==> t == u
  {
  }

  /** Reading back the keyword of a type gives that type. */
  lemma TypeKeywordRoundTrip(t: ProxyGroupType)
    ensures ParseGroupType(TypeKeyword(t)) == Some(t)
  {
  }

  /** The reader accepts exactly the seven keywords, each naming the type it renders. */
  lemma ParseGroupTypeExact(s: string)
    ensures ParseGroupType(s).Some? ==> TypeKeyword(ParseGroupType(s).value) == s
    ensures ParseGroupType(s).None? <==> forall t: ProxyGroupType :: TypeKeyword(t) != s
  {
    if ParseGroupType(s).None? {
      forall t: ProxyGroupType ensures TypeKeyword(t) != s {
        TypeKeywordRoundTrip(t);
      }
    }
  }

  /**
   * A freshly declared ProxyGroupConfig.  The source gives `Type` no initialiser;
   * every reader assigns it before use, so the type is a parameter here.
   */
  function NewGroupConfig(t: ProxyGroupType): (c: ProxyGroupConfig)
    ensures c.Type == t && c.Name == "" && c.Url == "" && c.Proxies == [] && c.UsingProvider == []
    ensures c.Interval == 0 && c.Timeout == 0 && c.Tolerance == 0
    ensures c.Strategy == ConsistentHashing && c.SmartStrategyType == StickySessions
    ensures c.StrategyStr() == "consistent-hashing" && c.SmartStrategyStr() == "sticky-sessions"
    ensures c.PolicyPrioritySet == Set(false) && c.UseLightGBM == Set(true) && c.CollectData == Set(false)
    ensures c.Lazy == Indeterminate && c.DisableUdp == Indeterminate
    ensures c.Persistent == Indeterminate && c.EvaluateBeforeUse == Indeterminate
  {
    ProxyGroupConfig("", t, [], [], "", 0, 0, 0, ConsistentHashing, StickySessions, "", Set(false),
                     Indeterminate, Indeterminate, Indeterminate, Indeterminate, Set(true), Set(false))
  }
}
