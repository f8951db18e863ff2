// The helper library the decoders lean on (utils/ in the repository) is not part of
// this model.  Its functions are gathered in the record `Lib` and passed to every
// operation that calls them, so what is proved here holds for every implementation
// of those helpers.  Parsed JSON and YAML documents are abstract trees.

module Utils {

  datatype Option<T> = None | Some(value: T)

  /** The three-valued flag of utils/tribool.h: unset, or set to a boolean. */
  datatype Tribool = Indeterminate | Set(b: bool)

  /**
   * A parsed JSON or YAML document.  Scalars keep their text (numbers and
   * booleans included); a missing member reads as `Null`.
   */
  datatype Tree =
    | Null
    | Scalar(text: string)
    | List(items: seq<Tree>)
    | Dict(entries: seq<(string, Tree)>)

  /** The value stored under `key` in an object (the first such entry), `Null` otherwise. */
  function Member(t: Tree, key: string): (r: Tree)
    ensures r != Null ==> HasMember(t, key)
    decreases if t.Dict? then |t.entries| else 0
  {
    match t
    case Dict(es) =>
      if es == [] then Null
      else if es[0].0 == key then es[0].1
      else Member(Dict(es[1..]), key)
    case _ => Null
  }

  predicate HasMember(t: Tree, key: string)
  {
    t.Dict? && exists i :: 0 <= i < |t.entries| && t.entries[i].0 == key
  }

  /** The text of a scalar, "" for anything else (rapidjson_ext::GetMember, safe_as<std::string>). */
  function AsText(t: Tree): string
  {
    if t.Scalar? then t.text else ""
  }

  function GetMember(t: Tree, key: string): string
  {
    AsText(Member(t, key))
  }

  /**
   * The assigning form GetMember(json, key, target) of the JSON helper: the member's
   * text replaces `target` only when it is not empty.
   */
  function GetMemberInto(t: Tree, key: string, target: string): (r: string)
    ensures GetMember(t, key) != "" ==> r == GetMember(t, key)
    ensures GetMember(t, key) == "" ==> r == target
  {
    var v := GetMember(t, key);
    if v != "" then v else target
  }

  lemma Associative<T>(a: seq<T>, b: seq<T>, c: seq<T>)
    ensures (a + b) + c == a + (b + c)
  {
  }

  /** Number of elements of an array, 0 for anything else. */
  function Size(t: Tree): nat
  {
    if t.List? then |t.items| else 0
  }

  function Item(t: Tree, i: nat): Tree
  {
    if t.List? && i < |t.items| then t.items[i] else Null
  }

  /** The uint16_t truncation of a C++ int (conversion to unsigned is modulo 2^16). */
  type U16 = x: int | 0 <= x < 0x1_0000
  type U32 = x: int | 0 <= x < 0x1_0000_0000

  function ToU16(x: int): (r: U16)
    ensures 0 <= x < 0x1_0000 ==> r == x
    ensures (r - x) % 0x1_0000 == 0
  {
    x % 0x1_0000
  }

  function ToU32(x: int): (r: U32)
    ensures 0 <= x < 0x1_0000_0000 ==> r == x
    ensures (r - x) % 0x1_0000_0000 == 0
  {
    x % 0x1_0000_0000
  }

  /** The interval, timeout and tolerance parsed from a "interval[,timeout][,tolerance]" field. */
  datatype GroupTimes = GroupTimes(interval: int, timeout: int, tolerance: int)

  /**
   * The helper functions of utils/ (string.h, base64, urlencode, network.h,
   * regexp.h, rapidjson/yaml-cpp/INI readers) and of the platform.
   */
  datatype Lib = Lib(
    toInt: string -> int,                       // to_int(s) with default 0
    urlDecode: string -> string,
    urlSafeBase64Decode: string -> string,
    urlSafeBase64Encode: string -> string,
    base64Decode: string -> string,
    getUrlArg: (string, string) -> string,      // getUrlArg(query, name)
    tribool: string -> Tribool,                 // tribool constructed from text
    trim: string -> string,
    trimWhitespace: string -> string,
    trimQuote: string -> string,                // trimQuote(s)
    trimOf: (string, char) -> string,           // trimOf(s, c)
    split: (string, string) -> seq<string>,
    isIPv4: string -> bool,
    isIPv6: string -> bool,
    isLink: string -> bool,
    parseJson: string -> Option<Tree>,          // None: HasParseError()
    serializeJson: Tree -> string,
    parseYaml: string -> Option<Tree>,          // None: YAML::Load threw
    yamlBool: Tree -> bool,                     // safe_as<bool>(node)
    clashBlock: string -> string,               // the proxies block cut out of a Clash file
    surgeProxySection: string -> Option<seq<string>>,       // lines of [Proxy], None: no such section
    iniSection: (string, string) -> seq<(string, string)>, // key/value items of a named section
    base64Encode: string -> string,
    regGetMatch: (string, string) -> Option<seq<string>>,  // regGetMatch(s, pattern): the capture groups
    regGetAllMatch: (string, string) -> seq<string>,       // regGetAllMatch(s, pattern, true): every group of every match
    regMatch: (string, string) -> bool,         // regMatch(s, pattern): the whole text matches
    regFind: (string, string) -> bool,          // regFind(s, pattern): some part of the text matches
    regReplace: (string, string, string) -> string,        // regReplace(s, pattern, replacement)
    removeBpsUnit: string -> string,            // regReplace(s, " ?(\\w*bps)", "")
    parseGroupTimes: string -> GroupTimes,
    systemProxy: string,                        // getSystemProxy()
    versionMatch: (string, string) -> Option<string>       // regGetMatch(ua, pattern): first group
  )
}
