// The self-contained helpers of src/handler/interfaces.cpp: proxy setting
// resolution, dotted-version comparison, the user-agent table, the multimap
// merge helpers of the profile handler, and the per-line rewrite that turns a
// rule list into a Clash rule-provider or a Surge domain set.

module Interfaces {
  import opened Utils
  import opened Text

  /** parseProxy: "SYSTEM" is the platform's proxy, "NONE" is no proxy, anything else is used as given. */
  function ParseProxy(lib: Lib, source: string): (r: string)
    ensures source == "SYSTEM" ==> r == lib.systemProxy
    ensures source == "NONE" ==> r == ""
    ensures source != "SYSTEM" && source != "NONE" ==> r == source
  {
    if source == "SYSTEM" then lib.systemProxy
    else if source == "NONE" then ""
    else source
  }

  // ---------------------------------------------------------------------------
  // verGreaterEqual: two istringstreams read alternately `>> int` and `>> char`
  // ---------------------------------------------------------------------------

  /** The position of the first character at or after `pos` that is not white space. */
  function SkipSpace(s: string, pos: nat): (p: nat)
    requires pos <= |s|
    ensures pos <= p <= |s|
    decreases |s| - pos
  {
    if pos < |s| && IsSpace(s[pos]) then SkipSpace(s, pos + 1) else pos
  }

  /** The end of the run of decimal digits starting at `pos`. */
  function DigitRun(s: string, pos: nat): (p: nat)
    requires pos <= |s|
    ensures pos <= p <= |s| && AllDigits(s[pos..p])
    decreases |s| - pos
  {
    if pos < |s| && IsDigit(s[pos]) then
      var p := DigitRun(s, pos + 1);
      assert s[pos..p] == [s[pos]] + s[pos + 1..p];
      p
    else pos
  }

  const IntMin: int := -0x8000_0000
  const IntMax: int := 0x7fff_ffff

  /**
   * `stream >> n` for a 32-bit int at `pos`: white space, an optional sign, then
   * at least one digit; the value and the position after it, or None (failbit)
   * when there is no digit or the value does not fit in an int.
   */
  function ReadIntAt(s: string, pos: nat): (r: Option<(int, nat)>)
    requires pos <= |s|
    ensures r.Some? ==> pos < r.value.1 <= |s| && IntMin <= r.value.0 <= IntMax
    ensures var p := SkipSpace(s, pos);
            p < |s| && IsDigit(s[p]) && DigitsValue(s[p..DigitRun(s, p)]) > IntMax ==> r.None?
  {
    var p := SkipSpace(s, pos);
    var q := if p < |s| && (s[p] == '+' || s[p] == '-') then p + 1 else p;
    var d := DigitRun(s, q);
    if d == q then None
    else
      var n: int := DigitsValue(s[q..d]);
      var v := if q > p && s[p] == '-' then -n else n;
      if v < IntMin || v > IntMax then None else Some((v, d))
  }

  /** `stream >> c` for a char at `pos`: the first character that is not white space, or None at the end. */
  function ReadCharAt(s: string, pos: nat): (r: Option<(char, nat)>)
    requires pos <= |s|
    ensures r.Some? ==> pos < r.value.1 <= |s|
  {
    var p := SkipSpace(s, pos);
    if p < |s| then Some((s[p], p + 1)) else None
  }

  /** The integers that reads of an int, a char, an int, ... from `pos` extract before the first failure. */
  function IntsFrom(s: string, pos: nat): seq<int>
    requires pos <= |s|
    decreases |s| - pos
  {
    match ReadIntAt(s, pos)
    case None => []
    case Some((n, p)) => [n] + CharThenInts(s, p)
  }

  /** The integers still to come after an int read, when the next read is a char. */
  function CharThenInts(s: string, pos: nat): seq<int>
    requires pos <= |s|
    decreases |s| - pos, 0
  {
    match ReadCharAt(s, pos)
    case None => []
    case Some((_, q)) => IntsFrom(s, q)
  }

  /** The components a version string yields to verGreaterEqual. */
  function VersionParts(s: string): seq<int>
  {
    IntsFrom(s, 0)
  }

  /**
   * The comparison verGreaterEqual computes on the components: the first
   * differing component decides; when one list runs out, the source is greater
   * or equal exactly when the target has no component left.
   */
  function VersionGE(a: seq<int>, b: seq<int>): bool
  {
    if a == [] then b == []
    else if b == [] then true
    else if a[0] != b[0] then a[0] > b[0]
    else VersionGE(a[1..], b[1..])
  }

  /** Every version is greater than or equal to itself. */
  lemma {:induction false} VersionGEReflexive(a: seq<int>)
    ensures VersionGE(a, a)
    decreases |a|
  {
    if a != [] {
      VersionGEReflexive(a[1..]);
    }
  }

  /** With equal leading components, the first differing component decides. */
  lemma {:induction false} VersionGEFirstDifference(a: seq<int>, b: seq<int>, k: nat)
    requires k < |a| && k < |b| && a[..k] == b[..k] && a[k] != b[k]
    ensures VersionGE(a, b) <==> a[k] > b[k]
    decreases k
  {
    if k > 0 {
      assert a[0] == a[..k][0] == b[..k][0] == b[0];
      assert a[1..][..k - 1] == a[1..k] == b[1..k] == b[1..][..k - 1];
      VersionGEFirstDifference(a[1..], b[1..], k - 1);
    }
  }

  /** Equal common components: extra source components give true, extra target components false. */
  lemma {:induction false} VersionGEExtraParts(common: seq<int>, extra: seq<int>)
    requires extra != []
    ensures VersionGE(common + extra, common)
    ensures !VersionGE(common, common + extra)
    decreases |common|
  {
    if common != [] {
      assert (common + extra)[1..] == common[1..] + extra;
      VersionGEExtraParts(common[1..], extra);
    }
  }

  /** VersionGE is a total order: any two versions compare, and both ways only when equal. */
  lemma {:induction false} VersionGETotal(a: seq<int>, b: seq<int>)
    ensures VersionGE(a, b) || VersionGE(b, a)
    ensures VersionGE(a, b) && VersionGE(b, a) ==> a == b
    decreases |a|
  {
    if a != [] && b != [] && a[0] == b[0] {
      VersionGETotal(a[1..], b[1..]);
      if a[1..] == b[1..] {
        assert a == [a[0]] + a[1..] && b == [b[0]] + b[1..];
      }
    }
  }

  /** One step of the comparison from component `i` on. */
  lemma VersionGEStep(a: seq<int>, b: seq<int>, i: nat)
    requires i < |a| && i <= |b|
    ensures VersionGE(a[i..], b[i..])
      == if i == |b| then true else if a[i] != b[i] then a[i] > b[i] else VersionGE(a[i + 1..], b[i + 1..])
  {
    if i < |b| {
      assert a[i..][1..] == a[i + 1..] && b[i..][1..] == b[i + 1..];
    }
  }

  /** An input string stream of a version, as `>>` reads it. */
  class VersionStream {
    const text: string
    var pos: nat
    var failed: bool

    ghost predicate Valid()
      reads this
    {
      pos <= |text|
    }

    /** The integers the stream will still yield when the next read is an int. */
    ghost function Pending(): seq<int>
      reads this
      requires Valid()
    {
      if failed then [] else IntsFrom(text, pos)
    }

    /** The integers the stream will still yield when the next read is a char. */
    ghost function PendingAfterInt(): seq<int>
      reads this
      requires Valid()
    {
      if failed then [] else CharThenInts(text, pos)
    }

    constructor(s: string)
      ensures Valid() && text == s && !failed && Pending() == VersionParts(s)
    {
      text := s;
      pos := 0;
      failed := false;
    }

    /** `stream >> n`: true and the value when an int could be read; a failed read sticks. */
    method ReadInt() returns (ok: bool, n: int)
      requires Valid()
      modifies this
      ensures Valid()
      ensures ok <==> old(Pending()) != []
      ensures ok ==> n == old(Pending())[0] && PendingAfterInt() == old(Pending())[1..]
      ensures !ok ==> failed
    {
      if failed {
        return false, 0;
      }
      var r := ReadIntAt(text, pos);
      if r.None? {
        failed := true;
        return false, 0;
      }
      n := r.value.0;
      pos := r.value.1;
      ok := true;
    }

    /** `stream >> c`: the separator after a component, whatever character it is. */
    method ReadChar() returns (ok: bool)
      requires Valid()
      modifies this
      ensures Valid()
      ensures Pending() == old(PendingAfterInt())
    {
      if failed {
        return false;
      }
      var r := ReadCharAt(text, pos);
      if r.None? {
        failed := true;
        return false;
      }
      pos := r.value.1;
      ok := true;
    }
  }

  /** verGreaterEqual: whether the version `srcVer` is at least `targetVer`. */
  method VerGreaterEqual(srcVer: string, targetVer: string) returns (r: bool)
    ensures r == VersionGE(VersionParts(srcVer), VersionParts(targetVer))
  {
    var src := new VersionStream(srcVer);
    var target := new VersionStream(targetVer);
    ghost var a := VersionParts(srcVer);
    ghost var b := VersionParts(targetVer);
    ghost var i := 0;
    var ok, srcPart := src.ReadInt();
    while ok
      invariant src.Valid() && target.Valid()
      invariant 0 <= i <= |a| && i <= |b|
      invariant VersionGE(a, b) == VersionGE(a[i..], b[i..])
      invariant target.Pending() == b[i..]
      invariant ok ==> i < |a| && srcPart == a[i] && src.PendingAfterInt() == a[i + 1..]
      invariant !ok ==> i == |a|
      decreases |a| - i, ok
    {
      var targetOk, targetPart := target.ReadInt();
      VersionGEStep(a, b, i);
      if !targetOk {
        return true;
      }
      if srcPart < targetPart {
        return false;
      } else if srcPart > targetPart {
        return true;
      }
      var _ := src.ReadChar();
      var _ := target.ReadChar();
      i := i + 1;
      ok, srcPart := src.ReadInt();
    }
    var targetOk, _ := target.ReadInt();
    return !targetOk;
  }

  /**
   * A version whose first component does not fit in an int yields no component:
   * the first `>>` fails, so it is below every version that has a component.
   */
  lemma OverflowingVersion(v: string, w: string)
    requires v != [] && IsDigit(v[0]) && DigitsValue(v[..DigitRun(v, 0)]) > IntMax
    requires VersionParts(w) != []
    ensures VersionParts(v) == []
    ensures !VersionGE(VersionParts(v), VersionParts(w))
  {
    assert SkipSpace(v, 0) == 0;
    assert ReadIntAt(v, 0).None?;
  }

  /** Every version string is at least itself. */
  lemma VerGreaterEqualReflexive(v: string)
    ensures VersionGE(VersionParts(v), VersionParts(v))
  {
    VersionGEReflexive(VersionParts(v));
  }

  // ---------------------------------------------------------------------------
  // matchUserAgent and UAMatchList
  // ---------------------------------------------------------------------------

  /**
   * A row of the user-agent table: the prefix, an optional version pattern and
   * minimum version, the target it selects, the Clash field-name flag and the
   * Surge version (-1: leave the caller's value).
   */
  datatype UAProfile = UAProfile(
    head: string,
    versionMatch: string,
    versionTarget: string,
    target: string,
    clashNewName: Tribool,
    surgeVer: int)

  const UAMatchList: seq<UAProfile> := [
    UAProfile("ClashForAndroid", "\\/([0-9.]+)", "2.0", "clash", Set(true), -1),
    UAProfile("ClashForAndroid", "\\/([0-9.]+)R", "", "clashr", Set(false), -1),
    UAProfile("ClashForAndroid", "", "", "clash", Set(false), -1),
    UAProfile("ClashforWindows", "\\/([0-9.]+)", "0.11", "clash", Set(true), -1),
    UAProfile("ClashforWindows", "", "", "clash", Set(false), -1),
    UAProfile("clash-verge", "", "", "clash", Set(true), -1),
    UAProfile("ClashX Pro", "", "", "clash", Set(true), -1),
    UAProfile("ClashX", "\\/([0-9.]+)", "0.13", "clash", Set(true), -1),
    UAProfile("Clash", "", "", "clash", Set(true), -1),
    UAProfile("clash.meta", "", "", "clash", Set(true), -1),
    UAProfile("Kitsunebi", "", "", "v2ray", Indeterminate, -1),
    UAProfile("Loon", "", "", "loon", Indeterminate, -1),
    UAProfile("Pharos", "", "", "mixed", Indeterminate, -1),
    UAProfile("Potatso", "", "", "mixed", Indeterminate, -1),
    UAProfile("Quantumult%20X", "", "", "quanx", Indeterminate, -1),
    UAProfile("Quantumult", "", "", "quan", Indeterminate, -1),
    UAProfile("Qv2ray", "", "", "v2ray", Indeterminate, -1),
    UAProfile("Shadowrocket", "", "", "mixed", Indeterminate, -1),
    UAProfile("Surfboard", "", "", "surfboard", Indeterminate, -1),
    UAProfile("Surge", "\\/([0-9.]+).*x86", "906", "surge", Set(false), 4),
    UAProfile("Surge", "\\/([0-9.]+).*x86", "368", "surge", Set(false), 3),
    UAProfile("Surge", "\\/([0-9.]+)", "1419", "surge", Set(false), 4),
    UAProfile("Surge", "\\/([0-9.]+)", "900", "surge", Set(false), 3),
    UAProfile("Surge", "", "", "surge", Set(false), 2),
    UAProfile("Trojan-Qt5", "", "", "trojan", Indeterminate, -1),
    UAProfile("V2rayU", "", "", "v2ray", Indeterminate, -1),
    UAProfile("V2RayX", "", "", "v2ray", Indeterminate, -1)
  ]

  /**
   * A row applies to a user agent when its head is a prefix and, if it has a
   * version pattern, the pattern matches and the captured version reaches the
   * row's minimum (when it has one).
   */
  predicate EntryApplies(lib: Lib, ua: string, e: UAProfile)
  {
    StartsWith(ua, e.head)
    && (e.versionMatch != "" ==>
          lib.versionMatch(ua, e.versionMatch).Some?
          && (e.versionTarget != "" ==>
                VersionGE(VersionParts(lib.versionMatch(ua, e.versionMatch).value), VersionParts(e.versionTarget))))
  }

  /** The first row at or after `from` that applies. */
  function FirstApplying(lib: Lib, ua: string, from: nat): (r: Option<nat>)
    requires from <= |UAMatchList|
    ensures r.Some? ==> from <= r.value < |UAMatchList|
    decreases |UAMatchList| - from
  {
    if from == |UAMatchList| then None
    else if EntryApplies(lib, ua, UAMatchList[from]) then Some(from)
    else FirstApplying(lib, ua, from + 1)
  }

  /** The row found applies. */
  lemma {:induction false} FirstApplyingApplies(lib: Lib, ua: string, from: nat)
    requires from <= |UAMatchList| && FirstApplying(lib, ua, from).Some?
    ensures EntryApplies(lib, ua, UAMatchList[FirstApplying(lib, ua, from).value])
    decreases |UAMatchList| - from
  {
    if !EntryApplies(lib, ua, UAMatchList[from]) {
      FirstApplyingApplies(lib, ua, from + 1);
    }
  }

  /** No row from `from` up to the one found (or to the end, when none is found) applies. */
  lemma {:induction false} FirstApplyingIsFirst(lib: Lib, ua: string, from: nat, j: nat)
    requires from <= j < |UAMatchList|
    requires FirstApplying(lib, ua, from).None? || j < FirstApplying(lib, ua, from).value
    ensures !EntryApplies(lib, ua, UAMatchList[j])
    decreases j - from
  {
    if from < j {
      FirstApplyingIsFirst(lib, ua, from + 1, j);
    }
  }

  /** What matchUserAgent leaves in its three out-parameters. */
  function UserAgentResult(lib: Lib, ua: string, target: string, clashNewName: Tribool, surgeVer: int)
    : (string, Tribool, int)
  {
    if ua == "" then (target, clashNewName, surgeVer)
    else
      match FirstApplying(lib, ua, 0)
      case None => (target, clashNewName, surgeVer)
      case Some(k) =>
        var e := UAMatchList[k];
        (e.target, e.clashNewName, if e.surgeVer != -1 then e.surgeVer else surgeVer)
  }

  /**
   * matchUserAgent: an empty user agent changes nothing; otherwise the first
   * row that applies sets the target and the Clash flag, and its Surge version
   * when that is not -1; no applying row changes nothing.
   */
  method MatchUserAgent(lib: Lib, userAgent: string, target: string, clashNewName: Tribool, surgeVer: int)
    returns (newTarget: string, newClashNewName: Tribool, newSurgeVer: int)
    ensures userAgent == "" ==> (newTarget, newClashNewName, newSurgeVer) == (target, clashNewName, surgeVer)
    ensures (newTarget, newClashNewName, newSurgeVer) == UserAgentResult(lib, userAgent, target, clashNewName, surgeVer)
  {
    newTarget, newClashNewName, newSurgeVer := target, clashNewName, surgeVer;
    if userAgent == "" {
      return;
    }
    for i := 0 to |UAMatchList|
      invariant FirstApplying(lib, userAgent, 0) == FirstApplying(lib, userAgent, i)
      invariant (newTarget, newClashNewName, newSurgeVer) == (target, clashNewName, surgeVer)
    {
      var x := UAMatchList[i];
      if StartsWith(userAgent, x.head) {
        if x.versionMatch != "" {
          var version := lib.versionMatch(userAgent, x.versionMatch);
          if version.None? {
            continue;
          }
          if x.versionTarget != "" {
            var ge := VerGreaterEqual(version.value, x.versionTarget);
            if !ge {
              continue;
            }
          }
        }
        newTarget := x.target;
        newClashNewName := x.clashNewName;
        if x.surgeVer != -1 {
          newSurgeVer := x.surgeVer;
        }
        return;
      }
    }
  }

  /** Two prefixes of one string agree on their common length. */
  lemma PrefixesDisagree(ua: string, p: string, h: string, i: nat)
    requires StartsWith(ua, p) && i < |p| && i < |h| && p[i] != h[i]
    ensures !StartsWith(ua, h)
  {
    assert ua[i] == ua[..|p|][i] == p[i];
  }

  /** A row whose head disagrees with a known prefix of the user agent is passed over. */
  lemma SkipRow(lib: Lib, ua: string, p: string, j: nat, i: nat)
    requires StartsWith(ua, p) && j < |UAMatchList|
    requires i < |p| && i < |UAMatchList[j].head| && p[i] != UAMatchList[j].head[i]
    ensures FirstApplying(lib, ua, j) == FirstApplying(lib, ua, j + 1)
  {
    PrefixesDisagree(ua, p, UAMatchList[j].head, i);
  }

  /** The first five Clash rows begin with 'C'. */
  lemma SkipClashRowsLow(lib: Lib, ua: string, p: string)
    requires StartsWith(ua, p) && p != [] && p[0] != 'C'
    ensures FirstApplying(lib, ua, 0) == FirstApplying(lib, ua, 5)
  {
    assert FirstApplying(lib, ua, 0) == FirstApplying(lib, ua, 1) by { SkipRow(lib, ua, p, 0, 0); }
    assert FirstApplying(lib, ua, 1) == FirstApplying(lib, ua, 2) by { SkipRow(lib, ua, p, 1, 0); }
    assert FirstApplying(lib, ua, 2) == FirstApplying(lib, ua, 3) by { SkipRow(lib, ua, p, 2, 0); }
    assert FirstApplying(lib, ua, 3) == FirstApplying(lib, ua, 4) by { SkipRow(lib, ua, p, 3, 0); }
    assert FirstApplying(lib, ua, 4) == FirstApplying(lib, ua, 5) by { SkipRow(lib, ua, p, 4, 0); }
  }

  /** The other five Clash rows begin with 'C' or 'c'. */
  lemma SkipClashRowsHigh(lib: Lib, ua: string, p: string)
    requires StartsWith(ua, p) && p != [] && p[0] != 'C' && p[0] != 'c'
    ensures FirstApplying(lib, ua, 5) == FirstApplying(lib, ua, 10)
  {
    assert FirstApplying(lib, ua, 5) == FirstApplying(lib, ua, 6) by { SkipRow(lib, ua, p, 5, 0); }
    assert FirstApplying(lib, ua, 6) == FirstApplying(lib, ua, 7) by { SkipRow(lib, ua, p, 6, 0); }
    assert FirstApplying(lib, ua, 7) == FirstApplying(lib, ua, 8) by { SkipRow(lib, ua, p, 7, 0); }
    assert FirstApplying(lib, ua, 8) == FirstApplying(lib, ua, 9) by { SkipRow(lib, ua, p, 8, 0); }
    assert FirstApplying(lib, ua, 9) == FirstApplying(lib, ua, 10) by { SkipRow(lib, ua, p, 9, 0); }
  }

  /**
   * The first fourteen rows (the Clash clients, Kitsunebi, Loon, Pharos and
   * Potatso) all begin with one of "CcKLP"; a user agent known to start with
   * another character passes them all over.
   */
  lemma SkipFirstRows(lib: Lib, ua: string, p: string)
    requires StartsWith(ua, p) && p != []
    requires p[0] != 'C' && p[0] != 'c' && p[0] != 'K' && p[0] != 'L' && p[0] != 'P'
    ensures FirstApplying(lib, ua, 0) == FirstApplying(lib, ua, 14)
  {
    SkipClashRowsLow(lib, ua, p);
    SkipClashRowsHigh(lib, ua, p);
    SkipOtherRows(lib, ua, p);
  }

  /** Kitsunebi, Loon, Pharos and Potatso begin with 'K', 'L' or 'P'. */
  lemma SkipOtherRows(lib: Lib, ua: string, p: string)
    requires StartsWith(ua, p) && p != [] && p[0] != 'K' && p[0] != 'L' && p[0] != 'P'
    ensures FirstApplying(lib, ua, 10) == FirstApplying(lib, ua, 14)
  {
    assert FirstApplying(lib, ua, 10) == FirstApplying(lib, ua, 11) by { SkipRow(lib, ua, p, 10, 0); }
    assert FirstApplying(lib, ua, 11) == FirstApplying(lib, ua, 12) by { SkipRow(lib, ua, p, 11, 0); }
    assert FirstApplying(lib, ua, 12) == FirstApplying(lib, ua, 13) by { SkipRow(lib, ua, p, 12, 0); }
    assert FirstApplying(lib, ua, 13) == FirstApplying(lib, ua, 14) by { SkipRow(lib, ua, p, 13, 0); }
  }

  /** A row that applies bounds the first applying row from above. */
  lemma {:induction false} FirstApplyingAtMost(lib: Lib, ua: string, from: nat, j: nat)
    requires from <= j < |UAMatchList| && EntryApplies(lib, ua, UAMatchList[j])
    ensures FirstApplying(lib, ua, from).Some? && FirstApplying(lib, ua, from).value <= j
    decreases j - from
  {
    if from < j && !EntryApplies(lib, ua, UAMatchList[from]) {
      FirstApplyingAtMost(lib, ua, from + 1, j);
    }
  }

  /** The five Surge rows: old field names, Surge versions 4, 3, 4, 3 and 2. */
  lemma SurgeRows(k: nat)
    requires 19 <= k < 24
    ensures UAMatchList[k].head == "Surge" && UAMatchList[k].target == "surge"
    ensures UAMatchList[k].clashNewName == Set(false) && 2 <= UAMatchList[k].surgeVer <= 4
  {
  }

  /**
   * Every user agent that starts with "Surge" is classified as Surge, with the
   * old field names and a Surge version of 2, 3 or 4: no earlier row can apply,
   * and the last Surge row has no version condition.
   */
  lemma SurgeUserAgent(lib: Lib, ua: string, target: string, clashNewName: Tribool, surgeVer: int)
    requires StartsWith(ua, "Surge")
    ensures var (t, c, v) := UserAgentResult(lib, ua, target, clashNewName, surgeVer);
      t == "surge" && c == Set(false) && 2 <= v <= 4
  {
    var p := "Surge";
    SkipFirstRows(lib, ua, p);
    assert FirstApplying(lib, ua, 14) == FirstApplying(lib, ua, 15) by { SkipRow(lib, ua, p, 14, 0); }
    assert FirstApplying(lib, ua, 15) == FirstApplying(lib, ua, 16) by { SkipRow(lib, ua, p, 15, 0); }
    assert FirstApplying(lib, ua, 16) == FirstApplying(lib, ua, 17) by { SkipRow(lib, ua, p, 16, 0); }
    assert FirstApplying(lib, ua, 17) == FirstApplying(lib, ua, 18) by { SkipRow(lib, ua, p, 17, 1); }
    assert FirstApplying(lib, ua, 18) == FirstApplying(lib, ua, 19) by { SkipRow(lib, ua, p, 18, 3); }
    FirstApplyingAtMost(lib, ua, 19, 23);
    SurgeRows(FirstApplying(lib, ua, 19).value);
  }

  /** "Quantumult%20X" is matched before the shorter "Quantumult" row, which it also starts with. */
  lemma QuantumultXUserAgent(lib: Lib, ua: string, target: string, clashNewName: Tribool, surgeVer: int)
    requires StartsWith(ua, "Quantumult%20X")
    ensures StartsWith(ua, "Quantumult")
    ensures UserAgentResult(lib, ua, target, clashNewName, surgeVer) == ("quanx", Indeterminate, surgeVer)
  {
    assert ua[..10] == ua[..14][..10];
    SkipFirstRows(lib, ua, "Quantumult%20X");
  }

  // ---------------------------------------------------------------------------
  // The profile handler's multimap helpers
  // ---------------------------------------------------------------------------

  /**
   * string_multimap (std::multimap<std::string, std::string>): the values stored
   * under each key, in insertion order.  A key without values is absent.
   */
  class StringMultimap {
    var items: map<string, seq<string>>

    ghost predicate Valid()
      reads this
    {
      forall k :: k in items ==> items[k] != []
    }

    /** equal_range(key): the values under `key`, in the order they were inserted. */
    function EqualRange(key: string): seq<string>
      reads this
    {
      if key in items then items[key] else []
    }

    constructor()
      ensures Valid() && items == map[]
    {
      items := map[];
    }

    /** erase(key): every value under `key` goes. */
    method Erase(key: string)
      modifies this
      ensures items == old(items) - {key}
      ensures EqualRange(key) == []
      ensures old(Valid()) ==> Valid()
    {
      items := items - {key};
    }

    /** emplace(key, value): `value` joins the end of the values under `key`. */
    method Emplace(key: string, value: string)
      modifies this
      ensures items == old(items)[key := old(EqualRange(key)) + [value]]
      ensures EqualRange(key) == old(EqualRange(key)) + [value]
      ensures old(Valid()) ==> Valid()
    {
      items := items[key := EqualRange(key) + [value]];
    }
  }

  /**
   * What merge_values leaves in `merged`: each non-empty value in turn is
   * appended, preceded by the delimiter unless `merged` is still empty.
   */
  function Merged(merged: string, values: seq<string>, delimiter: char): string
    decreases |values|
  {
    if values == [] then merged
    else
      var m := Merged(merged, values[..|values| - 1], delimiter);
      var v := values[|values| - 1];
      if v == "" then m else if m == "" then v else m + [delimiter] + v
  }

  /** The non-empty strings of `xs`, in order. */
  function NonEmpty(xs: seq<string>): (r: seq<string>)
    ensures forall x :: x in r ==> x != [] && x in xs
  {
    if xs == [] then []
    else if xs[0] == [] then NonEmpty(xs[1..])
    else [xs[0]] + NonEmpty(xs[1..])
  }

  /** The strings of `xs` with the delimiter between each two. */
  function Join(xs: seq<string>, delimiter: char): (r: string)
    ensures xs != [] ==> |r| >= |xs[0]|
  {
    if xs == [] then ""
    else if |xs| == 1 then xs[0]
    else xs[0] + [delimiter] + Join(xs[1..], delimiter)
  }

  /** The pieces of `s` between delimiters (a string without one is a single piece). */
  function Fields(s: string, delimiter: char): (r: seq<string>)
    ensures r != []
    decreases |s|
  {
    var i := IndexOf(s, delimiter);
    if i == -1 then [s] else [s[..i]] + Fields(s[i + 1..], delimiter)
  }

  /**
   * merge_values: appends the non-empty values under `key`, in multimap order,
   * to `merged`, with the delimiter between each two.
   */
  method MergeValues(source: StringMultimap, key: string, merged: string, delimiter: char) returns (r: string)
    ensures r == Merged(merged, source.EqualRange(key), delimiter)
  {
    var range := source.EqualRange(key);
    r := merged;
    for i := 0 to |range|
      invariant r == Merged(merged, range[..i], delimiter)
    {
      assert range[..i + 1][..i] == range[..i];
      if range[i] != "" {
        if r != "" {
          r := r + [delimiter];
        }
        r := r + range[i];
      }
    }
    assert range[..|range|] == range;
  }

  lemma NonEmptyAppend(xs: seq<string>, x: string)
    ensures NonEmpty(xs + [x]) == NonEmpty(xs) + NonEmpty([x])
  {
    if xs != [] {
      assert (xs + [x])[1..] == xs[1..] + [x];
      NonEmptyAppend(xs[1..], x);
    }
  }

  lemma {:induction false} JoinAppend(xs: seq<string>, x: string, delimiter: char)
    requires xs != []
    ensures Join(xs + [x], delimiter) == Join(xs, delimiter) + [delimiter] + x
    decreases |xs|
  {
    if |xs| > 1 {
      assert (xs + [x])[1..] == xs[1..] + [x];
      JoinAppend(xs[1..], x, delimiter);
    }
  }

  /**
   * The merge is the join of the non-empty strings among `merged` and the
   * values: no empty piece, no leading or doubled delimiter.
   */
  lemma {:induction false} MergedIsJoin(merged: string, values: seq<string>, delimiter: char)
    ensures Merged(merged, values, delimiter) == Join(NonEmpty([merged] + values), delimiter)
    decreases |values|
  {
    if values != [] {
      var init := values[..|values| - 1];
      var v := values[|values| - 1];
      MergedIsJoin(merged, init, delimiter);
      assert [merged] + values == ([merged] + init) + [v];
      NonEmptyAppend([merged] + init, v);
      var ne := NonEmpty([merged] + init);
      assert NonEmpty([v]) == if v == "" then [] else [v];
      if v != "" && ne != [] {
        assert ne[0] in ne;
        JoinAppend(ne, v, delimiter);
      } else if v == "" {
        assert ne + [] == ne;
      } else {
        assert [] + [v] == [v];
      }
    }
  }

  /** Merging in two steps, as the profile handler does for each profile in turn, is merging once. */
  lemma {:induction false} MergedAppend(merged: string, a: seq<string>, b: seq<string>, delimiter: char)
    ensures Merged(Merged(merged, a, delimiter), b, delimiter) == Merged(merged, a + b, delimiter)
    decreases |b|
  {
    if b != [] {
      MergedAppend(merged, a, b[..|b| - 1], delimiter);
      assert (a + b)[..|a + b| - 1] == a + b[..|b| - 1];
      assert (a + b)[|a + b| - 1] == b[|b| - 1];
    } else {
      assert a + b == a;
    }
  }

  /** Cutting a join at its delimiters gives back the pieces, when none contains the delimiter. */
  lemma {:induction false} FieldsOfJoin(xs: seq<string>, delimiter: char)
    requires xs != [] && forall x :: x in xs ==> delimiter !in x
    ensures Fields(Join(xs, delimiter), delimiter) == xs
    decreases |xs|
  {
    if |xs| > 1 {
      var rest := Join(xs[1..], delimiter);
      var s := xs[0] + [delimiter] + rest;
      assert s[..|xs[0]|] == xs[0];
      FindCharAt(s, delimiter, |xs[0]|);
      assert s[|xs[0]| + 1..] == rest;
      FieldsOfJoin(xs[1..], delimiter);
    } else {
      CharAbsent(xs[0], delimiter);
    }
  }

  /**
   * update_container: with a non-empty `merged`, the key's values are replaced
   * by `merged` alone; an empty `merged` changes nothing.  Other keys keep
   * their values.
   */
  method UpdateContainer(container: StringMultimap, key: string, merged: string)
    modifies container
    ensures merged == "" ==> container.items == old(container.items)
    ensures merged != "" ==> container.items == old(container.items)[key := [merged]]
    ensures merged != "" ==> container.EqualRange(key) == [merged]
    ensures forall k :: k != key ==> container.EqualRange(k) == old(container.EqualRange(k))
    ensures old(container.Valid()) ==> container.Valid()
  {
    if merged != "" {
      ghost var before := container.items;
      container.Erase(key);
      assert container.items == before - {key} && container.EqualRange(key) == [];
      container.Emplace(key, merged);
      assert [] + [merged] == [merged];
      assert container.items.Keys == before[key := [merged]].Keys;
    }
  }

  // ---------------------------------------------------------------------------
  // getRuleset: the line rewrite of the rule-provider and domain-set outputs
  // ---------------------------------------------------------------------------

  /**
   * The three outputs of getRuleset built line by line from a rule list:
   * type 3, a Clash domain rule-provider; type 4, a Clash ipcidr rule-provider;
   * type 5, a Surge DOMAIN-SET.
   */
  datatype DomainSetKind = ClashDomain | ClashIpCidr | SurgeDomainSet

  /** The request's `type` number for each of the three outputs. */
  function KindOfType(typeInt: int): (r: Option<DomainSetKind>)
    ensures r == Some(ClashDomain) <==> typeInt == 3
    ensures r == Some(ClashIpCidr) <==> typeInt == 4
    ensures r == Some(SurgeDomainSet) <==> typeInt == 5
  {
    if typeInt == 3 then Some(ClashDomain)
    else if typeInt == 4 then Some(ClashIpCidr)
    else if typeInt == 5 then Some(SurgeDomainSet)
    else None
  }

  /** A line with a "//" comment loses it, and then the white space around what is left. */
  function StripComment(lib: Lib, line: string): (r: string)
    ensures !Contains(line, "//") ==> r == line
  {
    var c := Find(line, "//");
    if c == -1 then line else lib.trimWhitespace(line[..c])
  }

  /**
   * filterLine: the start and length of the rule's value, the text after the
   * first comma up to the second comma or, when there is none, to the end of
   * the line less a final '\r'.  None when the line has no comma.
   */
  function ValueField(line: string): (r: Option<(nat, nat)>)
    ensures r.None? <==> ',' !in line
    ensures r.Some? ==> r.value.0 == IndexOf(line, ',') + 1 && r.value.0 + r.value.1 <= |line|
    ensures r.Some? ==> ',' !in line[r.value.0..r.value.0 + r.value.1]
  {
    var first := IndexOf(line, ',');
    if first == -1 then None
    else
      var b := first + 1;
      var second := IndexOf(line[b..], ',');
      var e := if second != -1 then b + second
               else if line[|line| - 1] == '\r' then |line| - 1
               else |line|;
      assert e >= b by {
        if second == -1 && line[|line| - 1] == '\r' {
          assert |line| - 1 != first;
        }
      }
      Some((b, e - b))
  }

  /** A line beginning with a keyword whose only comma ends it has its first comma there. */
  lemma KeywordComma(line: string, keyword: string)
    requires keyword != [] && keyword[|keyword| - 1] == ',' && ',' !in keyword[..|keyword| - 1]
    requires StartsWith(line, keyword)
    ensures IndexOf(line, ',') == |keyword| - 1
  {
    assert line[..|keyword| - 1] == keyword[..|keyword| - 1];
    FindCharAt(line, ',', |keyword| - 1);
  }

  /** The domain rules a domain output takes. */
  predicate IsDomainRule(line: string)
  {
    StartsWith(line, "DOMAIN-SUFFIX,") || StartsWith(line, "DOMAIN,")
  }

  /** The first comma of a domain rule follows "DOMAIN-SUFFIX" or "DOMAIN". */
  lemma DomainComma(line: string)
    requires IsDomainRule(line)
    ensures IndexOf(line, ',') == (if StartsWith(line, "DOMAIN-SUFFIX,") then 13 else 6)
  {
    if StartsWith(line, "DOMAIN-SUFFIX,") {
      KeywordComma(line, "DOMAIN-SUFFIX,");
    } else {
      KeywordComma(line, "DOMAIN,");
    }
  }

  /** The address rules an ipcidr output takes. */
  predicate IsIpCidrRule(line: string)
  {
    StartsWith(line, "IP-CIDR,") || StartsWith(line, "IP-CIDR6,")
  }

  /**
   * What one input line adds to the output: the trimmed value of a rule of the
   * right kind, quoted as a YAML list item for Clash, with "+." (Clash) or "."
   * (Surge) before the value of a DOMAIN-SUFFIX rule, which is told apart by
   * the 'X' just before its comma.  Any other line adds nothing.
   */
  function RewriteLine(lib: Lib, line: string, kind: DomainSetKind): (r: string)
  {
    RuleEntry(lib, StripComment(lib, line), kind)
  }

  /** Whether a comment-free line is a rule of the kind the output takes. */
  predicate Wanted(l: string, kind: DomainSetKind)
  {
    if kind == ClashIpCidr then IsIpCidrRule(l) else IsDomainRule(l)
  }

  /** The entry a comment-free line gives, or "" for a line the output does not take. */
  function RuleEntry(lib: Lib, l: string, kind: DomainSetKind): string
  {
    if !Wanted(l, kind) then ""
    else
      match ValueField(l)
      case None => ""
      case Some((b, n)) =>
        var value := lib.trim(l[b..b + n]);
        if kind == ClashIpCidr then ListEntry(kind, false, value)
        else
          DomainComma(l);
          ListEntry(kind, l[b - 2] == 'X', value)
  }

  /** The output entry of one value; `suffix` marks a DOMAIN-SUFFIX rule. */
  function ListEntry(kind: DomainSetKind, suffix: bool, value: string): string
  {
    match kind
    case ClashDomain => "  - '" + (if suffix then "+." else "") + value + "'\n"
    case ClashIpCidr => "  - '" + value + "'\n"
    case SurgeDomainSet => (if suffix then "." else "") + value + "\n"
  }

  /** The output before the first line: the rule-provider header for Clash, nothing for Surge. */
  function Header(kind: DomainSetKind): string
  {
    if kind == SurgeDomainSet then "" else "payload:\n"
  }

  /** The entry a Clash rule-provider gets when no line produced one. */
  function Placeholder(kind: DomainSetKind): string
  {
    match kind
    case ClashDomain => "  - '--placeholder--'"
    case ClashIpCidr => "  - '0.0.0.0/32'"
    case SurgeDomainSet => ""
  }

  /** The rewritten lines, in order. */
  function RewriteLines(lib: Lib, lines: seq<string>, kind: DomainSetKind): string
    decreases |lines|
  {
    if lines == [] then "" else RewriteLines(lib, lines[..|lines| - 1], kind) + RewriteLine(lib, lines[|lines| - 1], kind)
  }

  /** The whole output: header, rewritten lines, and the placeholder when the header stands alone. */
  function RulesetOutput(lib: Lib, lines: seq<string>, kind: DomainSetKind): string
  {
    var out := Header(kind) + RewriteLines(lib, lines, kind);
    if out == "payload:\n" then out + Placeholder(kind) else out
  }

  /** The appends that write one value to the output. */
  method BuildEntry(kind: DomainSetKind, suffix: bool, value: string) returns (item: string)
    ensures item == ListEntry(kind, suffix, value)
  {
    if kind == ClashIpCidr {
      item := "  - '" + value + "'\n";
    } else if kind == ClashDomain {
      item := "  - '";
      if suffix {
        item := item + "+.";
      }
      item := item + value + "'\n";
    } else {
      item := "";
      if suffix {
        item := item + ".";
      }
      item := item + value + "\n";
    }
  }

  /** One pass of the rewrite loop: what `strLine` appends to the output, if anything. */
  method AppendRewritten(lib: Lib, output: string, line: string, kind: DomainSetKind) returns (out: string)
    ensures out == output + RewriteLine(lib, line, kind)
  {
    var strLine := line;
    if Contains(strLine, "//") {
      strLine := lib.trimWhitespace(strLine[..Find(strLine, "//")]);
    }
    out := AppendRuleEntry(lib, output, strLine, kind);
  }

  /** The rest of the pass, on the line without its comment. */
  method AppendRuleEntry(lib: Lib, output: string, strLine: string, kind: DomainSetKind) returns (out: string)
    ensures out == output + RuleEntry(lib, strLine, kind)
  {
    out := output;
    var keep := if kind == ClashIpCidr then IsIpCidrRule(strLine) else IsDomainRule(strLine);
    if !keep {
      return;
    }
    var field := ValueField(strLine);
    if field.None? {
      return;
    }
    var posb, len := field.value.0, field.value.1;
    var value := lib.trim(strLine[posb..posb + len]);
    var suffix := false;
    if kind != ClashIpCidr {
      DomainComma(strLine);
      suffix := strLine[posb - 2] == 'X';
    }
    var item := BuildEntry(kind, suffix, value);
    assert item == RuleEntry(lib, strLine, kind);
    out := out + item;
  }

  /**
   * The rewrite loop of getRuleset for types 3, 4 and 5, over the lines of the
   * fetched rule lists.
   */
  method RewriteRuleset(lib: Lib, lines: seq<string>, kind: DomainSetKind) returns (output: string)
    ensures output == RulesetOutput(lib, lines, kind)
  {
    output := "";
    if kind == ClashDomain || kind == ClashIpCidr {
      output := "payload:\n";
    }
    for i := 0 to |lines|
      invariant output == Header(kind) + RewriteLines(lib, lines[..i], kind)
    {
      assert lines[..i + 1][..i] == lines[..i];
      ConcatAssociative(Header(kind), RewriteLines(lib, lines[..i], kind), RewriteLine(lib, lines[i], kind));
      output := AppendRewritten(lib, output, lines[i], kind);
    }
    assert lines[..|lines|] == lines;
    if output == "payload:\n" {
      output := output + Placeholder(kind);
    }
  }

  /** A rule's value: no comma, no slash (so no comment), no final '\r'. */
  predicate PlainValue(x: string)
  {
    ',' !in x && '/' !in x && (x == [] || x[|x| - 1] != '\r')
  }

  /** A prefix of a line is a prefix of the line with more text after it. */
  lemma StartsWithExtended(l: string, tail: string, p: string)
    requires StartsWith(l, p)
    ensures StartsWith(l + tail, p)
  {
    assert (l + tail)[..|p|] == l[..|p|];
  }

  /** A line without a slash has no comment to strip. */
  lemma NoCommentKept(lib: Lib, l: string)
    requires '/' !in l
    ensures StripComment(lib, l) == l
  {
    PatternAbsent(l, "//");
  }

  /** A rule of the wanted kind stays one with more text after it. */
  lemma WantedExtended(l: string, tail: string, kind: DomainSetKind)
    requires Wanted(l, kind)
    ensures Wanted(l + tail, kind)
  {
    if StartsWith(l, "IP-CIDR,") {
      StartsWithExtended(l, tail, "IP-CIDR,");
    }
    if StartsWith(l, "IP-CIDR6,") {
      StartsWithExtended(l, tail, "IP-CIDR6,");
    }
    if StartsWith(l, "DOMAIN-SUFFIX,") {
      StartsWithExtended(l, tail, "DOMAIN-SUFFIX,");
    }
    if StartsWith(l, "DOMAIN,") {
      StartsWithExtended(l, tail, "DOMAIN,");
    }
  }

  /** The value field of keyword + value + tail is the value. */
  lemma KeywordValueField(keyword: string, x: string, tail: string)
    requires |keyword| >= 2 && keyword[|keyword| - 1] == ',' && ',' !in keyword[..|keyword| - 1]
    requires PlainValue(x) && (tail == "" || tail == "\r")
    ensures ValueField(keyword + x + tail) == Some((|keyword|, |x|))
    ensures (keyword + x + tail)[|keyword|..|keyword| + |x|] == x
  {
    var l := keyword + x + tail;
    assert StartsWith(l, keyword);
    KeywordComma(l, keyword);
    assert l[|keyword|..] == x + tail;
    CharAbsent(x + tail, ',');
    assert l[|keyword|..|keyword| + |x|] == x;
  }

  /**
   * A line made of a keyword ending in its only comma, a plain value and
   * possibly a final '\r' gives the entry of the trimmed value; a
   * DOMAIN-SUFFIX rule is the one whose keyword has 'X' before the comma.
   */
  lemma KeywordEntry(lib: Lib, keyword: string, x: string, tail: string, kind: DomainSetKind)
    requires |keyword| >= 2 && keyword[|keyword| - 1] == ',' && ',' !in keyword[..|keyword| - 1] && '/' !in keyword
    requires PlainValue(x) && (tail == "" || tail == "\r")
    requires Wanted(keyword + x, kind)
    ensures RewriteLine(lib, keyword + x + tail, kind)
      == ListEntry(kind, kind != ClashIpCidr && keyword[|keyword| - 2] == 'X', lib.trim(x))
  {
    var l := keyword + x + tail;
    assert '/' !in l;
    NoCommentKept(lib, l);
    WantedExtended(keyword + x, tail, kind);
    KeywordValueField(keyword, x, tail);
    assert l[|keyword| - 2] == keyword[|keyword| - 2];
  }

  /**
   * In a Clash domain rule-provider "DOMAIN-SUFFIX,x" becomes the item '+.x'
   * and "DOMAIN,x" the item 'x', x trimmed.
   */
  lemma ClashDomainEntries(lib: Lib, x: string)
    requires PlainValue(x)
    ensures RewriteLine(lib, "DOMAIN-SUFFIX," + x, ClashDomain) == "  - '" + "+." + lib.trim(x) + "'\n"
    ensures RewriteLine(lib, "DOMAIN," + x, ClashDomain) == "  - '" + "" + lib.trim(x) + "'\n"
  {
    assert StartsWith("DOMAIN-SUFFIX," + x, "DOMAIN-SUFFIX,");
    assert StartsWith("DOMAIN," + x, "DOMAIN,");
    KeywordEntry(lib, "DOMAIN-SUFFIX,", x, "", ClashDomain);
    KeywordEntry(lib, "DOMAIN,", x, "", ClashDomain);
    assert "DOMAIN-SUFFIX," + x + "" == "DOMAIN-SUFFIX," + x;
    assert "DOMAIN," + x + "" == "DOMAIN," + x;
  }

  /** In a Surge domain set "DOMAIN-SUFFIX,x" becomes ".x" and "DOMAIN,x" becomes "x", x trimmed. */
  lemma SurgeDomainEntries(lib: Lib, x: string)
    requires PlainValue(x)
    ensures RewriteLine(lib, "DOMAIN-SUFFIX," + x, SurgeDomainSet) == "." + lib.trim(x) + "\n"
    ensures RewriteLine(lib, "DOMAIN," + x, SurgeDomainSet) == "" + lib.trim(x) + "\n"
  {
    assert StartsWith("DOMAIN-SUFFIX," + x, "DOMAIN-SUFFIX,");
    assert StartsWith("DOMAIN," + x, "DOMAIN,");
    KeywordEntry(lib, "DOMAIN-SUFFIX,", x, "", SurgeDomainSet);
    KeywordEntry(lib, "DOMAIN,", x, "", SurgeDomainSet);
    assert "DOMAIN-SUFFIX," + x + "" == "DOMAIN-SUFFIX," + x;
    assert "DOMAIN," + x + "" == "DOMAIN," + x;
  }

  /** In a Clash ipcidr rule-provider "IP-CIDR,x" and "IP-CIDR6,x" become the item 'x', x trimmed. */
  lemma IpCidrEntries(lib: Lib, x: string)
    requires PlainValue(x)
    ensures RewriteLine(lib, "IP-CIDR," + x, ClashIpCidr) == "  - '" + lib.trim(x) + "'\n"
    ensures RewriteLine(lib, "IP-CIDR6," + x, ClashIpCidr) == "  - '" + lib.trim(x) + "'\n"
  {
    assert StartsWith("IP-CIDR," + x, "IP-CIDR,");
    assert StartsWith("IP-CIDR6," + x, "IP-CIDR6,");
    KeywordEntry(lib, "IP-CIDR,", x, "", ClashIpCidr);
    KeywordEntry(lib, "IP-CIDR6,", x, "", ClashIpCidr);
    assert "IP-CIDR," + x + "" == "IP-CIDR," + x;
    assert "IP-CIDR6," + x + "" == "IP-CIDR6," + x;
  }

  /** A final '\r' after the value changes nothing. */
  lemma CarriageReturnDropped(lib: Lib, keyword: string, x: string, kind: DomainSetKind)
    requires |keyword| >= 2 && keyword[|keyword| - 1] == ',' && ',' !in keyword[..|keyword| - 1] && '/' !in keyword
    requires PlainValue(x) && Wanted(keyword + x, kind)
    ensures RewriteLine(lib, keyword + x + "\r", kind) == RewriteLine(lib, keyword + x, kind)
  {
    KeywordEntry(lib, keyword, x, "\r", kind);
    KeywordEntry(lib, keyword, x, "", kind);
    assert keyword + x + "" == keyword + x;
  }

  /** A line with no comma once its comment is gone adds nothing, whatever the output. */
  lemma NoCommaDropped(lib: Lib, line: string, kind: DomainSetKind)
    requires ',' !in StripComment(lib, line)
    ensures RewriteLine(lib, line, kind) == ""
  {
  }

  /**
   * A Clash rule-provider always starts with its header and never is the bare
   * header; a Surge domain set is the rewritten lines and nothing else.
   */
  lemma RulesetOutputShape(lib: Lib, lines: seq<string>, kind: DomainSetKind)
    ensures kind != SurgeDomainSet ==> StartsWith(RulesetOutput(lib, lines, kind), "payload:\n")
    ensures kind != SurgeDomainSet ==> RulesetOutput(lib, lines, kind) != "payload:\n"
    ensures kind == SurgeDomainSet ==> RulesetOutput(lib, lines, kind) == RewriteLines(lib, lines, kind)
  {
    var body := Header(kind) + RewriteLines(lib, lines, kind);
    if kind != SurgeDomainSet {
      assert body[..9] == "payload:\n";
      if body == "payload:\n" {
        assert |RulesetOutput(lib, lines, kind)| > 9;
      } else {
        assert RulesetOutput(lib, lines, kind) == body;
      }
    } else {
      assert body == RewriteLines(lib, lines, kind);
    }
  }
}
