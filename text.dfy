// Character-string operations of std::string used throughout the decoders:
// find / rfind (with -1 standing for npos), prefix and suffix tests,
// the replace-all helper and ASCII lower-casing.

module Text {

  /** `p` occurs in `s` starting at index `i`. */
  predicate MatchAt(s: string, p: string, i: int)
  {
    0 <= i && i + |p| <= |s| && s[i..i + |p|] == p
  }

  predicate StartsWith(s: string, p: string)
  {
    MatchAt(s, p, 0)
  }

  predicate EndsWith(s: string, p: string)
  {
    |p| <= |s| && MatchAt(s, p, |s| - |p|)
  }

  /** std::string::find(p, from): the first occurrence at or after `from`, or -1. */
  function FindFrom(s: string, p: string, from: nat): (r: int)
    ensures r == -1 || (from <= r && MatchAt(s, p, r))
    ensures r == -1 ==> forall i :: from <= i ==> !MatchAt(s, p, i)
    ensures r != -1 ==> forall i :: from <= i < r ==> !MatchAt(s, p, i)
    decreases |s| - from
  {
    if from + |p| > |s| then -1
    else if MatchAt(s, p, from) then from
    else FindFrom(s, p, from + 1)
  }

  function Find(s: string, p: string): (r: int)
    ensures r == -1 || MatchAt(s, p, r)
    ensures r == -1 <==> forall i :: !MatchAt(s, p, i)
    ensures forall i :: 0 <= i < r ==> !MatchAt(s, p, i)
  {
    FindFrom(s, p, 0)
  }

  predicate Contains(s: string, p: string)
  {
    Find(s, p) != -1
  }

  /** The last occurrence of `p` starting at or before index `i`, or -1. */
  function LastMatch(s: string, p: string, i: int): (r: int)
    ensures r == -1 || (r <= i && MatchAt(s, p, r))
    ensures forall j :: r < j <= i ==> !MatchAt(s, p, j)
    decreases if i < 0 then 0 else i + 1
  {
    if i < 0 then -1
    else if MatchAt(s, p, i) then i
    else LastMatch(s, p, i - 1)
  }

  /** std::string::rfind(p): the last occurrence, or -1. */
  function RFind(s: string, p: string): (r: int)
    ensures r == -1 || MatchAt(s, p, r)
    ensures r == -1 <==> forall i :: !MatchAt(s, p, i)
    ensures forall j :: r < j ==> !MatchAt(s, p, j)
  {
    LastMatch(s, p, |s| - |p|)
  }

  /** Index of the first occurrence of character `c`, or -1. */
  function IndexOf(s: string, c: char): (r: int)
    ensures -1 <= r < |s|
    ensures r >= 0 ==> s[r] == c
    ensures forall i :: 0 <= i < |s| && (r == -1 || i < r) ==> s[i] != c
  {
    var k := Find(s, [c]);
    assert k != -1 ==> s[k..k + 1] == [c];
    assert forall i :: 0 <= i < |s| && s[i] == c ==> MatchAt(s, [c], i) by {
      forall i | 0 <= i < |s| && s[i] == c ensures MatchAt(s, [c], i) {
        assert s[i..i + 1] == [c];
      }
    }
    k
  }

  /** Index of the last occurrence of character `c`, or -1. */
  function LastIndexOf(s: string, c: char): (r: int)
    ensures -1 <= r < |s|
    ensures r >= 0 ==> s[r] == c
    ensures forall i :: r < i < |s| ==> s[i] != c
  {
    var k := RFind(s, [c]);
    assert k != -1 ==> s[k..k + 1] == [c];
    assert forall i :: 0 <= i < |s| && s[i] == c ==> MatchAt(s, [c], i) by {
      forall i | 0 <= i < |s| && s[i] == c ensures MatchAt(s, [c], i) {
        assert s[i..i + 1] == [c];
      }
    }
    k
  }

  predicate HasChar(s: string, c: char)
  {
    c in s
  }

  /** replaceAllDistinct: every non-overlapping occurrence of `f`, left to right, becomes `t`. */
  function ReplaceAll(s: string, f: string, t: string): (r: string)
    requires |f| > 0
    decreases |s|
  {
    if |s| < |f| then s
    else if s[..|f|] == f then t + ReplaceAll(s[|f|..], f, t)
    else [s[0]] + ReplaceAll(s[1..], f, t)
  }

  /** Replacing one character by another leaves no trace of the first. */
  lemma {:induction false} ReplaceCharRemoves(s: string, a: char, b: char)
    requires a != b
    ensures a !in ReplaceAll(s, [a], [b])
    ensures |ReplaceAll(s, [a], [b])| == |s|
    decreases |s|
  {
    if |s| >= 1 {
      ReplaceCharRemoves(s[1..], a, b);
    }
  }

  /** A text lacking some character of `f` holds no occurrence of `f` and is left as it is. */
  lemma {:induction false} ReplaceAllAbsent(s: string, f: string, t: string, c: char)
    requires |f| > 0 && c in f && c !in s
    ensures ReplaceAll(s, f, t) == s
    decreases |s|
  {
    if |s| >= |f| {
      assert c in s[..|f|] ==> c in s;
      ReplaceAllAbsent(s[1..], f, t, c);
      assert [s[0]] + s[1..] == s;
    }
  }

  /** A character absent from the text and from the replacement stays absent. */
  lemma {:induction false} ReplaceAllKeepsAbsent(s: string, f: string, t: string, c: char)
    requires |f| > 0 && c !in s && c !in t
    ensures c !in ReplaceAll(s, f, t)
    decreases |s|
  {
    if |s| >= |f| {
      if s[..|f|] == f {
        ReplaceAllKeepsAbsent(s[|f|..], f, t, c);
      } else {
        ReplaceAllKeepsAbsent(s[1..], f, t, c);
      }
    }
  }

  function LowerChar(c: char): char
  {
    if 'A' <= c <= 'Z' then (c as int + 32) as char else c
  }

  /** ASCII lower-casing, character by character. */
  function ToLower(s: string): (r: string)
    ensures |r| == |s|
    ensures forall i :: 0 <= i < |s| ==> r[i] == LowerChar(s[i])
    ensures forall i :: 0 <= i < |r| ==> !('A' <= r[i] <= 'Z')
  {
    seq(|s|, i requires 0 <= i < |s| => LowerChar(s[i]))
  }

  /** Lower-casing keeps every character that is not an upper-case letter. */
  lemma ToLowerKeeps(s: string, c: char)
    requires !('A' <= c <= 'Z')
    ensures c in s ==> c in ToLower(s)
  {
    if c in s {
      var i :| 0 <= i < |s| && s[i] == c;
      assert ToLower(s)[i] == c;
    }
  }

  predicate IsDigit(c: char)
  {
    '0' <= c <= '9'
  }

  predicate IsSpace(c: char)
  {
    c == ' ' || c == '\t' || c == '\n' || c == '\r' || c == '\U{000C}' || c == '\U{000B}'
  }

  /** Every character of `s` is a decimal digit (`\d+` when `s` is not empty). */
  predicate AllDigits(s: string)
  {
    forall i :: 0 <= i < |s| ==> IsDigit(s[i])
  }

  /** `s` with every occurrence of character `c` removed. */
  function RemoveChar(s: string, c: char): (r: string)
    ensures c !in r
    ensures |r| <= |s|
    ensures c !in s ==> r == s
  {
    if s == [] then []
    else (if s[0] == c then [] else [s[0]]) + RemoveChar(s[1..], c)
  }

  /** `s` without its trailing white space. */
  function TrimEnd(s: string): (r: string)
    ensures |r| <= |s| && r == s[..|r|]
    ensures r == [] || !IsSpace(r[|r| - 1])
    ensures forall i :: |r| <= i < |s| ==> IsSpace(s[i])
  {
    if s != [] && IsSpace(s[|s| - 1]) then TrimEnd(s[..|s| - 1]) else s
  }

  /** `s` without its leading white space. */
  function TrimStart(s: string): (r: string)
    ensures |r| <= |s| && r == s[|s| - |r|..]
    ensures r == [] || !IsSpace(r[0])
    ensures forall i :: 0 <= i < |s| - |r| ==> IsSpace(s[i])
  {
    if s != [] && IsSpace(s[0]) then TrimStart(s[1..]) else s
  }

  /** A string that `p` starts: the characters after it. */
  lemma StartsWithConcat(p: string, rest: string)
    ensures StartsWith(p + rest, p)
    ensures (p + rest)[|p|..] == rest
  {
    assert (p + rest)[..|p|] == p;
  }

  /** A one-character pattern occurs exactly where that character stands. */
  lemma CharMatch(s: string, c: char, i: int)
    ensures MatchAt(s, [c], i) <==> 0 <= i < |s| && s[i] == c
  {
    if 0 <= i < |s| {
      assert s[i..i + 1] == [s[i]];
    }
  }

  /** find of a character is the index of its first occurrence. */
  lemma FindCharAt(s: string, c: char, k: nat)
    requires k < |s| && s[k] == c && c !in s[..k]
    ensures Find(s, [c]) == k
  {
    CharMatch(s, c, k);
    var r := Find(s, [c]);
    CharMatch(s, c, r);
  }

  /** rfind of a character is the index of its last occurrence. */
  lemma RFindCharAt(s: string, c: char, k: nat)
    requires k < |s| && s[k] == c && c !in s[k + 1..]
    ensures RFind(s, [c]) == k
  {
    CharMatch(s, c, k);
    var r := RFind(s, [c]);
    CharMatch(s, c, r);
  }

  /** Neither search finds a character the string does not hold. */
  lemma CharAbsent(s: string, c: char)
    requires c !in s
    ensures Find(s, [c]) == -1 && RFind(s, [c]) == -1
  {
    forall i ensures !MatchAt(s, [c], i) {
      CharMatch(s, c, i);
    }
  }

  /** A pattern whose first character the string lacks is nowhere in it. */
  lemma PatternAbsent(s: string, p: string)
    requires p != [] && p[0] !in s
    ensures Find(s, p) == -1
  {
    forall i ensures !MatchAt(s, p, i) {
      if 0 <= i && i + |p| <= |s| {
        assert s[i..i + |p|][0] == s[i];
      }
    }
  }

  /** Concatenation is associative (a step sequence extensionality does not take by itself). */
  lemma ConcatAssociative(a: string, b: string, c: string)
    ensures (a + b) + c == a + (b + c)
  {
  }

  function DigitChar(d: nat): (c: char)
    requires d < 10
    ensures IsDigit(c)
  {
    ('0' as int + d) as char
  }

  /** The decimal digits of a natural number, most significant first, without leading zeros. */
  function Digits(n: nat): (r: string)
    ensures r != [] && AllDigits(r)
    ensures |r| > 1 ==> r[0] != '0'
  {
    if n < 10 then [DigitChar(n)] else Digits(n / 10) + [DigitChar(n % 10)]
  }

  /** std::to_string of an integer. */
  function DecimalString(n: int): (r: string)
    ensures r != []
  {
    if n < 0 then "-" + Digits(-n) else Digits(n)
  }

  /** The value of a string of decimal digits. */
  function DigitsValue(s: string): nat
    requires AllDigits(s)
  {
    if s == [] then 0 else DigitsValue(s[..|s| - 1]) * 10 + (s[|s| - 1] as int - '0' as int)
  }

  /** Reading back the digits of n gives n. */
  lemma {:induction false} DigitsRoundTrip(n: nat)
    ensures DigitsValue(Digits(n)) == n
  {
    if n >= 10 {
      DigitsRoundTrip(n / 10);
      var s := Digits(n);
      assert s[..|s| - 1] == Digits(n / 10);
    }
  }
}
