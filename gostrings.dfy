/**
 * The few pieces of Go's `strings` and `unicode` packages that the handler
 * merger relies on, written out over `seq<char>`.  Character classes are the
 * ASCII (and, for white space, Latin-1) parts of Go's Unicode tables.
 */
module GoStrings {

  predicate IsAsciiLetter(c: char) { 'a' <= c <= 'z' || 'A' <= c <= 'Z' }

  predicate IsAsciiDigit(c: char) { '0' <= c <= '9' }

  /** `unicode.IsLetter(c) || unicode.IsDigit(c)`, restricted to ASCII. */
  predicate IsLetterOrDigit(c: char) { IsAsciiLetter(c) || IsAsciiDigit(c) }

  /** Every character is a letter or a digit: an identifier-like name. */
  predicate AllLetterOrDigit(s: string)
  {
    forall i :: 0 <= i < |s| ==> IsLetterOrDigit(s[i])
  }

  /** `unicode.IsSpace` on the Latin-1 range. */
  predicate IsSpace(c: char)
  {
    c == ' ' || c == '\t' || c == '\n' || c == '\U{000B}' || c == '\U{000C}'
    || c == '\r' || c == '\U{0085}' || c == '\U{00A0}'
  }

  predicate HasPrefix(s: string, prefix: string)
  {
    |prefix| <= |s| && s[..|prefix|] == prefix
  }

  predicate HasSuffix(s: string, suffix: string)
  {
    |suffix| <= |s| && s[|s| - |suffix|..] == suffix
  }

  /** `strings.TrimPrefix`: drops `prefix` once, if `s` starts with it. */
  function TrimPrefix(s: string, prefix: string): string
  {
    if HasPrefix(s, prefix) then s[|prefix|..] else s
  }

  /** `strings.TrimSuffix`: drops `suffix` once, if `s` ends with it. */
  function TrimSuffix(s: string, suffix: string): string
  {
    if HasSuffix(s, suffix) then s[..|s| - |suffix|] else s
  }

  /** `strings.TrimPrefix` removes exactly one copy of a prefix that is there, and nothing otherwise. */
  lemma TrimPrefixShape(s: string, prefix: string)
    ensures HasPrefix(s, prefix) ==> prefix + TrimPrefix(s, prefix) == s
    ensures !HasPrefix(s, prefix) ==> TrimPrefix(s, prefix) == s
    ensures HasSuffix(s, TrimPrefix(s, prefix))
  {
    if HasPrefix(s, prefix) {
      assert s == s[..|prefix|] + s[|prefix|..];
    }
  }

  /** `strings.TrimSuffix` removes exactly one copy of a suffix that is there, and nothing otherwise. */
  lemma TrimSuffixShape(s: string, suffix: string)
    ensures HasSuffix(s, suffix) ==> TrimSuffix(s, suffix) + suffix == s
    ensures !HasSuffix(s, suffix) ==> TrimSuffix(s, suffix) == s
    ensures HasPrefix(s, TrimSuffix(s, suffix))
  {
    if HasSuffix(s, suffix) {
      assert s == s[..|s| - |suffix|] + s[|s| - |suffix|..];
    }
  }

  /** White space dropped from the front. */
  function TrimLeftSpace(s: string): string
  {
    if s != [] && IsSpace(s[0]) then TrimLeftSpace(s[1..]) else s
  }

  /** White space dropped from the back. */
  function TrimRightSpace(s: string): string
  {
    if s != [] && IsSpace(s[|s| - 1]) then TrimRightSpace(s[..|s| - 1]) else s
  }

  /** `strings.TrimSpace`: leading and trailing white space removed. */
  function TrimSpace(s: string): string
  {
    TrimRightSpace(TrimLeftSpace(s))
  }

  /** What `TrimLeftSpace` removes is white space, and what it keeps does not start with any. */
  lemma {:induction false} TrimLeftSpaceShape(s: string)
    ensures HasSuffix(s, TrimLeftSpace(s))
    ensures forall i :: 0 <= i < |s| - |TrimLeftSpace(s)| ==> IsSpace(s[i])
    ensures TrimLeftSpace(s) == [] || !IsSpace(TrimLeftSpace(s)[0])
    decreases |s|
  {
    if s != [] && IsSpace(s[0]) {
      TrimLeftSpaceShape(s[1..]);
      forall i | 0 < i < |s| - |TrimLeftSpace(s)| ensures IsSpace(s[i]) {
        assert s[i] == s[1..][i - 1];
      }
    }
  }

  /** What `TrimRightSpace` removes is white space, and what it keeps does not end with any. */
  lemma {:induction false} TrimRightSpaceShape(s: string)
    ensures HasPrefix(s, TrimRightSpace(s))
    ensures forall i :: |TrimRightSpace(s)| <= i < |s| ==> IsSpace(s[i])
    ensures TrimRightSpace(s) == [] || !IsSpace(TrimRightSpace(s)[|TrimRightSpace(s)| - 1])
    decreases |s|
  {
    if s != [] && IsSpace(s[|s| - 1]) {
      var front := s[..|s| - 1];
      TrimRightSpaceShape(front);
      var r := TrimRightSpace(s);
      assert s[..|r|] == front[..|r|];
      forall i | |r| <= i < |s| ensures IsSpace(s[i]) {
        if i < |s| - 1 { assert s[i] == front[i]; }
      }
    }
  }

  /**
   * `strings.TrimSpace` keeps an infix of `s` that neither starts nor ends
   * with white space, and only white space lies around it.
   */
  lemma TrimSpaceShape(s: string)
    ensures
      var r := TrimSpace(s);
      var k := |s| - |TrimLeftSpace(s)|;
      && InfixAt(s, r, k)
      && Contains(s, r)
      && (r == [] || (!IsSpace(r[0]) && !IsSpace(r[|r| - 1])))
      && (forall i :: 0 <= i < k ==> IsSpace(s[i]))
      && (forall i :: k + |r| <= i < |s| ==> IsSpace(s[i]))
  {
    var left := TrimLeftSpace(s);
    var r := TrimSpace(s);
    var k := |s| - |left|;
    TrimLeftSpaceShape(s);
    TrimRightSpaceShape(left);
    assert s[k..] == left;
    assert s[k..][..|r|] == r;
    assert InfixAt(s, r, k);
    forall i | k + |r| <= i < |s| ensures IsSpace(s[i]) {
      assert s[i] == left[i - k];
    }
    if r != [] {
      assert r[0] == TrimRightSpace(left)[0] == left[0];
    }
  }

  /** Without white space, `strings.TrimSpace` changes nothing. */
  lemma TrimSpaceNoSpace(s: string)
    requires forall i :: 0 <= i < |s| ==> !IsSpace(s[i])
    ensures TrimSpace(s) == s
  {
    assert TrimLeftSpace(s) == s;
    assert TrimRightSpace(s) == s;
  }

  /** `strings.Join`: the parts with `sep` between consecutive ones. */
  function Join(parts: seq<string>, sep: string): (r: string)
    ensures |parts| == 1 ==> r == parts[0]
    ensures |parts| == 2 ==> r == parts[0] + sep + parts[1]
    ensures |parts| == 0 ==> r == ""
    decreases |parts|
  {
    if |parts| == 0 then ""
    else if |parts| == 1 then parts[0]
    else parts[0] + sep + Join(parts[1..], sep)
  }

  /** A join starts with its first part and ends with its last. */
  lemma {:induction false} JoinEnds(parts: seq<string>, sep: string)
    requires parts != []
    ensures HasPrefix(Join(parts, sep), parts[0])
    ensures HasSuffix(Join(parts, sep), parts[|parts| - 1])
    decreases |parts|
  {
    if |parts| > 1 {
      var rest := Join(parts[1..], sep);
      JoinEnds(parts[1..], sep);
      assert parts[1..][|parts[1..]| - 1] == parts[|parts| - 1];
      var r := Join(parts, sep);
      assert r == parts[0] + sep + rest;
      assert r[|r| - |rest|..] == rest;
      assert r[..|parts[0]|] == parts[0];
    }
  }

  /**
   * Go's `isSeparator` as `strings.Title` uses it: ASCII letters, digits and
   * `_` continue a word, every other ASCII character separates words; above
   * ASCII only white space separates.
   */
  predicate IsWordSeparator(c: char)
  {
    if c as int <= 0x7F then !(IsAsciiLetter(c) || IsAsciiDigit(c) || c == '_')
    else IsSpace(c)
  }

  /** `unicode.ToTitle` on ASCII: lower-case letters become upper-case. */
  function ToTitle(c: char): (r: char)
    ensures 'a' <= c <= 'z' ==> 'A' <= r <= 'Z' && r as int == c as int - 32
    ensures !('a' <= c <= 'z') ==> r == c
  {
    if 'a' <= c <= 'z' then (c as int - 32) as char else c
  }

  /** The title-casing pass, where `atWordStart` says whether the previous character separated words. */
  function TitleFrom(atWordStart: bool, s: string): (r: string)
    ensures |r| == |s|
    decreases |s|
  {
    if s == [] then []
    else [if atWordStart then ToTitle(s[0]) else s[0]] + TitleFrom(IsWordSeparator(s[0]), s[1..])
  }

  /** `strings.Title`: upper-cases the first letter of every word. */
  function Title(s: string): (r: string)
    ensures |r| == |s|
    ensures s != [] ==> r[0] == ToTitle(s[0])
  {
    TitleFrom(true, s)
  }

  /** Upper-cases the first character only. */
  function UpperFirst(s: string): (r: string)
    ensures |r| == |s|
    ensures s != [] ==> r[0] == ToTitle(s[0]) && r[1..] == s[1..]
  {
    if s == [] then s else [ToTitle(s[0])] + s[1..]
  }

  /** Inside an identifier no word starts, so nothing changes. */
  lemma {:induction false} TitleInsideIdentifier(s: string)
    requires AllLetterOrDigit(s)
    ensures TitleFrom(false, s) == s
  {
    if s != [] {
      assert AllLetterOrDigit(s[1..]) by {
        forall i | 0 <= i < |s[1..]| ensures IsLetterOrDigit(s[1..][i]) {
          assert s[1..][i] == s[i + 1];
        }
      }
      assert IsLetterOrDigit(s[0]);
      TitleInsideIdentifier(s[1..]);
    }
  }

  /** On a name made of letters and digits, `strings.Title` only upper-cases the first character. */
  lemma TitleOfIdentifier(s: string)
    requires AllLetterOrDigit(s)
    ensures Title(s) == UpperFirst(s)
    ensures AllLetterOrDigit(Title(s))
  {
    if s != [] {
      assert AllLetterOrDigit(s[1..]) by {
        forall i | 0 <= i < |s[1..]| ensures IsLetterOrDigit(s[1..][i]) {
          assert s[1..][i] == s[i + 1];
        }
      }
      assert IsLetterOrDigit(s[0]);
      TitleInsideIdentifier(s[1..]);
      var t := Title(s);
      forall i | 0 <= i < |t| ensures IsLetterOrDigit(t[i]) {
        if i > 0 { assert t[i] == s[i]; }
      }
    }
  }

  /** Upper-casing the first character of `s + suffix` leaves a suffix that does not start lower-case alone. */
  lemma UpperFirstKeepsSuffix(s: string, suffix: string)
    requires suffix != [] && !('a' <= suffix[0] <= 'z')
    ensures UpperFirst(s + suffix) == UpperFirst(s) + suffix
    ensures HasSuffix(UpperFirst(s + suffix), suffix)
  {
    var t := UpperFirst(s + suffix);
    if s == [] {
      assert s + suffix == suffix;
    } else {
      assert (s + suffix)[1..] == s[1..] + suffix;
    }
    assert t[|t| - |suffix|..] == suffix;
  }

  /** A name made of letters and digits, extended by another, is still one. */
  lemma AppendLetterOrDigit(s: string, t: string)
    requires AllLetterOrDigit(s) && AllLetterOrDigit(t)
    ensures AllLetterOrDigit(s + t)
  {
    forall i | 0 <= i < |s + t| ensures IsLetterOrDigit((s + t)[i]) {
      if i >= |s| { assert (s + t)[i] == t[i - |s|]; }
    }
  }

  /** `sub` occurs in `s` starting at index `k`. */
  predicate InfixAt(s: string, sub: string, k: int)
  {
    0 <= k <= |s| - |sub| && s[k..k + |sub|] == sub
  }

  /** `sub` occurs somewhere in `s`. */
  ghost predicate Contains(s: string, sub: string)
  {
    exists k :: InfixAt(s, sub, k)
  }
}
