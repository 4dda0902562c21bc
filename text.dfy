/** Character classes and string operations of JavaScript that the site's code relies on:
    the whitespace class `\s` (which is also the set `String.prototype.trim` removes),
    ASCII case mapping, `trim`, `startsWith`/`includes`, and removal of characters. */
module Text {
  import opened Seqs

  /** JavaScript's `\s`: the WhiteSpace and LineTerminator code points of ECMA-262. */
  predicate IsSpace(c: char)
  {
    || c == '\t' || c == '\n' || c == '\U{B}' || c == '\U{C}' || c == '\r' || c == ' '
    || c == '\U{A0}' || c == '\U{1680}' || ('\U{2000}' <= c <= '\U{200A}')
    || c == '\U{2028}' || c == '\U{2029}' || c == '\U{202F}' || c == '\U{205F}'
    || c == '\U{3000}' || c == '\U{FEFF}'
  }

  predicate IsDigit(c: char) { '0' <= c <= '9' }
  predicate IsUpper(c: char) { 'A' <= c <= 'Z' }
  predicate IsLower(c: char) { 'a' <= c <= 'z' }
  /** `[a-zA-Z]` */
  predicate IsLetter(c: char) { IsUpper(c) || IsLower(c) }
  /** `\w`, that is `[A-Za-z0-9_]` */
  predicate IsWordChar(c: char) { IsLetter(c) || IsDigit(c) || c == '_' }

  predicate AllDigits(s: string) { forall i :: 0 <= i < |s| ==> IsDigit(s[i]) }
  predicate AllLetters(s: string) { forall i :: 0 <= i < |s| ==> IsLetter(s[i]) }

  /** ASCII lower-casing of one character. */
  function LowerChar(c: char): (r: char)
    ensures !IsUpper(r)
    ensures IsLetter(c) <==> IsLetter(r)
    ensures !IsUpper(c) ==> r == c
  {
    if IsUpper(c) then (c as int + 32) as char else c
  }

  /** `toLowerCase` restricted to ASCII letters. */
  function Lower(s: string): (r: string)
    ensures |r| == |s|
    ensures forall i :: 0 <= i < |s| ==> r[i] == LowerChar(s[i])
  {
    if s == [] then [] else [LowerChar(s[0])] + Lower(s[1..])
  }

  /** No upper-case ASCII letter occurs. */
  predicate IsLowerCased(s: string) { forall i :: 0 <= i < |s| ==> !IsUpper(s[i]) }

  /** Neither end of the string is whitespace. */
  predicate IsTrimmed(s: string)
  {
    s == [] || (!IsSpace(s[0]) && !IsSpace(s[|s| - 1]))
  }

  /** Removes leading whitespace. */
  function TrimStart(s: string): (r: string)
    ensures |r| <= |s|
    ensures r == [] || !IsSpace(r[0])
  {
    if s != [] && IsSpace(s[0]) then TrimStart(s[1..]) else s
  }

  /** Removes trailing whitespace. */
  function TrimEnd(s: string): (r: string)
    ensures |r| <= |s|
    ensures r == [] || !IsSpace(r[|r| - 1])
  {
    if s != [] && IsSpace(s[|s| - 1]) then TrimEnd(s[..|s| - 1]) else s
  }

  /** `String.prototype.trim`: the longest slice of `s` whose ends are not whitespace. */
  function Trim(s: string): (r: string)
    ensures IsTrimmed(r)
    ensures |r| <= |s|
    ensures IsTrimmed(s) ==> r == s
  {
    TrimEndPrefix(TrimStart(s));
    TrimEnd(TrimStart(s))
  }

  /** Removing leading whitespace leaves a suffix. */
  lemma {:induction false} TrimStartSuffix(s: string)
    ensures TrimStart(s) == s[|s| - |TrimStart(s)|..]
  {
    if s != [] && IsSpace(s[0]) {
      TrimStartSuffix(s[1..]);
    }
  }

  /** Removing trailing whitespace leaves a prefix. */
  lemma {:induction false} TrimEndPrefix(s: string)
    ensures TrimEnd(s) == s[..|TrimEnd(s)|]
  {
    if s != [] && IsSpace(s[|s| - 1]) {
      TrimEndPrefix(s[..|s| - 1]);
    }
  }

  /** The trimmed string is the slice of `s` between its leading and its trailing whitespace. */
  lemma TrimSlice(s: string)
    ensures var i := |s| - |TrimStart(s)|; i + |Trim(s)| <= |s| && Trim(s) == s[i..i + |Trim(s)|]
  {
    TrimStartSuffix(s);
    TrimEndPrefix(TrimStart(s));
  }

  /** Trimming introduces no character. */
  lemma TrimChars(s: string)
    ensures forall c :: c in Trim(s) ==> c in s
  {
    TrimSlice(s);
  }

  /** A string trims to nothing exactly when it is all whitespace. */
  lemma {:induction false} TrimEmpty(s: string)
    ensures Trim(s) == [] <==> forall i :: 0 <= i < |s| ==> IsSpace(s[i])
  {
    TrimStartAllSpace(s);
    if TrimStart(s) != [] {
      TrimEndKeepsHead(TrimStart(s));
    }
  }

  /** A string that starts with a non-whitespace character does not trim away at the end. */
  lemma {:induction false} TrimEndKeepsHead(t: string)
    requires t != [] && !IsSpace(t[0])
    ensures TrimEnd(t) != []
  {
    if IsSpace(t[|t| - 1]) {
      TrimEndKeepsHead(t[..|t| - 1]);
    }
  }

  lemma {:induction false} TrimStartAllSpace(s: string)
    ensures TrimStart(s) == [] <==> forall i :: 0 <= i < |s| ==> IsSpace(s[i])
  {
    if s != [] && IsSpace(s[0]) {
      TrimStartAllSpace(s[1..]);
      assert forall i :: 1 <= i < |s| ==> s[i] == s[1..][i - 1];
    }
  }

  lemma TrimIdempotent(s: string)
    ensures Trim(Trim(s)) == Trim(s)
  {
  }

  /** Lower-casing and trimming commute, since no letter is whitespace. */
  lemma {:induction false} TrimLowerCommute(s: string)
    ensures Trim(Lower(s)) == Lower(Trim(s))
  {
    TrimStartLower(s);
    TrimEndLower(TrimStart(s));
  }

  lemma {:induction false} TrimStartLower(s: string)
    ensures TrimStart(Lower(s)) == Lower(TrimStart(s))
  {
    if s != [] {
      assert IsSpace(Lower(s)[0]) == IsSpace(s[0]);
      if IsSpace(s[0]) {
        assert Lower(s)[1..] == Lower(s[1..]);
        TrimStartLower(s[1..]);
      }
    }
  }

  lemma {:induction false} TrimEndLower(s: string)
    ensures TrimEnd(Lower(s)) == Lower(TrimEnd(s))
  {
    if s != [] {
      assert IsSpace(Lower(s)[|s| - 1]) == IsSpace(s[|s| - 1]);
      if IsSpace(s[|s| - 1]) {
        assert Lower(s)[..|s| - 1] == Lower(s[..|s| - 1]);
        TrimEndLower(s[..|s| - 1]);
      }
    }
  }

  /** `s.startsWith(p)` */
  predicate StartsWith(s: string, p: string)
  {
    |p| <= |s| && s[..|p|] == p
  }

  /** `s.includes(p)`, that is `p` occurs in `s` at some position. */
  predicate Contains(s: string, p: string)
  {
    StartsWith(s, p) || (s != [] && Contains(s[1..], p))
  }

  /** `s.toLowerCase().includes(p)`, also the meaning of a case-insensitive regular expression
      that is a lower-case literal. */
  predicate ContainsIgnoreCase(s: string, p: string)
  {
    Contains(Lower(s), p)
  }

  /** Nothing contains a pattern longer than itself. */
  lemma {:induction false} ContainsNeedsRoom(s: string, p: string)
    requires |s| < |p|
    ensures !Contains(s, p)
  {
    if s != [] {
      ContainsNeedsRoom(s[1..], p);
    }
  }

  /** An occurrence in a prefix is an occurrence. */
  lemma {:induction false} ContainsInPrefix(s: string, j: nat, p: string)
    requires j <= |s| && Contains(s[..j], p)
    ensures Contains(s, p)
  {
    if !StartsWith(s[..j], p) {
      assert s[..j][1..] == s[1..][..j - 1];
      ContainsInPrefix(s[1..], j - 1, p);
    }
  }

  /** An occurrence in a suffix is an occurrence. */
  lemma {:induction false} ContainsInSuffix(s: string, i: nat, p: string)
    requires i <= |s| && Contains(s[i..], p)
    ensures Contains(s, p)
  {
    if i > 0 {
      assert s[i..] == s[1..][i - 1..];
      ContainsInSuffix(s[1..], i - 1, p);
    }
  }

  /** Lower-casing commutes with taking a slice. */
  lemma LowerSlice(s: string, i: nat, j: nat)
    requires i <= j <= |s|
    ensures Lower(s[i..j]) == Lower(s)[i..j]
  {
    var a, b := Lower(s[i..j]), Lower(s)[i..j];
    forall k | 0 <= k < |a|
      ensures a[k] == b[k]
    {
      assert s[i..j][k] == s[i + k];
    }
  }

  /** An occurrence in a slice is an occurrence. */
  lemma ContainsInSlice(s: string, i: nat, j: nat, p: string)
    requires i <= j <= |s| && Contains(s[i..j], p)
    ensures Contains(s, p)
  {
    assert s[i..][..j - i] == s[i..j];
    ContainsInPrefix(s[i..], j - i, p);
    ContainsInSuffix(s, i, p);
  }

  /** Trimming only removes characters: a pattern found case-insensitively in the trimmed
      string is found in the original. */
  lemma ContainsIgnoreCaseTrim(s: string, p: string)
    ensures ContainsIgnoreCase(Trim(s), p) ==> ContainsIgnoreCase(s, p)
  {
    TrimSlice(s);
    var i := |s| - |TrimStart(s)|;
    var j := i + |Trim(s)|;
    LowerSlice(s, i, j);
    if ContainsIgnoreCase(Trim(s), p) {
      ContainsInSlice(Lower(s), i, j, p);
    }
  }

  /** `s.replace(/[class]/g, '')`: the characters outside the class, in order. */
  function Remove(s: string, cls: char -> bool): (r: string)
    ensures forall i :: 0 <= i < |r| ==> !cls(r[i])
  {
    Filter(s, Not(cls))
  }

  /** The part of `s` before the first `sep`: `s.split(sep)[0]`. */
  function BeforeFirst(s: string, sep: char): (r: string)
    ensures sep !in r
    ensures StartsWith(s, r)
    ensures sep !in s ==> r == s
    ensures |r| < |s| ==> s[|r|] == sep
  {
    if s == [] then []
    else if s[0] == sep then []
    else [s[0]] + BeforeFirst(s[1..], sep)
  }

  /** Trimming removes no character that satisfies a predicate excluding whitespace. */
  lemma TrimKeepsNonSpace(s: string, q: char -> bool)
    requires forall c :: q(c) ==> !IsSpace(c)
    ensures Filter(Trim(s), q) == Filter(s, q)
  {
    TrimSlice(s);
    var i := |s| - |TrimStart(s)|;
    var j := i + |Trim(s)|;
    TrimSpaces(s);
    assert s == s[..i] + s[i..j] + s[j..];
    FilterAppend(s[..i] + s[i..j], s[j..], q);
    FilterAppend(s[..i], s[i..j], q);
    FilterNone(s[..i], q);
    FilterNone(s[j..], q);
  }

  /** What trimming removes is whitespace. */
  lemma TrimSpaces(s: string)
    ensures var i := |s| - |TrimStart(s)|; var j := i + |Trim(s)|;
      && (forall k :: 0 <= k < i ==> IsSpace(s[k]))
      && (forall k :: j <= k < |s| ==> IsSpace(s[k]))
  {
    TrimSlice(s);
    TrimStartDropsSpaces(s);
    var t := TrimStart(s);
    TrimStartSuffix(s);
    TrimEndDropsSpaces(t);
    var i := |s| - |t|;
    forall k | i + |Trim(s)| <= k < |s|
      ensures IsSpace(s[k])
    {
      assert s[k] == t[k - i];
    }
  }

  lemma {:induction false} TrimStartDropsSpaces(s: string)
    ensures forall k :: 0 <= k < |s| - |TrimStart(s)| ==> IsSpace(s[k])
  {
    if s != [] && IsSpace(s[0]) {
      TrimStartDropsSpaces(s[1..]);
      assert forall k :: 1 <= k < |s| ==> s[k] == s[1..][k - 1];
    }
  }

  lemma {:induction false} TrimEndDropsSpaces(s: string)
    ensures forall k :: |TrimEnd(s)| <= k < |s| ==> IsSpace(s[k])
  {
    if s != [] && IsSpace(s[|s| - 1]) {
      TrimEndDropsSpaces(s[..|s| - 1]);
      assert forall k :: 0 <= k < |s| - 1 ==> s[k] == s[..|s| - 1][k];
    }
  }
}
